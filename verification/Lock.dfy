/**
  The registrar lock: one conditional write to take it, one conditional delete to give it back,
  across crashes, expiry, deletion by the table's TTL, delayed calls and clock skew.
  */
module Lock {
  import opened Wrappers

  /** A uuid per invocation. */
  type Owner = string

  datatype Item = Item(owner: Owner, ttl: int)

  /** The condition of the write: no item, or one that expired before the writer's current second. */
  predicate MayTake(item: Option<Item>, now: int) { item.None? || item.value.ttl < now }

  function Take(item: Option<Item>, owner: Owner, now: int, ttlSeconds: int): Option<Item> {
    if MayTake(item, now) then Some(Item(owner, now + ttlSeconds)) else item
  }

  function GiveBack(item: Option<Item>, owner: Owner): Option<Item> {
    if item.Some? && item.value.owner == owner then None else item
  }

  // ---- the lock as a step system

  /** Times are in ticks, `second` of them to a second; `life` bounds an invocation, `skew` every clock's error. */
  datatype Params = Params(second: int, life: int, ttlSeconds: int, skew: int) {
    predicate Ok() {
      second > 0 && life >= 0 && skew >= 0
    }

    /** An item outlives its writer by more than two clocks can disagree. */
    predicate Covers() {
      Ok() && ttlSeconds * second >= life + 2 * skew
    }
  }

  /** An invocation that may still take the lock, is in the locked section, or has left it or died. */
  datatype Phase = Outside(start: int) | Inside(start: int) | Gone

  datatype World = World(time: int, item: Option<Item>, phase: map<Owner, Phase>)

  /**
    AcquireLost is a write whose outcome its owner does not learn: it may arrive late, even after
    the owner has died.
    */
  datatype LockStep =
    | Tick(ticks: int)
    | Start(owner: Owner)
    | Acquire(owner: Owner, readAt: int, error: int)
    | AcquireLost(owner: Owner, readAt: int, error: int, dies: bool)
    | Leave(owner: Owner)
    | ReleaseArrives(owner: Owner)
    | Sweep(error: int)

  predicate Alive(phase: Phase) { !phase.Gone? }

  /** int(time.time()) on a clock that is `error` ticks off. */
  function Seconds(p: Params, at: int, error: int): int
    requires p.Ok()
  {
    (at + error) / p.second
  }

  predicate ClockOk(p: Params, error: int) { -p.skew <= error <= p.skew }

  /** A clock reading is taken by the running invocation, some time before the write arrives. */
  predicate MayWrite(p: Params, w: World, o: Owner, readAt: int, error: int) {
    && ClockOk(p, error) && o in w.phase && w.phase[o].Outside? && w.phase[o].start <= readAt <= w.time
  }

  predicate Enabled(p: Params, w: World, step: LockStep)
    requires p.Ok()
  {
    match step
    case Tick(d) => d >= 0 && forall o | o in w.phase && Alive(w.phase[o]) :: w.time + d <= w.phase[o].start + p.life
    case Start(o) => o !in w.phase
    case Acquire(o, readAt, error) => MayWrite(p, w, o, readAt, error)
    case AcquireLost(o, readAt, error, _) =>
      ClockOk(p, error) && o in w.phase && !w.phase[o].Inside? && readAt <= w.time
    case Leave(o) => o in w.phase && Alive(w.phase[o])
    case ReleaseArrives(o) => o in w.phase && w.phase[o].Gone?
    case Sweep(error) => ClockOk(p, error) && w.item.Some? && w.item.value.ttl < Seconds(p, w.time, error)
  }

  function After(p: Params, w: World, step: LockStep): World
    requires p.Ok()
  {
    match step
    case Tick(d) => w.(time := w.time + d)
    case Start(o) => w.(phase := w.phase[o := Outside(w.time)])
    case Acquire(o, readAt, error) =>
      var now := Seconds(p, readAt, error);
      w.(item := Take(w.item, o, now, p.ttlSeconds),
         phase := if MayTake(w.item, now) && o in w.phase && w.phase[o].Outside?
                  then w.phase[o := Inside(w.phase[o].start)] else w.phase)
    case AcquireLost(o, readAt, error, dies) =>
      w.(item := Take(w.item, o, Seconds(p, readAt, error), p.ttlSeconds),
         phase := if dies then w.phase[o := Gone] else w.phase)
    case Leave(o) => w.(phase := w.phase[o := Gone])
    case ReleaseArrives(o) => w.(item := GiveBack(w.item, o))
    case Sweep(_) => w.(item := None)
  }

  const START := World(0, None, map[])

  /** Whoever is inside holds the item, wrote it no earlier than its own start, and has not outlived its life. */
  predicate LockInv(p: Params, w: World) {
    && (forall o | o in w.phase && Alive(w.phase[o]) :: w.phase[o].start <= w.time <= w.phase[o].start + p.life)
    && (forall o | o in w.phase && w.phase[o].Inside? ::
          && w.item.Some? && w.item.value.owner == o
          && (w.item.value.ttl + 1 - p.ttlSeconds) * p.second > w.phase[o].start - p.skew)
  }

  predicate Exclusive(w: World) {
    forall a, b | a in w.phase && b in w.phase && w.phase[a].Inside? && w.phase[b].Inside? :: a == b
  }

  lemma SecondsBounds(p: Params, at: int, error: int)
    requires p.Ok()
    ensures Seconds(p, at, error) * p.second <= at + error < (Seconds(p, at, error) + 1) * p.second
  {}

  lemma ScaleOrder(a: int, b: int, factor: int)
    requires factor > 0 && a <= b
    ensures a * factor <= b * factor
  {}

  lemma CancelFactor(a: int, b: int, factor: int)
    requires factor > 0 && a * factor < b * factor
    ensures a < b
  {
    if b <= a { ScaleOrder(b, a, factor); }
  }

  /** No second that any running clock can show is past the item of an invocation that is still inside. */
  lemma ItemOutlivesHolder(p: Params, w: World, o: Owner, at: int, error: int)
    requires p.Covers() && LockInv(p, w) && o in w.phase && w.phase[o].Inside?
    requires at <= w.time && ClockOk(p, error)
    ensures !MayTake(w.item, Seconds(p, at, error))
  {
    var now, ttl := Seconds(p, at, error), w.item.value.ttl;
    SecondsBounds(p, at, error);
    assert (ttl + 1) * p.second == (ttl + 1 - p.ttlSeconds) * p.second + p.ttlSeconds * p.second;
    CancelFactor(now, ttl + 1, p.second);
  }

  /** So the conditional write succeeds only when nobody is inside. */
  lemma TakenOnlyWhenNobodyInside(p: Params, w: World, at: int, error: int)
    requires p.Covers() && LockInv(p, w) && at <= w.time && ClockOk(p, error)
    requires MayTake(w.item, Seconds(p, at, error))
    ensures forall h | h in w.phase :: !w.phase[h].Inside?
  {
    forall h | h in w.phase ensures !w.phase[h].Inside? {
      if w.phase[h].Inside? { ItemOutlivesHolder(p, w, h, at, error); }
    }
  }

  lemma LockStepKeepsInv(p: Params, w: World, step: LockStep)
    requires p.Covers() && LockInv(p, w) && Enabled(p, w, step)
    ensures LockInv(p, After(p, w, step))
  {
    match step
    case Acquire(o, readAt, error) =>
      var now := Seconds(p, readAt, error);
      SecondsBounds(p, readAt, error);
      assert now + p.ttlSeconds + 1 - p.ttlSeconds == now + 1;
      if MayTake(w.item, now) { TakenOnlyWhenNobodyInside(p, w, readAt, error); }
    case AcquireLost(o, readAt, error, _) =>
      if MayTake(w.item, Seconds(p, readAt, error)) { TakenOnlyWhenNobodyInside(p, w, readAt, error); }
    case Sweep(error) => TakenOnlyWhenNobodyInside(p, w, w.time, error);
    case _ =>
  }

  predicate LockRun(p: Params, steps: seq<LockStep>)
    requires p.Ok()
  {
    steps == [] ||
    (var n := |steps| - 1; LockRun(p, steps[..n]) && Enabled(p, Reached(p, steps[..n]), steps[n]))
  }

  function Reached(p: Params, steps: seq<LockStep>): World
    requires p.Ok()
  {
    if steps == [] then START else After(p, Reached(p, steps[..|steps| - 1]), steps[|steps| - 1])
  }

  /** However invocations start, stall, crash, expire and release, two are never in the locked section together. */
  lemma {:induction false} MutualExclusion(p: Params, steps: seq<LockStep>)
    requires p.Covers() && LockRun(p, steps)
    ensures LockInv(p, Reached(p, steps)) && Exclusive(Reached(p, steps))
  {
    if steps != [] {
      MutualExclusion(p, steps[..|steps| - 1]);
      LockStepKeepsInv(p, Reached(p, steps[..|steps| - 1]), steps[|steps| - 1]);
    }
  }

  // ---- and the lock is not lost with its holder

  /** No item reaches further than its time to live beyond the clock that wrote it. */
  predicate Bounded(p: Params, w: World)
    requires p.Ok()
  {
    w.item.Some? ==> (w.item.value.ttl - p.ttlSeconds) * p.second <= w.time + p.skew
  }

  lemma StepKeepsBounded(p: Params, w: World, step: LockStep)
    requires p.Ok() && Bounded(p, w) && Enabled(p, w, step)
    ensures Bounded(p, After(p, w, step))
  {
    match step
    case Acquire(o, readAt, error) => SecondsBounds(p, readAt, error);
    case AcquireLost(o, readAt, error, _) => SecondsBounds(p, readAt, error);
    case _ =>
  }

  lemma {:induction false} ItemsAreBounded(p: Params, steps: seq<LockStep>)
    requires p.Ok() && LockRun(p, steps)
    ensures Bounded(p, Reached(p, steps))
  {
    if steps != [] {
      ItemsAreBounded(p, steps[..|steps| - 1]);
      StepKeepsBounded(p, Reached(p, steps[..|steps| - 1]), steps[|steps| - 1]);
    }
  }

  /** An attempt gets in exactly if there is no item or the attempt is made in a second past its ttl. */
  lemma AttemptEntersIff(p: Params, w: World, o: Owner, readAt: int, error: int)
    requires p.Ok() && Enabled(p, w, Acquire(o, readAt, error))
    ensures var now := Seconds(p, readAt, error); var w' := After(p, w, Acquire(o, readAt, error));
      && (w'.phase[o].Inside? <==> w.item.None? || w.item.value.ttl < now)
      && w'.item == if w'.phase[o].Inside? then Some(Item(o, now + p.ttlSeconds)) else w.item
  {
    hide Seconds;
  }

  /**
    After any run, whoever died with the lock: if nobody writes the item meanwhile, the first attempt
    made a time to live and two clock errors later gets in.
    */
  lemma DeadHoldersAreReplaced(p: Params, steps: seq<LockStep>, w: World, o: Owner, readAt: int, error: int)
    requires p.Ok() && LockRun(p, steps) && w.item == Reached(p, steps).item
    requires Enabled(p, w, Acquire(o, readAt, error))
    requires readAt >= Reached(p, steps).time + (p.ttlSeconds + 1) * p.second + 2 * p.skew
    ensures After(p, w, Acquire(o, readAt, error)).phase[o].Inside?
  {
    ItemsAreBounded(p, steps);
    AttemptEntersIff(p, w, o, readAt, error);
    if w.item.Some? {
      var ttl, now := w.item.value.ttl, Seconds(p, readAt, error);
      SecondsBounds(p, readAt, error);
      assert (ttl - p.ttlSeconds) * p.second + (p.ttlSeconds + 1) * p.second == (ttl + 1) * p.second;
      CancelFactor(ttl + 1, now + 1, p.second);
    }
  }

  /** validateConfig's rule (a TTL above 1.5 timeouts) covers clock errors up to a quarter of the timeout. */
  lemma ConfigCoversSkew(second: int, timeoutSeconds: int, ttlSeconds: int, skew: int)
    requires second > 0 && timeoutSeconds >= 0 && skew >= 0
    requires 2 * ttlSeconds > 3 * timeoutSeconds && 4 * skew <= timeoutSeconds * second
    ensures Params(second, timeoutSeconds * second, ttlSeconds, skew).Covers()
  {
    assert 2 * (ttlSeconds * second) == (2 * ttlSeconds) * second >= (3 * timeoutSeconds) * second;
  }
}
