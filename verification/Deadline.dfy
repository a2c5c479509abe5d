/**
  Waiting for a call no longer than a deadline: the call runs on a thread of its own and leaves its
  result in a box, and the caller joins, tests whether the thread is still alive, and reads the box.
  */
module Deadline {
  import opened Wrappers

  /** The box both threads share. The worker fills one of its halves. */
  datatype Box<T, E> = Box(value: Option<T>, error: Option<E>)

  /** A thread is alive until it has ended, also between filling the box and ending. */
  datatype Worker = Running | Filled | Ended

  /** `KeyError` is what reading an empty box would come to. */
  datatype Caller<T, E> = Joining | Testing | Reading | Abandoned | Returned(value: T) | Raised(error: E) | KeyError

  /** `joinedAt` is when join gave the caller back its turn, and `produced` what the call came to. */
  datatype Call<T, E> = Call(
    time: int,
    box: Box<T, E>,
    worker: Worker,
    caller: Caller<T, E>,
    joinedAt: int,
    produced: Option<Result<T, E>>)

  datatype Action<T, E> = Tick(ticks: int) | Fill(result: Result<T, E>) | End | Join | Test | Read

  function Begin<T, E>(): Call<T, E> { Call(0, Box(None, None), Running, Joining, 0, None) }

  /** join returns when the thread has ended or the time is up, and not later. */
  predicate Enabled<T, E>(c: Call<T, E>, a: Action<T, E>, seconds: int) {
    match a
    case Tick(d) => d >= 0 && (c.caller.Joining? ==> c.time + d <= seconds)
    case Fill(_) => c.worker.Running?
    case End => c.worker.Filled?
    case Join => c.caller.Joining? && (c.worker.Ended? || c.time >= seconds)
    case Test => c.caller.Testing?
    case Read => c.caller.Reading?
  }

  function Next<T, E>(c: Call<T, E>, a: Action<T, E>): Call<T, E> {
    match a
    case Tick(d) => c.(time := c.time + d)
    case Fill(r) =>
      c.(worker := Filled, produced := Some(r),
         box := if r.Ok? then c.box.(value := Some(r.value)) else c.box.(error := Some(r.error)))
    case End => c.(worker := Ended)
    case Join => c.(caller := Testing, joinedAt := c.time)
    case Test => c.(caller := if c.worker.Ended? then Reading else Abandoned)
    case Read =>
      c.(caller := if c.box.error.Some? then Raised(c.box.error.value)
                   else if c.box.value.Some? then Returned(c.box.value.value) else KeyError)
  }

  // ---- every interleaving

  /** The box holds what the call came to, in one half, from the moment it came to it. */
  ghost predicate BoxOk<T, E>(c: Call<T, E>) {
    match c.produced
    case None => c.worker.Running? && c.box == Box(None, None)
    case Some(Ok(v)) => !c.worker.Running? && c.box == Box(Some(v), None)
    case Some(Err(e)) => !c.worker.Running? && c.box == Box(None, Some(e))
  }

  ghost predicate CallerOk<T, E>(c: Call<T, E>, seconds: int) {
    && (c.caller.Joining? ==> c.time <= seconds)
    && (!c.caller.Joining? ==>
      c.joinedAt <= seconds && c.joinedAt <= c.time && (c.worker.Ended? || c.joinedAt == seconds))
    && match c.caller
       case Reading => c.worker.Ended?
       case Abandoned => c.joinedAt == seconds
       case Returned(v) => c.worker.Ended? && c.produced == Some(Ok(v))
       case Raised(e) => c.worker.Ended? && c.produced == Some(Err(e))
       case KeyError => false
       case _ => true
  }

  ghost predicate CallInv<T, E>(c: Call<T, E>, seconds: int) { BoxOk(c) && CallerOk(c, seconds) }

  lemma ActionKeepsInv<T, E>(c: Call<T, E>, a: Action<T, E>, seconds: int)
    requires CallInv(c, seconds) && Enabled(c, a, seconds)
    ensures CallInv(Next(c, a), seconds)
  {}

  function After<T, E>(actions: seq<Action<T, E>>): Call<T, E> {
    if actions == [] then Begin() else Next(After(actions[..|actions| - 1]), actions[|actions| - 1])
  }

  predicate Interleaving<T, E>(actions: seq<Action<T, E>>, seconds: int) {
    actions == [] ||
    (var n := |actions| - 1; Interleaving(actions[..n], seconds) && Enabled(After(actions[..n]), actions[n], seconds))
  }

  lemma {:induction false} InterleavingKeepsInv<T, E>(actions: seq<Action<T, E>>, seconds: int)
    requires seconds >= 0 && Interleaving(actions, seconds)
    ensures CallInv(After(actions), seconds)
  {
    if actions != [] {
      var n := |actions| - 1;
      InterleavingKeepsInv(actions[..n], seconds);
      ActionKeepsInv(After(actions[..n]), actions[n], seconds);
    }
  }

  /**
    A caller that gets past the test finds exactly one half of the box filled, with what the call
    came to; and it has waited no longer than it wanted to.
    */
  lemma CallerFindsOneResult<T, E>(actions: seq<Action<T, E>>, seconds: int)
    requires seconds >= 0 && Interleaving(actions, seconds) && !After(actions).caller.Joining?
    ensures var c := After(actions);
      && c.joinedAt <= seconds && !c.caller.KeyError?
      && (c.caller.Reading? ==> (c.box.value.Some? <==> c.box.error.None?))
      && (c.caller.Returned? ==> c.produced == Some(Ok(c.caller.value)))
      && (c.caller.Raised? ==> c.produced == Some(Err(c.caller.error)))
  {
    InterleavingKeepsInv(actions, seconds);
  }

  /** The caller gives up exactly if the thread is alive at the test, which is only so when the time was used up. */
  lemma GivesUpIff<T, E>(actions: seq<Action<T, E>>, seconds: int)
    requires seconds >= 0 && Interleaving(actions + [Test], seconds)
    ensures After(actions + [Test]).caller.Abandoned? <==> !After(actions).worker.Ended?
    ensures After(actions + [Test]).caller.Abandoned? ==> After(actions).joinedAt == seconds
  {
    assert (actions + [Test])[..|actions|] == actions;
    InterleavingKeepsInv(actions, seconds);
  }

  /** A caller that has given up never gets a late result. */
  lemma {:induction false} AbandonedStaysAbandoned<T, E>(actions: seq<Action<T, E>>, more: seq<Action<T, E>>,
                                                         seconds: int)
    requires Interleaving(actions + more, seconds) && After(actions).caller.Abandoned?
    ensures After(actions + more).caller.Abandoned?
  {
    if more == [] {
      assert actions + more == actions;
    } else {
      var n := |more| - 1;
      assert (actions + more)[..|actions| + n] == actions + more[..n];
      AbandonedStaysAbandoned(actions, more[..n], seconds);
    }
  }

  predicate Done<T, E>(caller: Caller<T, E>) { caller.Abandoned? || caller.Returned? || caller.Raised? }

  /** What the caller, or else the clock, does next. */
  function NextMove<T, E>(c: Call<T, E>, seconds: int): Action<T, E> {
    match c.caller
    case Joining => if c.worker.Ended? || c.time >= seconds then Join else Tick(seconds - c.time)
    case Testing => Test
    case _ => Read
  }

  function Moves<T, E>(c: Call<T, E>, seconds: int): nat {
    match c.caller
    case Joining => if c.worker.Ended? || c.time >= seconds then 3 else 4
    case Testing => 2
    case Reading => 1
    case _ => 0
  }

  /** How it ends for a caller: when, and whether it gives up. */
  ghost predicate Away<T, E>(c: Call<T, E>, end: Call<T, E>, seconds: int) {
    && Done(end.caller) && end.worker == c.worker
    && end.time == (if c.caller.Joining? && !c.worker.Ended? then seconds else c.time)
    && (c.caller.Joining? || c.caller.Testing? ==> (end.caller.Abandoned? <==> !c.worker.Ended?))
    && (c.caller.Reading? ==> !end.caller.Abandoned?) && (Done(c.caller) ==> end.caller == c.caller)
  }

  lemma NextMoveIsProgress<T, E>(c: Call<T, E>, end: Call<T, E>, seconds: int)
    requires CallInv(c, seconds) && !Done(c.caller)
    ensures var a := NextMove(c, seconds);
      && Enabled(c, a, seconds) && Moves(Next(c, a), seconds) < Moves(c, seconds)
      && !a.Fill? && !a.End? && (Away(Next(c, a), end, seconds) ==> Away(c, end, seconds))
  {}

  lemma DoneIsAway<T, E>(c: Call<T, E>, seconds: int)
    requires Done(c.caller)
    ensures Away(c, c, seconds)
  {}

  lemma OneMoreAction<T, E>(actions: seq<Action<T, E>>, a: Action<T, E>, seconds: int)
    ensures After(actions + [a]) == Next(After(actions), a)
    ensures Interleaving(actions + [a], seconds) <==>
      Interleaving(actions, seconds) && Enabled(After(actions), a, seconds)
  {
    assert (actions + [a])[..|actions|] == actions;
  }

  /**
    The caller gets away whatever the worker does: with nothing but its own moves, and the clock
    going on to the deadline if it must, it ends in one of its three ways.
    */
  lemma {:induction false} CallerGetsAway<T, E>(actions: seq<Action<T, E>>, seconds: int)
    returns (more: seq<Action<T, E>>)
    requires seconds >= 0 && Interleaving(actions, seconds)
    ensures Interleaving(actions + more, seconds) && Away(After(actions), After(actions + more), seconds)
    ensures forall a | a in more :: !a.Fill? && !a.End?
    decreases Moves(After(actions), seconds)
  {
    hide *;
    InterleavingKeepsInv(actions, seconds);
    var c := After(actions);
    more := [];
    if Done(c.caller) {
      assert actions + [] == actions;
      DoneIsAway(c, seconds);
    } else {
      var a := NextMove(c, seconds);
      NextMoveIsProgress(c, c, seconds);
      OneMoreAction(actions, a, seconds);
      var rest := CallerGetsAway(actions + [a], seconds);
      assert actions + [a] + rest == actions + ([a] + rest);
      more := [a] + rest;
      NextMoveIsProgress(c, After(actions + more), seconds);
    }
  }
}
