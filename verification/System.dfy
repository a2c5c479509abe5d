/**
  Invocations running side by side under the lock. Each plans from what it read when it entered an
  iteration and then writes its effects one by one to the shared stores; others may run at any
  moment, and any of them may stop for good between two effects.
  */
module System {
  import opened Wrappers
  import opened Registry
  import opened Steps
  import opened Runs
  import CimdUrl
  import L = Lock
  import Cognito

  /** An iteration under way: the stores as they were when it began, and how many effects it has had. */
  datatype Job = Job(base: State, step: Step, written: nat)

  /** `history` records the iterations that are over, each with the number of effects it got to have. */
  datatype Global = Global(world: L.World, state: State, busy: map<L.Owner, Job>, history: seq<Step>)

  datatype Move =
    | LockMove(move: L.LockStep)
    | Begin(owner: L.Owner, step: Step)
    | Write(owner: L.Owner)
    | Finish(owner: L.Owner)

  const START := Global(L.START, EMPTY, map[], [])

  function Done(job: Job): Step { job.step.(done := job.written) }

  predicate CanMove(p: L.Params, g: Global, m: Move)
    requires p.Ok()
  {
    match m
    case LockMove(l) => L.Enabled(p, g.world, l) && (l.Leave? ==> l.owner !in g.busy)
    case Begin(o, step) =>
      && o in g.world.phase && g.world.phase[o].Inside? && o !in g.busy && Valid(g.state, step.(done := 0))
    case Write(o) => o in g.busy && g.busy[o].written < |Effects(g.busy[o].base, g.busy[o].step)|
    case Finish(o) => o in g.busy
  }

  function Moved(p: L.Params, g: Global, m: Move): Global
    requires p.Ok() && CanMove(p, g, m)
  {
    match m
    case LockMove(l) => g.(world := L.After(p, g.world, l))
    case Begin(o, step) => g.(busy := g.busy[o := Job(g.state, step, 0)])
    case Write(o) =>
      var job := g.busy[o];
      g.(state := Apply(g.state, Effects(job.base, job.step)[job.written]),
         busy := g.busy[o := job.(written := job.written + 1)])
    case Finish(o) =>
      g.(state := Apply(g.state, Abandon), busy := g.busy - {o}, history := g.history + [Done(g.busy[o])])
  }

  // ---- the invariant

  /** The shared stores are those of the finished iterations, plus the effects the one under way has had. */
  predicate JobOk(state: State, history: seq<Step>, job: Job) {
    && job.base == DoAll(EMPTY, history)
    && Valid(job.base, Done(job))
    && state == ApplyAll(job.base, Cut(Effects(job.base, job.step), job.written))
  }

  predicate GlobalInv(p: L.Params, g: Global) {
    && L.LockInv(p, g.world)
    && ValidRun(EMPTY, g.history)
    && (forall o | o in g.busy :: o in g.world.phase && g.world.phase[o].Inside?)
    && (if g.busy == map[] then g.state == DoAll(EMPTY, g.history) 
        else forall o | o in g.busy :: JobOk(g.state, g.history, g.busy[o]))
  }

  lemma SameEffects(s: State, step: Step, k: nat)
    ensures Effects(s, step.(done := k)) == Effects(s, step)
    ensures Valid(s, step) && k <= |Effects(s, step)| ==> Valid(s, step.(done := k))
  {
    hide PlanOf, HardDelete, Unlisted, Expired;
  }

  /** Whoever is at work is alone. */
  lemma OneAtWork(p: L.Params, g: Global, a: L.Owner, b: L.Owner)
    requires GlobalInv(p, g) && a in g.busy && b in g.world.phase && g.world.phase[b].Inside?
    ensures a == b
  {
    hide ValidRun, JobOk;
  }

  lemma StillInside(p: L.Params, w: L.World, l: L.LockStep, o: L.Owner)
    requires p.Ok() && L.Enabled(p, w, l) && o in w.phase && w.phase[o].Inside? && (l.Leave? ==> l.owner != o)
    ensures var w' := L.After(p, w, l); o in w'.phase && w'.phase[o].Inside?
  {
    hide L.Seconds, L.Take, L.GiveBack;
  }

  lemma LockMoveKeepsInv(p: L.Params, g: Global, l: L.LockStep)
    requires p.Covers() && GlobalInv(p, g) && CanMove(p, g, LockMove(l))
    ensures GlobalInv(p, Moved(p, g, LockMove(l)))
  {
    L.LockStepKeepsInv(p, g.world, l);
    hide ValidRun, DoAll, JobOk, L.LockInv, L.After, L.Enabled;
    forall o | o in g.busy ensures var w := L.After(p, g.world, l); o in w.phase && w.phase[o].Inside? {
      StillInside(p, g.world, l, o);
    }
  }

  /** The one iteration under way, if any, describes the shared stores. */
  lemma TheJob(p: L.Params, g: Global, o: L.Owner)
    requires GlobalInv(p, g) && o in g.busy
    ensures g.busy == map[o := g.busy[o]] && JobOk(g.state, g.history, g.busy[o]) && ValidRun(EMPTY, g.history)
  {
    hide ValidRun, DoAll, JobOk, L.LockInv;
    forall a | a in g.busy ensures a == o { OneAtWork(p, g, a, o); }
  }

  lemma NobodyAtWork(p: L.Params, g: Global, o: L.Owner)
    requires GlobalInv(p, g) && o in g.world.phase && g.world.phase[o].Inside? && o !in g.busy
    ensures g.busy == map[] && g.state == DoAll(EMPTY, g.history)
  {
    hide ValidRun, DoAll, JobOk, L.LockInv;
    forall a | a in g.busy ensures a == o { OneAtWork(p, g, a, o); }
  }

  lemma BeginKeepsInv(p: L.Params, g: Global, o: L.Owner, step: Step)
    requires p.Covers() && GlobalInv(p, g) && CanMove(p, g, Begin(o, step))
    ensures GlobalInv(p, Moved(p, g, Begin(o, step)))
  {
    hide ValidRun, DoAll, Valid, L.LockInv, Apply, ApplyAll;
    NobodyAtWork(p, g, o);
    SameEffects(g.state, step, 0);
    var job := Job(g.state, step, 0);
    assert Cut(Effects(g.state, step), 0) == [];
    Run0(g.state);
    SameEffects(g.state, step, 0);
    hide Effects;
    assert JobOk(g.state, g.history, job);
    assert Moved(p, g, Begin(o, step)).busy == map[o := job];
  }

  /** One more effect of the iteration under way. */
  lemma OneMoreEffect(s: State, effects: seq<Effect>, k: nat)
    requires k < |effects|
    ensures ApplyAll(s, Cut(effects, k + 1)) == Apply(ApplyAll(s, Cut(effects, k)), effects[k])
  {
    hide Apply;
    var longer := Cut(effects, k + 1);
    assert longer == effects[..k + 1];
    assert longer[..k] == Cut(effects, k);
  }

  lemma WriteKeepsInv(p: L.Params, g: Global, o: L.Owner)
    requires p.Covers() && GlobalInv(p, g) && CanMove(p, g, Write(o))
    ensures GlobalInv(p, Moved(p, g, Write(o)))
  {
    hide ValidRun, DoAll, Valid, L.LockInv, Effects, Apply, ApplyAll, Cut;
    TheJob(p, g, o);
    var job := g.busy[o];
    OneMoreEffect(job.base, Effects(job.base, job.step), job.written);
    SameEffects(job.base, Done(job), job.written + 1);
    SameEffects(job.base, job.step, job.written);
    var later := job.(written := job.written + 1);
    assert Done(job).(done := job.written + 1) == Done(later);
    assert Moved(p, g, Write(o)).busy == map[o := later];
    assert JobOk(Moved(p, g, Write(o)).state, g.history, later);
  }

  lemma FinishKeepsInv(p: L.Params, g: Global, o: L.Owner)
    requires p.Covers() && GlobalInv(p, g) && CanMove(p, g, Finish(o))
    ensures GlobalInv(p, Moved(p, g, Finish(o)))
  {
    hide ValidRun, DoAll, Valid, L.LockInv, Effects, Apply, ApplyAll, Cut;
    TheJob(p, g, o);
    assert g.busy - {o} == map[];
    var job := g.busy[o];
    AppendStep(EMPTY, g.history, Done(job));
    SameEffects(job.base, job.step, job.written);
    assert Do(job.base, Done(job)) == Apply(g.state, Abandon);
  }

  lemma MoveKeepsInv(p: L.Params, g: Global, m: Move)
    requires p.Covers() && GlobalInv(p, g) && CanMove(p, g, m)
    ensures GlobalInv(p, Moved(p, g, m))
  {
    hide GlobalInv, CanMove, Moved;
    match m
    case LockMove(l) => LockMoveKeepsInv(p, g, l);
    case Begin(o, step) => BeginKeepsInv(p, g, o, step);
    case Write(o) => WriteKeepsInv(p, g, o);
    case Finish(o) => FinishKeepsInv(p, g, o);
  }

  // ---- runs

  predicate GlobalRun(p: L.Params, g: Global, moves: seq<Move>)
    requires p.Ok()
    decreases |moves|
  {
    moves == [] || (CanMove(p, g, moves[0]) && GlobalRun(p, Moved(p, g, moves[0]), moves[1..]))
  }

  /** The state after the moves of a run; a move that cannot be made would be skipped. */
  function AfterMoves(p: L.Params, g: Global, moves: seq<Move>): Global
    requires p.Ok()
    decreases |moves|
  {
    if moves == [] then g
    else AfterMoves(p, if CanMove(p, g, moves[0]) then Moved(p, g, moves[0]) else g, moves[1..])
  }

  lemma StartInv(p: L.Params)
    ensures GlobalInv(p, START)
  {}

  lemma {:induction false} GlobalRunKeepsInv(p: L.Params, g: Global, moves: seq<Move>)
    requires p.Covers() && GlobalInv(p, g) && GlobalRun(p, g, moves)
    ensures GlobalInv(p, AfterMoves(p, g, moves))
    decreases |moves|
  {
    hide GlobalInv, CanMove, Moved;
    if moves != [] {
      MoveKeepsInv(p, g, moves[0]);
      GlobalRunKeepsInv(p, Moved(p, g, moves[0]), moves[1..]);
    }
  }

  lemma {:induction false} MovesAppend(p: L.Params, g: Global, a: seq<Move>, b: seq<Move>)
    requires p.Ok() && GlobalRun(p, g, a + b)
    ensures GlobalRun(p, g, a) && GlobalRun(p, AfterMoves(p, g, a), b)
    ensures AfterMoves(p, g, a + b) == AfterMoves(p, AfterMoves(p, g, a), b)
    decreases |a|
  {
    if a == [] {
      assert a + b == b;
    } else {
      assert (a + b)[1..] == a[1..] + b;
      RunHead(p, g, a + b);
      MovesAppend(p, Moved(p, g, a[0]), a[1..], b);
    }
  }

  /** Splitting a run at its i-th move. */
  lemma RunSplit(p: L.Params, g: Global, moves: seq<Move>, i: nat)
    requires p.Ok() && GlobalRun(p, g, moves) && i <= |moves|
    ensures GlobalRun(p, g, moves[..i]) && GlobalRun(p, AfterMoves(p, g, moves[..i]), moves[i..])
    ensures AfterMoves(p, AfterMoves(p, g, moves[..i]), moves[i..]) == AfterMoves(p, g, moves)
    ensures i < |moves| ==>
      var m := AfterMoves(p, g, moves[..i]);
      CanMove(p, m, moves[i]) && AfterMoves(p, g, moves[..i + 1]) == Moved(p, m, moves[i])
  {
    assert moves == moves[..i] + moves[i..];
    MovesAppend(p, g, moves[..i], moves[i..]);
    if i < |moves| {
      assert moves == moves[..i + 1] + moves[i + 1..] && moves[..i + 1] == moves[..i] + [moves[i]];
      MovesAppend(p, g, moves[..i + 1], moves[i + 1..]);
      MovesAppend(p, g, moves[..i], [moves[i]]);
      OneMove(p, AfterMoves(p, g, moves[..i]), moves[i]);
    }
  }

  lemma OneMove(p: L.Params, g: Global, m: Move)
    requires p.Ok() && GlobalRun(p, g, [m])
    ensures CanMove(p, g, m) && AfterMoves(p, g, [m]) == Moved(p, g, m)
  {
    hide CanMove, Moved;
    assert [m][1..] == [];
  }

  /** Finished iterations stay on record. */
  lemma {:induction false} HistoryGrows(p: L.Params, g: Global, moves: seq<Move>)
    requires p.Ok() && GlobalRun(p, g, moves)
    ensures var later := AfterMoves(p, g, moves).history;
      |g.history| <= |later| && later[..|g.history|] == g.history
    decreases |moves|
  {
    if moves != [] {
      RunHead(p, g, moves);
      var m := Moved(p, g, moves[0]);
      assert |g.history| <= |m.history| && m.history[..|g.history|] == g.history by { hide L.Enabled, L.After; }
      hide CanMove, Moved;
      HistoryGrows(p, m, moves[1..]);
      var later := AfterMoves(p, g, moves).history;
      assert later[..|m.history|][..|g.history|] == later[..|g.history|];
    }
  }

  /** The one-at-a-time run whose table a reader sees now. */
  ghost function Serial(g: Global): (steps: seq<Step>)
    ensures g.busy == map[] ==> steps == g.history
    ensures g.busy != map[] ==> exists o | o in g.busy :: steps == g.history + [Done(g.busy[o])]
  {
    if g.busy == map[] then g.history
    else
      var o :| o in g.busy;
      g.history + [Done(g.busy[o])]
  }

  /**
    Serializability: with the lock, in every state the whole system can reach, the table is that of
    a run of whole and cut steps one after another. What holds of those runs holds of what readers see.
    */
  lemma ReadersSeeSerialRuns(p: L.Params, moves: seq<Move>)
    requires p.Covers() && GlobalRun(p, START, moves)
    ensures var g := AfterMoves(p, START, moves);
      && L.Exclusive(g.world)
      && ValidRun(EMPTY, Serial(g)) && DoAll(EMPTY, Serial(g)).table == g.state.table
      && Bijection(g.state.table)
  {
    GlobalRunKeepsInv(p, START, moves);
    hide AfterMoves, GlobalRun, ValidRun, DoAll, JobOk, Bijection;
    SerialTable(p, AfterMoves(p, START, moves));
  }

  lemma SerialTable(p: L.Params, g: Global)
    requires GlobalInv(p, g)
    ensures ValidRun(EMPTY, Serial(g)) && DoAll(EMPTY, Serial(g)).table == g.state.table && Bijection(g.state.table)
  {
    hide L.LockInv;
    if g.busy != map[] {
      var o :| o in g.busy && Serial(g) == g.history + [Done(g.busy[o])];
      var job := g.busy[o];
      assert JobOk(g.state, g.history, job);
      AppendStep(EMPTY, g.history, Done(job));
      SameEffects(job.base, job.step, job.written);
      hide ValidRun, DoAll, Valid, Effects, ApplyAll, Cut, Bijection;
      ReadersSeeCutSteps(job.base, Done(job), job.written);
    }
    RowsInBijection(Serial(g));
  }

  // ---- retirement is final for every reader

  lemma EveryReaderSeesInv(p: L.Params, g: Global)
    requires GlobalInv(p, g)
    ensures Inv(g.state)
  {
    ReachableIsSettled(g.history);
    hide ValidRun, DoAll, Inv, L.LockInv, Valid, Effects, ApplyAll, Cut;
    if o :| o in g.busy {
      TheJob(p, g, o);
      var job := g.busy[o];
      SameEffects(job.base, job.step, job.written);
      MidStepKeepsInv(job.base, Done(job), job.written);
    }
  }

  lemma NextEffectIsLegal(s: State, step: Step, k: nat)
    requires Settled(s) && Valid(s, step) && k < |Effects(s, step)|
    ensures Legal(ApplyAll(s, Cut(Effects(s, step), k)), Effects(s, step)[k])
  {
    hide Settled, Inv, Legal, Valid, Effects, ApplyAll;
    CutIsLegal(s, step, k + 1);
    var longer := Cut(Effects(s, step), k + 1);
    assert longer == Effects(s, step)[..k + 1];
    assert longer[..k] == Cut(Effects(s, step), k);
    assert longer[k] == Effects(s, step)[k];
  }

  lemma TheHistory(p: L.Params, g: Global)
    requires GlobalInv(p, g)
    ensures ValidRun(EMPTY, g.history) && Settled(DoAll(EMPTY, g.history))
  {
    hide L.LockInv, JobOk, Settled, DoAll, ValidRun;
    ReachableIsSettled(g.history);
  }

  lemma WritesAreLegal(p: L.Params, g: Global, o: L.Owner)
    requires GlobalInv(p, g) && o in g.busy && g.busy[o].written < |Effects(g.busy[o].base, g.busy[o].step)|
    ensures Legal(g.state, Effects(g.busy[o].base, g.busy[o].step)[g.busy[o].written])
  {
    TheHistory(p, g);
    hide ValidRun, DoAll, Settled, GlobalInv, Legal, Valid, Effects, ApplyAll, Cut;
    TheJob(p, g, o);
    var job := g.busy[o];
    SameEffects(job.base, job.step, job.written);
    NextEffectIsLegal(job.base, Done(job), job.written);
  }

  lemma DeadStaysDeadInMove(p: L.Params, g: Global, m: Move, id: Id)
    requires p.Ok() && GlobalInv(p, g) && CanMove(p, g, m) && Dead(g.state, id)
    ensures Dead(Moved(p, g, m).state, id)
  {
    EveryReaderSeesInv(p, g);
    hide Inv, Dead, GlobalInv, Effects, Apply, L.Enabled, L.After;
    match m
    case Write(o) =>
      WritesAreLegal(p, g, o);
      DeadStaysDeadAfterEffect(g.state, Effects(g.busy[o].base, g.busy[o].step)[g.busy[o].written], id);
    case Finish(o) => DeadStaysDeadAfterEffect(g.state, Abandon, id);
    case _ =>
  }

  /** However the invocations interleave, no reader ever sees a retired app client enabled again. */
  lemma {:induction false} NoReaderSeesItAgain(p: L.Params, g: Global, moves: seq<Move>, id: Id)
    requires p.Covers() && GlobalInv(p, g) && GlobalRun(p, g, moves) && Dead(g.state, id)
    ensures var t := AfterMoves(p, g, moves).state.table;
      && Dead(AfterMoves(p, g, moves).state, id)
      && (id in t.index ==> !t.index[id].enabled)
    decreases |moves|
  {
    if moves == [] {
      EveryReaderSeesInv(p, g);
      hide GlobalInv, GlobalRun, CimdUrl.IsWeb, AppsAccounted;
    } else {
      hide *;
      RunHead(p, g, moves);
      MoveKeepsInv(p, g, moves[0]);
      DeadStaysDeadInMove(p, g, moves[0], id);
      NoReaderSeesItAgain(p, Moved(p, g, moves[0]), moves[1..], id);
    }
  }

  lemma RunHead(p: L.Params, g: Global, moves: seq<Move>)
    requires p.Ok() && GlobalRun(p, g, moves) && moves != []
    ensures CanMove(p, g, moves[0]) && GlobalRun(p, Moved(p, g, moves[0]), moves[1..])
    ensures AfterMoves(p, g, moves) == AfterMoves(p, Moved(p, g, moves[0]), moves[1..])
  {
    hide CanMove, Moved;
  }

  // ---- and every serial run is one the system can make

  lemma FinishedState(g: Global, job: Job)
    requires JobOk(g.state, g.history, job)
    ensures Apply(g.state, Abandon) == Do(job.base, Done(job)) && job.base == DoAll(EMPTY, g.history)
  {
    SameEffects(job.base, job.step, job.written);
    hide Effects, ApplyAll, Cut, DoAll, Apply, Valid;
  }

  /** Nobody is at work, and nobody has come and not gone. */
  predicate Quiet(g: Global) {
    g.busy == map[] && g.world.item.None? && forall o | o in g.world.phase :: g.world.phase[o].Gone?
  }

  lemma RunCons(p: L.Params, g: Global, m: Move, rest: seq<Move>)
    requires p.Ok() && CanMove(p, g, m) && GlobalRun(p, Moved(p, g, m), rest)
    ensures GlobalRun(p, g, [m] + rest) && AfterMoves(p, g, [m] + rest) == AfterMoves(p, Moved(p, g, m), rest)
  {
    hide CanMove, Moved;
    assert ([m] + rest)[1..] == rest;
  }

  lemma {:induction false} RunAppend(p: L.Params, g: Global, a: seq<Move>, b: seq<Move>)
    requires p.Ok() && GlobalRun(p, g, a) && GlobalRun(p, AfterMoves(p, g, a), b)
    ensures GlobalRun(p, g, a + b) && AfterMoves(p, g, a + b) == AfterMoves(p, AfterMoves(p, g, a), b)
    decreases |a|
  {
    hide CanMove, Moved;
    if a == [] {
      assert a + b == b;
    } else {
      RunHead(p, g, a);
      RunAppend(p, Moved(p, g, a[0]), a[1..], b);
      RunCons(p, g, a[0], a[1..] + b);
      assert [a[0]] + (a[1..] + b) == a + b;
    }
  }

  lemma NoMoves(p: L.Params, g: Global)
    requires p.Ok()
    ensures GlobalRun(p, g, []) && AfterMoves(p, g, []) == g
  {}

  lemma ThreeMoves(p: L.Params, g: Global, a: Move, b: Move, c: Move)
    requires p.Ok() && CanMove(p, g, a)
    requires var g1 := Moved(p, g, a); CanMove(p, g1, b) && CanMove(p, Moved(p, g1, b), c)
    ensures GlobalRun(p, g, [a, b, c])
    ensures AfterMoves(p, g, [a, b, c]) == Moved(p, Moved(p, Moved(p, g, a), b), c)
  {
    hide CanMove, Moved, GlobalRun, AfterMoves;
    var g1 := Moved(p, g, a);
    var g2 := Moved(p, g1, b);
    NoMoves(p, Moved(p, g2, c));
    RunCons(p, g2, c, []);
    assert [c] + [] == [c];
    RunCons(p, g1, b, [c]);
    assert [b] + [c] == [b, c];
    RunCons(p, g, a, [b, c]);
    assert [a] + [b, c] == [a, b, c];
  }

  function InsideWorld(p: L.Params, w: L.World, o: L.Owner): L.World
    requires p.Ok()
  {
    L.World(w.time, Some(L.Item(o, L.Seconds(p, w.time, 0) + p.ttlSeconds)), w.phase[o := L.Inside(w.time)])
  }

  function Entered(p: L.Params, g: Global, o: L.Owner, step: Step): Global
    requires p.Ok()
  {
    Global(InsideWorld(p, g.world, o), g.state, map[o := Job(g.state, step, 0)], g.history)
  }

  function Entering(g: Global, o: L.Owner, step: Step): seq<Move> {
    [LockMove(L.Start(o)), LockMove(L.Acquire(o, g.world.time, 0)), Begin(o, step)]
  }

  /** An invocation starts, takes the free lock and begins an iteration. */
  lemma EnteringHappens(p: L.Params, g: Global, o: L.Owner, step: Step)
    requires p.Covers() && Quiet(g) && o !in g.world.phase && Valid(g.state, step.(done := 0))
    ensures GlobalRun(p, g, Entering(g, o, step)) && AfterMoves(p, g, Entering(g, o, step)) == Entered(p, g, o, step)
  {
    hide Valid, GlobalRun, AfterMoves;
    var a, b, c := LockMove(L.Start(o)), LockMove(L.Acquire(o, g.world.time, 0)), Begin(o, step);
    var g1 := Moved(p, g, a);
    var g2 := Moved(p, g1, b);
    assert g2.world == InsideWorld(p, g.world, o) && g2.busy == map[];
    assert Moved(p, g2, c) == Entered(p, g, o, step);
    ThreeMoves(p, g, a, b, c);
  }

  function Writing(o: L.Owner, k: nat): seq<Move> { seq(k, _ => Write(o)) }

  /** The iteration under way has its next effects, one by one. */
  lemma {:induction false} WritingHappens(p: L.Params, g: Global, o: L.Owner, k: nat)
    requires p.Ok() && o in g.busy && g.busy == map[o := g.busy[o]]
    requires g.busy[o].written + k <= |Effects(g.busy[o].base, g.busy[o].step)|
    ensures GlobalRun(p, g, Writing(o, k))
    ensures var later := AfterMoves(p, g, Writing(o, k)); var job := g.busy[o];
      later.busy == map[o := job.(written := job.written + k)] && later.world == g.world && later.history == g.history
    decreases k
  {
    hide Effects, Apply;
    if k == 0 {
      NoMoves(p, g);
    } else {
      var g1 := Moved(p, g, Write(o));
      assert g1.busy == map[o := g.busy[o].(written := g.busy[o].written + 1)];
      WritingHappens(p, g1, o, k - 1);
      hide GlobalRun, AfterMoves, Moved;
      RunCons(p, g, Write(o), Writing(o, k - 1));
      assert [Write(o)] + Writing(o, k - 1) == Writing(o, k);
    }
  }

  function Leaving(o: L.Owner): seq<Move> { [Finish(o), LockMove(L.Leave(o)), LockMove(L.ReleaseArrives(o))] }

  /** It ends, leaves the locked section and gives the lock back. */
  lemma LeavingHappens(p: L.Params, g: Global, o: L.Owner, w: L.World)
    requires p.Ok() && o in g.busy && g.busy == map[o := g.busy[o]] && g.world == InsideWorld(p, w, o)
    requires forall a | a in w.phase :: w.phase[a].Gone?
    ensures GlobalRun(p, g, Leaving(o))
    ensures var later := AfterMoves(p, g, Leaving(o));
      Quiet(later) && later.history == g.history + [Done(g.busy[o])] && later.state == Apply(g.state, Abandon)
  {
    hide Apply, GlobalRun, AfterMoves;
    var a, b, c := Finish(o), LockMove(L.Leave(o)), LockMove(L.ReleaseArrives(o));
    var g1 := Moved(p, g, a);
    assert g1.busy == map[];
    var g2 := Moved(p, g1, b);
    var g3 := Moved(p, g2, c);
    assert Quiet(g3);
    ThreeMoves(p, g, a, b, c);
  }

  /** All moves of one iteration of a new invocation; its end is the third last. */
  function Iterating(g: Global, o: L.Owner, step: Step): seq<Move> {
    (Entering(g, o, step) + Writing(o, step.done)) + Leaving(o)
  }

  /** Before its end, the iteration has had the effects it will have. */
  lemma IterationBeforeEnd(p: L.Params, g: Global, o: L.Owner, step: Step)
    requires p.Covers() && GlobalInv(p, g) && Quiet(g) && o !in g.world.phase && Valid(g.state, step)
    ensures var moves := Entering(g, o, step) + Writing(o, step.done); var m := AfterMoves(p, g, moves);
      && GlobalRun(p, g, moves) && GlobalInv(p, m)
      && m.busy == map[o := Job(g.state, step, step.done)] && m.world == InsideWorld(p, g.world, o)
      && m.history == g.history
  {
    SameEffects(g.state, step, 0);
    var e := Entered(p, g, o, step);
    assert Valid(g.state, step.(done := 0)) && step.done <= |Effects(g.state, step)| by { hide Effects; }
    hide GlobalRun, AfterMoves, Effects, Valid, GlobalInv;
    EnteringHappens(p, g, o, step);
    WritingHappens(p, e, o, step.done);
    RunAppend(p, g, Entering(g, o, step), Writing(o, step.done));
    GlobalRunKeepsInv(p, g, Entering(g, o, step) + Writing(o, step.done));
  }

  /** Any step can be the next thing a new invocation does. */
  lemma IterationHappens(p: L.Params, g: Global, o: L.Owner, step: Step)
    requires p.Covers() && GlobalInv(p, g) && Quiet(g) && o !in g.world.phase && Valid(g.state, step)
    ensures var moves := Iterating(g, o, step); var later := AfterMoves(p, g, moves);
      && GlobalRun(p, g, moves) && GlobalInv(p, later) && Quiet(later)
      && later.history == g.history + [step] && later.state == Do(g.state, step)
  {
    IterationBeforeEnd(p, g, o, step);
    hide GlobalRun, AfterMoves, Effects, Valid, GlobalInv, Apply, Do, Entering, Writing, Leaving, InsideWorld;
    var moves := Entering(g, o, step) + Writing(o, step.done);
    var m := AfterMoves(p, g, moves);
    assert o in m.busy && m.busy[o] == Job(g.state, step, step.done);
    LeavingHappens(p, m, o, g.world);
    TheJob(p, m, o);
    FinishedState(m, m.busy[o]);
    DoneIsStep(Job(g.state, step, step.done));
    RunAppend(p, g, moves, Leaving(o));
    GlobalRunKeepsInv(p, g, moves + Leaving(o));
  }

  lemma DoneIsStep(job: Job)
    ensures job.written == job.step.done ==> Done(job) == job.step
  {}

  /**
    The converse of serializability: every run of whole and cut steps is one that invocations under
    the lock can make.
    */
  lemma {:induction false} SerialRunsHappen(p: L.Params, g: Global, steps: seq<Step>) returns (moves: seq<Move>)
    requires p.Covers() && GlobalInv(p, g) && Quiet(g) && ValidRun(EMPTY, g.history + steps)
    ensures GlobalRun(p, g, moves)
    ensures var later := AfterMoves(p, g, moves);
      GlobalInv(p, later) && Quiet(later) && later.history == g.history + steps
        && later.state == DoAll(EMPTY, later.history)
  {
    if steps == [] {
      moves := [];
      NoMoves(p, g);
      assert g.history + steps == g.history;
      hide GlobalRun, AfterMoves, L.LockInv, ValidRun, DoAll;
    } else {
      hide *;
      var n := |steps| - 1;
      SplitLast(g.history, steps);
      var before := SerialRunsHappen(p, g, steps[..n]);
      var m := AfterMoves(p, g, before);
      var o := Cognito.FreshIdExists(m.world.phase.Keys);
      IterationHappens(p, m, o, steps[n]);
      RunAppend(p, g, before, Iterating(m, o, steps[n]));
      moves := before + Iterating(m, o, steps[n]);
    }
  }

  lemma SplitLast(history: seq<Step>, steps: seq<Step>)
    requires steps != [] && ValidRun(EMPTY, history + steps)
    ensures var n := |steps| - 1;
      && ValidRun(EMPTY, history + steps[..n]) && history + steps == (history + steps[..n]) + [steps[n]]
      && Valid(DoAll(EMPTY, history + steps[..n]), steps[n])
      && DoAll(EMPTY, history + steps) == Do(DoAll(EMPTY, history + steps[..n]), steps[n])
  {
    hide Valid, Do, DoAll, ValidRun;
    var n := |steps| - 1;
    assert history + steps == (history + steps[..n]) + [steps[n]];
    AppendStep(EMPTY, history + steps[..n], steps[n]);
  }
}
