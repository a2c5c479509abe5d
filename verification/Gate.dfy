/** What the gate lets through after a visit that could not fetch the declared keys. */
module Gate {
  import opened Wrappers
  import opened Registry
  import opened Reaction
  import opened Steps
  import opened Runs
  import opened Visits
  import opened History
  import opened Keys
  import opened System
  import opened Freshness
  import CimdUrl
  import Rc = Reconcile
  import L = Lock
  import Cognito

  // ---- the gate stays shut

  /** Since step `k` no visit has validated keys, and none was answered by a 304 for the enabled row. */
  ghost predicate NothingSince(steps: seq<Step>, k: nat, url: string) {
    forall j: nat | k < j :: !KeysValidatedAt(steps, j, url) && !ReconfirmedAt(steps, j, url)
  }

  lemma ClosedRow(p: L.Params, g: Global, k: nat, url: string)
    requires GlobalInv(p, g) && CimdUrl.IsWeb(url) && KeylessAt(g.history, k, url)
    requires NothingSince(Serial(g), k, url)
    ensures Closed(Stored(g.state, url))
  {
    hide L.LockInv, JobOk, CimdUrl.IsWeb, KeylessAt, KeysValidatedAt, ReconfirmedAt, DoAll, ValidRun, Bijection, Closed;
    SerialTable(p, g);
    var run := Serial(g);
    assert run[..|g.history|] == g.history && |g.history| <= |run|;
    AtPrefix(run, |g.history|, k, url);
    assert run[..|run|] == run;
    ClosedAfterKeyless(run, k, |run|, url);
    SameTableSameRow(DoAll(EMPTY, run), g.state, url);
  }

  lemma SameTableSameRow(a: State, b: State, url: string)
    requires a.table == b.table
    ensures Stored(a, url) == Stored(b, url)
  {}

  /**
    A call whose first read comes after the end of a visit without keys: until keys are validated or
    a 304 comes, the gate lets it through exactly if the proxy's clock is behind the row's own times.
    */
  lemma ShutAfterKeyless(p: L.Params, g1: Global, during: seq<Move>, k: nat, url: string, listed: bool,
                         outcome: Outcome, now: int, reply: Reply)
    requires Call(p, g1, during, url, listed, outcome, reply) && CimdUrl.IsWeb(url) && KeylessAt(g1.history, k, url)
    requires NothingSince(Serial(g1), k, url) && NothingSince(Serial(AfterMoves(p, g1, during)), k, url)
    ensures var first := Stored(g1.state, url); var later := Stored(AfterMoves(p, g1, during).state, url);
      Decide(first, now, reply, later).Ok? <==> Usable(first) && now < first.value.fetchedAt
  {
    ClosedRow(p, g1, k, url);
    KeylessIsAStep(g1.history, k, url);
    hide GlobalInv, GlobalRun, AfterMoves, CimdUrl.IsWeb, KeylessAt, Produced, Carried, Vouches, Refuses, Stored,
      NothingSince;
    var g2 := AfterMoves(p, g1, during);
    if Vouches(reply) {
      var j := VouchingReplyIsBacked(p, g1, during, url, listed, outcome, reply);
      GlobalRunKeepsInv(p, g1, during);
      NotConfirmed(g2, k, j, url);
    }
  }

  lemma KeylessIsAStep(steps: seq<Step>, k: nat, url: string)
    requires KeylessAt(steps, k, url)
    ensures k < |steps|
  {}

  lemma NotConfirmed(g: Global, k: nat, j: nat, url: string)
    requires NothingSince(Serial(g), k, url) && k < j
    ensures !ConfirmingVisit(g.history, j, url)
  {
    hide KeysValidatedAt, ReconfirmedAt, ConfirmingVisit;
    if ConfirmingVisit(g.history, j, url) {
      if g.busy != map[] {
        var o :| o in g.busy && Serial(g) == g.history + [Done(g.busy[o])];
        ConfirmingVisitExtends(g.history, Done(g.busy[o]), j, url);
      }
      ConfirmingIsReconfirming(Serial(g), j, url);
    }
  }

  // ---- and opens

  /** The answer to a request that a confirming visit makes possible. */
  const YES := Finished(Rc.Reconciled(true, true))

  /** A call can begin before any visit that confirms its client, and read the row again after any further steps. */
  lemma AnsweringHappens(p: L.Params, g1: Global, a: Step, rest: seq<Step>) returns (during: seq<Move>)
    requires p.Covers() && GlobalInv(p, g1) && Quiet(g1) && a.Visited?
    requires ValidRun(EMPTY, g1.history + [a] + rest)
      && Rc.RevalidationOk(g1.state, a, false, Rc.Reconciled(true, true))
    ensures GlobalRun(p, g1, during)
    ensures var g2 := AfterMoves(p, g1, during);
      && Quiet(g2) && g2.history == g1.history + [a] + rest && g2.state == DoAll(EMPTY, g2.history)
    ensures Produced(p, g1, during, a.v.url, true, YES)
  {
    NextIsValid(g1.history, a, rest);
    QuietState(p, g1);
    hide GlobalRun, AfterMoves, GlobalInv, Valid, Do, DoAll, ValidRun, Rc.RevalidationOk, Quiet, Produced;
    var o := Cognito.FreshIdExists(g1.world.phase.Keys);
    IterationHappens(p, g1, o, a);
    var first := Iterating(g1, o, a);
    var m := AfterMoves(p, g1, first);
    var more := SerialRunsHappen(p, m, rest);
    RunAppend(p, g1, first, more);
    during := first + more;
    AnswerIsProduced(p, g1, o, a, more);
  }

  lemma NextIsValid(history: seq<Step>, a: Step, rest: seq<Step>)
    requires ValidRun(EMPTY, history + [a] + rest)
    ensures Valid(DoAll(EMPTY, history), a) && ValidRun(EMPTY, history + [a])
  {
    hide Valid, Do, DoAll, ValidRun;
    AppendRun(EMPTY, history + [a], rest);
    AppendStep(EMPTY, history, a);
  }

  lemma QuietState(p: L.Params, g: Global)
    requires GlobalInv(p, g) && Quiet(g)
    ensures g.state == DoAll(EMPTY, g.history)
  {
    hide L.LockInv, ValidRun, DoAll;
  }

  lemma AnswerIsProduced(p: L.Params, g1: Global, o: L.Owner, a: Step, more: seq<Move>)
    requires p.Covers() && GlobalInv(p, g1) && Quiet(g1) && o !in g1.world.phase && Valid(g1.state, a)
    requires a.Visited? && Rc.RevalidationOk(g1.state, a, false, Rc.Reconciled(true, true))
    ensures Produced(p, g1, Iterating(g1, o, a) + more, a.v.url, true, YES)
  {
    hide GlobalRun, AfterMoves, GlobalInv, Valid, Rc.RevalidationOk, Quiet, Entering, Writing;
    IterationBeforeEnd(p, g1, o, a);
    var head := Entering(g1, o, a) + Writing(o, a.done);
    var during, i := Iterating(g1, o, a) + more, |head|;
    assert during == head + (Leaving(o) + more);
    assert during[..i] == head && during[i] == Finish(o);
    DoneIsStep(Job(g1.state, a, a.done));
    assert AnsweredAt(p, g1, during, i, a.v.url, false, Rc.Reconciled(true, true));
  }

  /** A 304 for an enabled row earns the answer. */
  lemma ReconfirmedAnswers(s: State, step: Step, url: string)
    requires Settled(s) && Valid(s, step) && CimdUrl.IsWeb(url) && step.Visited? && step.v.url == url
    requires Complete(s, step) && Reconfirms(Stored(s, url), step.v)
    ensures Rc.RevalidationOk(s, step, false, Rc.Reconciled(true, true))
    ensures Usable(Stored(s, url)) && Usable(Stored(Do(s, step), url))
  {
    ValidatedIff(Stored(s, url), Alive(s, url), step.v);
    assert Usable(Stored(s, url)) by { hide Asks; }
    hide Settled, Valid, Do, CimdUrl.IsWeb, Reconfirms, ReadsKeys, React, Complete;
    ConfirmingVisitWrites(s, step, url);
    WrittenIsEnabled(Stored(s, url), step.v, Stored(Do(s, step), url).value);
  }

  lemma WrittenIsEnabled(stored: Option<Row>, v: Visit, row: Row)
    requires WritesTimes(stored, v, row) && Usable(stored)
    ensures row.enabled
  {
    hide DocumentOk, UrisOk, FingerprintOf, KeysContent, Answer, KeysAnswered, KeysTooOld;
  }

  // ---- exactly when

  /** A run of the system up to the first read, the moves up to the second, and what the proxy goes by. */
  datatype Request = Request(before: seq<Move>, during: seq<Move>, listed: bool, outcome: Outcome, now: int,
                             reply: Reply)

  /**
    A request that begins after step `k` of the history has ended, sees nothing but the history, and
    is let through.
    */
  ghost predicate LetThrough(p: L.Params, steps: seq<Step>, k: nat, url: string, r: Request)
    requires p.Ok()
  {
    var g1 := AfterMoves(p, START, r.before);
    var g2 := AfterMoves(p, g1, r.during);
    && GlobalRun(p, START, r.before) && Call(p, g1, r.during, url, r.listed, r.outcome, r.reply)
    && k < |g1.history| && Follows(Serial(g1), steps) && Follows(Serial(g2), steps)
    && Usable(Stored(g1.state, url)) && r.now >= Stored(g1.state, url).value.fetchedAt
    && Decide(Stored(g1.state, url), r.now, r.reply, Stored(g2.state, url)).Ok?
  }

  ghost predicate Follows(a: seq<Step>, steps: seq<Step>) { |a| <= |steps| && a == steps[..|a|] }

  lemma NothingInPrefix(a: seq<Step>, steps: seq<Step>, k: nat, url: string)
    requires Follows(a, steps) && NothingSince(steps, k, url)
    ensures NothingSince(a, k, url)
  {
    hide KeysValidatedAt, ReconfirmedAt;
    forall j: nat | k < j ensures !KeysValidatedAt(a, j, url) && !ReconfirmedAt(a, j, url) {
      AtPrefix(steps, |a|, j, url);
    }
  }

  lemma NeverLetThrough(p: L.Params, steps: seq<Step>, k: nat, url: string, r: Request)
    requires p.Covers() && CimdUrl.IsWeb(url) && KeylessAt(steps, k, url) && NothingSince(steps, k, url)
    ensures !LetThrough(p, steps, k, url, r)
  {
    if LetThrough(p, steps, k, url, r) {
      var g1 := AfterMoves(p, START, r.before);
      var g2 := AfterMoves(p, g1, r.during);
      hide GlobalInv, GlobalRun, AfterMoves, CimdUrl.IsWeb, KeylessAt, Produced, Carried, Stored, NothingSince,
        Decide, Follows;
      NothingInPrefix(Serial(g1), steps, k, url);
      NothingInPrefix(Serial(g2), steps, k, url);
      KeylessInHistory(g1, steps, k, url);
      ShutAfterKeyless(p, g1, r.during, k, url, r.listed, r.outcome, r.now, r.reply);
    }
  }

  lemma KeylessInHistory(g: Global, steps: seq<Step>, k: nat, url: string)
    requires Follows(Serial(g), steps) && KeylessAt(steps, k, url) && k < |g.history|
    ensures KeylessAt(g.history, k, url)
  {
    hide KeylessAt;
    assert Serial(g)[..|g.history|] == g.history;
    assert g.history == steps[..|g.history|];
    AtPrefix(steps, |g.history|, k, url);
  }

  /** A time at which a row must be asked about, not behind its own times. */
  function Later(row: Row): int { if row.cacheUntil < row.fetchedAt then row.fetchedAt else row.cacheUntil }

  /** A call from a quiet point whose only visit is `step`, answered by its end, and the row usable at both reads. */
  ghost predicate Answered(p: L.Params, g1: Global, during: seq<Move>, step: Step, url: string)
    requires p.Ok()
  {
    var g2 := AfterMoves(p, g1, during);
    && Quiet(g1) && GlobalInv(p, g1) && GlobalRun(p, g1, during) && Produced(p, g1, during, url, true, YES)
    && Quiet(g2) && g2.history == g1.history + [step]
    && Usable(Stored(g1.state, url)) && Usable(Stored(g2.state, url))
  }

  function Asking(g1: Global, url: string, before: seq<Move>, during: seq<Move>): Request
    requires Usable(Stored(g1.state, url))
  {
    Request(before, during, true, YES, Later(Stored(g1.state, url).value), Wire(YES))
  }

  lemma AskingIsLetThrough(p: L.Params, steps: seq<Step>, k: nat, j: nat, url: string, g1: Global,
                           before: seq<Move>, during: seq<Move>)
    requires p.Covers() && GlobalRun(p, START, before) && AfterMoves(p, START, before) == g1
    requires k < j < |steps| && g1.history == steps[..j] && Answered(p, g1, during, steps[j], url)
    ensures p.Ok() && LetThrough(p, steps, k, url, Asking(g1, url, before, during))
  {
    hide GlobalRun, AfterMoves, GlobalInv, Quiet, Produced, Stored, Serial, Usable, Decide, Wire, Later;
    var g2 := AfterMoves(p, g1, during);
    QuietSerial(g1);
    QuietSerial(g2);
    assert steps[..j] + [steps[j]] == steps[..j + 1];
    AskingSucceeds(Stored(g1.state, url), Stored(g2.state, url));
  }

  /** The system can come to any point of a history and be quiet there. */
  lemma HistoryHappens(p: L.Params, steps: seq<Step>) returns (moves: seq<Move>)
    requires p.Covers() && ValidRun(EMPTY, steps)
    ensures p.Ok() && GlobalRun(p, START, moves)
    ensures var g := AfterMoves(p, START, moves);
      GlobalInv(p, g) && Quiet(g) && g.history == steps && g.state == DoAll(EMPTY, steps)
  {
    assert p.Ok();
    StartInv(p);
    StartIsQuiet();
    hide *;
    assert START.history + steps == steps;
    moves := SerialRunsHappen(p, START, steps);
  }

  /** From a quiet point of the history whose next step is a 304 for the enabled row. */
  lemma ReconfirmingAnswer(p: L.Params, g1: Global, step: Step, url: string) returns (during: seq<Move>)
    requires p.Covers() && GlobalInv(p, g1) && Quiet(g1) && ValidRun(EMPTY, g1.history + [step])
    requires Settled(g1.state) && Valid(g1.state, step) && CimdUrl.IsWeb(url) && step.Visited? && step.v.url == url
    requires Complete(g1.state, step) && Reconfirms(Stored(g1.state, url), step.v)
    ensures p.Ok() && Answered(p, g1, during, step, url) && Usable(Stored(g1.state, url))
  {
    assert p.Ok();
    hide GlobalInv, GlobalRun, AfterMoves, Quiet, Produced, Usable, Stored, Do, DoAll, Valid, ValidRun, Settled,
      Complete,
      Reconfirms, CimdUrl.IsWeb;
    ReconfirmedAnswers(g1.state, step, url);
    assert g1.history + [step] + [] == g1.history + [step];
    during := AnsweringHappens(p, g1, step, []);
    QuietState(p, g1);
    AfterOneStep(g1, AfterMoves(p, g1, during), step, url);
  }

  lemma AfterOneStep(g1: Global, g2: Global, step: Step, url: string)
    requires g1.state == DoAll(EMPTY, g1.history) && Usable(Stored(Do(g1.state, step), url))
    requires g2.history == g1.history + [step] && g2.state == DoAll(EMPTY, g2.history)
    ensures Usable(Stored(g2.state, url))
  {
    hide *;
    AppendStep(EMPTY, g1.history, step);
  }

  lemma SomeoneIsLetThrough(p: L.Params, steps: seq<Step>, k: nat, j: nat, url: string) returns (r: Request)
    requires p.Covers() && ValidRun(EMPTY, steps) && CimdUrl.IsWeb(url) && k < j && ReconfirmedAt(steps, j, url)
    ensures p.Ok() && LetThrough(p, steps, k, url, r)
  {
    hide *;
    ReconfirmedStep(steps, j, url);
    PrefixStep(steps, j);
    ValidPrefix(EMPTY, steps, j);
    ValidPrefix(EMPTY, steps, j + 1);
    var before := HistoryHappens(p, steps[..j]);
    var g1 := AfterMoves(p, START, before);
    assert steps[..j] + [steps[j]] == steps[..j + 1];
    var during := ReconfirmingAnswer(p, g1, steps[j], url);
    AskingIsLetThrough(p, steps, k, j, url, g1, before, during);
    r := Asking(g1, url, before, during);
  }

  lemma StartIsQuiet()
    ensures Quiet(START) && START.history == []
  {}

  lemma ReconfirmedStep(steps: seq<Step>, j: nat, url: string)
    requires ReconfirmedAt(steps, j, url)
    ensures j < |steps| && steps[j].Visited? && steps[j].v.url == url
    ensures var s := DoAll(EMPTY, steps[..j]); Complete(s, steps[j]) && Reconfirms(Stored(s, url), steps[j].v)
  {}

  lemma AskingSucceeds(first: Option<Row>, later: Option<Row>)
    requires Usable(first) && Usable(later)
    ensures Later(first.value) >= first.value.fetchedAt
    ensures Decide(first, Later(first.value), Wire(YES), later).Ok?
    ensures Carried(Wire(YES), YES)
  {}

  lemma QuietSerial(g: Global)
    requires Quiet(g)
    ensures Serial(g) == g.history
  {}

  /**
    The comment on a failed key fetch promises that authorization fails closed until the keys have
    been validated. For requests that begin after that visit, on a clock that is not behind the row,
    and over all interleavings of a history, it does exactly if no later visit is answered by a 304
    for the enabled row.
    */
  lemma GateStaysShutIff(p: L.Params, steps: seq<Step>, k: nat, url: string)
    requires p.Covers() && ValidRun(EMPTY, steps) && CimdUrl.IsWeb(url) && KeylessAt(steps, k, url)
    requires forall j: nat | k < j :: !KeysValidatedAt(steps, j, url)
    ensures p.Ok() && ((forall r: Request :: !LetThrough(p, steps, k, url, r))
                       <==> forall j: nat | k < j :: !ReconfirmedAt(steps, j, url))
  {
    assert p.Ok();
    hide LetThrough, KeylessAt, KeysValidatedAt, ReconfirmedAt, ValidRun, CimdUrl.IsWeb;
    if j: nat :| k < j && ReconfirmedAt(steps, j, url) {
      var r := SomeoneIsLetThrough(p, steps, k, j, url);
    } else {
      forall r: Request ensures !LetThrough(p, steps, k, url, r) { NeverLetThrough(p, steps, k, url, r); }
    }
  }
}
