/** The proxy's gate: which mapping may authorize now, and what the registrar's answer may change about it. */
module Freshness {
  import opened Wrappers
  import opened Registry
  import opened Reaction
  import opened Steps
  import opened Runs
  import opened Visits
  import opened History
  import opened Staleness
  import opened Keys
  import opened System
  import CimdUrl
  import Rc = Reconcile
  import L = Lock

  // ---- the registrar's reply

  /** What dict.get yields on a decoded reply. */
  datatype Json = Missing | Bool(value: bool) | Str(text: string) | Other(truthy: bool)

  datatype Reply = CallRaised | NotAnObject | Object(status: Json, confirmed: Json, enabled: Json)

  predicate Truthy(j: Json) {
    match j
    case Missing => false
    case Bool(b) => b
    case Str(s) => s != ""
    case Other(t) => t
  }

  const FAILED := Object(Str("error"), Bool(false), Missing)

  function Understood(reply: Reply): Reply { if reply.Object? then reply else FAILED }

  predicate Refuses(reply: Reply) {
    var r := Understood(reply); r.status == Str("not_allowed") || (r.status == Str("ok") && r.enabled == Bool(false))
  }

  predicate Vouches(reply: Reply) {
    var r := Understood(reply); r.status == Str("ok") && Truthy(r.confirmed) && Truthy(r.enabled)
  }

  datatype Refusal = InvalidClient | TemporarilyUnavailable

  /** A strongly consistent read of the row; unknown and disabled clients are refused. */
  method EnabledMapping(row: Option<Row>) returns (r: Result<Row, Refusal>)
    ensures r == if Usable(row) then Ok(row.value) else Err(InvalidClient)
  {
    if row.None? || !row.value.enabled { return Err(InvalidClient); }
    return Ok(row.value);
  }

  /** The decision as a whole: `first` and `later` are what the two reads would return. */
  function Decide(first: Option<Row>, now: int, reply: Reply, later: Option<Row>): Result<Row, Refusal> {
    if !Usable(first) then Err(InvalidClient)
    else if now < first.value.cacheUntil then Ok(first.value)
    else if Refuses(reply) then Err(InvalidClient)
    else if !Vouches(reply) then Err(TemporarilyUnavailable)
    else if Usable(later) then Ok(later.value)
    else Err(InvalidClient)
  }

  /** fresh_mapping. The row the caller has `loaded` is one it has just read with EnabledMapping. */
  method FreshMapping(loaded: Option<Row>, first: Option<Row>, now: int, reply: Reply, later: Option<Row>)
    returns (r: Result<Row, Refusal>)
    requires loaded.Some? ==> loaded.value.enabled
    ensures r == Decide(if loaded.Some? then loaded else first, now, reply, later)
  {
    var m: Row;
    if loaded.Some? { m := loaded.value; } else {
      var read := EnabledMapping(first);
      if read.Err? { return read; }
      m := read.value;
    }
    if now < m.cacheUntil { return Ok(m); }
    var result := if reply.Object? then reply else FAILED;
    if result.status == Str("not_allowed") || (result.status == Str("ok") && result.enabled == Bool(false)) {
      return Err(InvalidClient);
    }
    if result.status != Str("ok") || !Truthy(result.confirmed) || !Truthy(result.enabled) {
      return Err(TemporarilyUnavailable);
    }
    r := EnabledMapping(later);
  }

  // ---- what the handler answers

  datatype Outcome = Locked | Crashed | Finished(result: Rc.Revalidation)

  /** The reply that reaches the proxy, unless the call itself fails. */
  function Wire(outcome: Outcome): Reply {
    match outcome
    case Locked => Object(Str("locked"), Bool(false), Missing)
    case Crashed => CallRaised
    case Finished(NotAllowed) => Object(Str("not_allowed"), Bool(false), Bool(false))
    case Finished(Reconciled(confirmed, enabled)) => Object(Str("ok"), Bool(confirmed), Bool(enabled))
  }

  /** Values that count as true: true itself, a text that is not empty, and what else the decoder calls true. */
  predicate CountsAsTrue(j: Json) { j == Bool(true) || (j.Str? && j.text != "") || j == Other(true) }

  /**
    A reply vouches only if it is an object that says so in both members, and refuses only if it says
    so; of the registrar's own outcomes one vouches, and two kinds refuse.
    */
  lemma ReplyMeanings(reply: Reply, outcome: Outcome)
    ensures Vouches(reply) <==>
      reply.Object? && reply.status == Str("ok") && CountsAsTrue(reply.confirmed) && CountsAsTrue(reply.enabled)
    ensures Refuses(reply) <==>
      && reply.Object?
      && (reply.status == Str("not_allowed") || (reply.status == Str("ok") && reply.enabled == Bool(false)))
    ensures Vouches(Wire(outcome)) <==> outcome == Finished(Rc.Reconciled(true, true))
    ensures Refuses(Wire(outcome)) <==>
      outcome.Finished? && (outcome.result.NotAllowed? || !outcome.result.enabled)
    ensures Wire(outcome).Object? && Wire(outcome).confirmed == Bool(true) ==>
      outcome.Finished? && outcome.result.Reconciled? && outcome.result.confirmed
    ensures Wire(outcome).Object? && Wire(outcome).enabled == Bool(true) ==>
      outcome.Finished? && outcome.result.Reconciled? && outcome.result.enabled
  {}

  // ---- authorization under any interleaving

  /** A row is at least as recent as any visit that confirmed its URL. */
  lemma {:induction false} TimedSince(steps: seq<Step>, j: nat, url: string) returns (k: nat)
    requires ValidRun(EMPTY, steps) && BoundsOrdered(steps) && CimdUrl.IsWeb(url)
    requires ConfirmingVisit(steps, j, url) && Stored(DoAll(EMPTY, steps), url).Some?
    ensures j <= k && TimedBy(steps, k, url, Stored(DoAll(EMPTY, steps), url).value)
    decreases |steps|
  {
    hide Valid, Do, CimdUrl.IsWeb, RowAfter, TimedBy, Committed, Complete, PlanOf, Extends, Renews, Stales;
    var n := |steps| - 1;
    var s, step := DoAll(EMPTY, steps[..n]), steps[n];
    assert steps == steps[..n] + [step];
    RunsKeepSettled(EMPTY, steps[..n]);
    var row := Stored(Do(s, step), url).value;
    if j == n {
      ConfirmingVisitWrites(s, step, url);
      TimedNow(steps[..n], step, row);
      k := n;
    } else {
      var rewritten := RowSource(s, step, url);
      if rewritten {
        TimedNow(steps[..n], step, row);
        k := n;
      } else {
        assert steps[..n][..j] == steps[..j];
        k := TimedSince(steps[..n], j, url);
        TimedLater(steps[..n], step, k, url, Stored(s, url).value, row);
      }
    }
  }

  /** What RevalidateOne ensures of a reply that vouches: its own step is a confirming visit. */
  lemma VouchingReplyHasItsVisit(steps: seq<Step>, step: Step, raised: bool, result: Rc.Revalidation)
    requires step.Visited? && result.Reconciled? && Vouches(Wire(Finished(result)))
    requires Rc.RevalidationOk(DoAll(EMPTY, steps), step, raised, result)
    ensures ConfirmingVisit(steps + [step], |steps|, step.v.url)
  {
    hide PlanOf, Do, DoAll, Complete, Stored;
    VouchingReplyIsEarned(DoAll(EMPTY, steps), step, raised, result);
    hide Rc.RevalidationOk, Vouches, Wire;
    assert (steps + [step])[..|steps|] == steps;
  }

  lemma VouchingReplyIsEarned(s: State, step: Step, raised: bool, result: Rc.Revalidation)
    requires step.Visited? && result.Reconciled? && Vouches(Wire(Finished(result)))
    requires Rc.RevalidationOk(s, step, raised, result)
    ensures Complete(s, step) && PlanOf(s, step.v).verdict == Validated
  {
    hide PlanOf, Do, Complete, Stored;
  }

  // ---- what the moves of a call did for it

  /** Move `i` of the call ends a visit of the URL, and `result` is what the registrar may report about that visit. */
  predicate AnsweredAt(p: L.Params, g1: Global, during: seq<Move>, i: nat, url: string, raised: bool,
                       result: Rc.Revalidation)
    requires p.Ok()
  {
    && i < |during| && during[i].Finish?
    && var busy := AfterMoves(p, g1, during[..i]).busy;
       during[i].owner in busy && result.Reconciled?
       && var job := busy[during[i].owner];
          job.step.Visited? && job.step.v.url == url && Rc.RevalidationOk(job.base, Done(job), raised, result)
  }

  /** The outcome is what an invocation of the call came to: a report of one of its visits needs that visit. */
  ghost predicate Produced(p: L.Params, g1: Global, during: seq<Move>, url: string, listed: bool, outcome: Outcome)
    requires p.Ok()
  {
    match outcome
    case Finished(NotAllowed) => !listed
    case Finished(Reconciled(_, _)) =>
      exists i: nat, raised: bool :: AnsweredAt(p, g1, during, i, url, raised, outcome.result)
    case _ => true
  }

  /** The reply is that of the invocation, or the call failed and whatever it did is not known. */
  predicate Carried(reply: Reply, outcome: Outcome) { reply == Wire(outcome) || reply == CallRaised }

  /** The end of a visit puts it on record, and leaves the stores as it made them. */
  lemma AnswerIsOnRecord(p: L.Params, g1: Global, during: seq<Move>, i: nat)
    requires p.Covers() && GlobalInv(p, g1) && GlobalRun(p, g1, during) && i < |during| && during[i].Finish?
    ensures var m := AfterMoves(p, g1, during[..i]); var after := AfterMoves(p, g1, during[..i + 1]);
      && during[i].owner in m.busy
      && var job := m.busy[during[i].owner];
         && job.base == DoAll(EMPTY, m.history)
         && after.history == m.history + [Done(job)] && after.state == Do(job.base, Done(job))
    ensures var m := AfterMoves(p, g1, during[..i]).history; var g2 := AfterMoves(p, g1, during).history;
      && |g1.history| <= |m| < |g2|
      && g2[..|m| + 1] == AfterMoves(p, g1, during[..i + 1]).history
  {
    var m := AfterMoves(p, g1, during[..i]);
    RunSplit(p, g1, during, i);
    RunSplit(p, g1, during, i + 1);
    assert p.Ok();
    GlobalRunKeepsInv(p, g1, during[..i]);
    HistoryGrows(p, g1, during[..i]);
    HistoryGrows(p, AfterMoves(p, g1, during[..i + 1]), during[i + 1..]);
    hide GlobalInv, GlobalRun, AfterMoves, Effects, ApplyAll, Cut, DoAll, L.Enabled, L.After;
    TheJob(p, m, during[i].owner);
    hide Valid, Apply;
    FinishedState(m, m.busy[during[i].owner]);
  }

  lemma ConfirmingVisitPrefix(steps: seq<Step>, n: nat, j: nat, url: string)
    requires n <= |steps| && ConfirmingVisit(steps[..n], j, url)
    ensures ConfirmingVisit(steps, j, url)
  {
    hide DoAll, Complete, PlanOf;
    assert steps[..n][..j] == steps[..j];
  }

  /** A reply that vouches for a client stands for a confirming visit that ended during the call. */
  lemma VouchingReplyIsBacked(p: L.Params, g1: Global, during: seq<Move>, url: string, listed: bool,
                              outcome: Outcome, reply: Reply)
    returns (j: nat)
    requires p.Covers() && GlobalInv(p, g1) && GlobalRun(p, g1, during)
    requires Produced(p, g1, during, url, listed, outcome) && Carried(reply, outcome) && Vouches(reply)
    ensures |g1.history| <= j < |AfterMoves(p, g1, during).history|
    ensures ConfirmingVisit(AfterMoves(p, g1, during).history, j, url)
  {
    hide GlobalInv, GlobalRun, AfterMoves, ConfirmingVisit, Rc.RevalidationOk;
    var i: nat, raised :| AnsweredAt(p, g1, during, i, url, raised, outcome.result);
    AnswerIsOnRecord(p, g1, during, i);
    hide Vouches;
    var m := AfterMoves(p, g1, during[..i]);
    VouchingReplyHasItsVisit(m.history, Done(m.busy[during[i].owner]), raised, outcome.result);
    j := |m.history|;
    ConfirmingVisitPrefix(AfterMoves(p, g1, during).history, j + 1, j, url);
  }

  lemma ConfirmingVisitExtends(steps: seq<Step>, step: Step, j: nat, url: string)
    requires ConfirmingVisit(steps, j, url)
    ensures ConfirmingVisit(steps + [step], j, url)
  {
    hide DoAll, Complete, PlanOf;
    assert (steps + [step])[..j] == steps[..j];
  }

  lemma TimedInWindow(p: L.Params, g: Global, j: nat, url: string, cacheMax: nat) returns (k: nat)
    requires GlobalInv(p, g) && CimdUrl.IsWeb(url) && Tempered(Serial(g), cacheMax)
    requires ConfirmingVisit(g.history, j, url) && Stored(g.state, url).Some?
    ensures j <= k && TimedBy(Serial(g), k, url, Stored(g.state, url).value)
    ensures ConfirmedAt(Serial(g), k, url) <==> !KeylessAt(Serial(g), k, url)
  {
    hide CimdUrl.IsWeb, Valid, DoAll, ConfirmingVisit, L.LockInv, JobOk, Tempered, TimedBy, ConfirmedAt, KeylessAt;
    SerialTable(p, g);
    TemperedIsOrdered(Serial(g), cacheMax);
    if g.busy != map[] {
      var o :| o in g.busy && Serial(g) == g.history + [Done(g.busy[o])];
      ConfirmingVisitExtends(g.history, Done(g.busy[o]), j, url);
    }
    k := TimedSince(Serial(g), j, url);
    TimedByConfirmedIff(Serial(g), k, url, Stored(g.state, url).value);
  }

  /** The row has its times from visit `k`, less than the cache maximum ago; that visit confirmed it, keys included. */
  ghost predicate ConfirmedCached(g: Global, url: string, now: int, cacheMax: nat, row: Row, k: nat) {
    && Stored(g.state, url) == Some(row) && now < row.cacheUntil
    && TimedBy(Serial(g), k, url, row) && now < Serial(g)[k].v.now + cacheMax
    && (now >= Serial(g)[k].v.now ==> ConfirmedAt(Serial(g), k, url))
  }

  /**
    Visit `j`, which ended between the reads, confirmed the client; the row as it is at the second
    read has its times from that or a later visit `k`, which confirmed it too unless it lacked keys.
    */
  ghost predicate ConfirmedInCall(g1: Global, g2: Global, url: string, row: Row, j: nat, k: nat) {
    && |g1.history| <= j <= k && ConfirmingVisit(g2.history, j, url)
    && Stored(g2.state, url) == Some(row) && TimedBy(Serial(g2), k, url, row)
    && (ConfirmedAt(Serial(g2), k, url) <==> !KeylessAt(Serial(g2), k, url))
  }

  /** The row the proxy may authorize with was confirmed less than the cache maximum ago, or inside this very call. */
  ghost predicate Justified(g1: Global, g2: Global, url: string, now: int, cacheMax: nat, row: Row, j: nat, k: nat) {
    row.enabled && (ConfirmedCached(g1, url, now, cacheMax, row, k) || ConfirmedInCall(g1, g2, url, row, j, k))
  }

  lemma CachedIsJustified(p: L.Params, g: Global, url: string, now: int, cacheMax: nat, row: Row) returns (k: nat)
    requires GlobalInv(p, g) && CimdUrl.IsWeb(url) && Tempered(Serial(g), cacheMax)
    requires Stored(g.state, url) == Some(row) && now < row.cacheUntil
    ensures ConfirmedCached(g, url, now, cacheMax, row, k)
  {
    hide GlobalInv, CimdUrl.IsWeb, Tempered, DoAll, ValidRun, Bijection, TimedBy, ConfirmedAt, Serial;
    SerialTable(p, g);
    k := CacheableMeansConfirmed(Serial(g), url, now, cacheMax);
  }

  /** What is known of a call: the interleaving before and during it, and what the registrar came to, if asked. */
  ghost predicate Call(p: L.Params, g1: Global, during: seq<Move>, url: string, listed: bool, outcome: Outcome,
                       reply: Reply)
  {
    && p.Covers() && GlobalInv(p, g1) && GlobalRun(p, g1, during)
    && Produced(p, g1, during, url, listed, outcome) && Carried(reply, outcome)
  }

  lemma DecisionIsJustified(p: L.Params, g1: Global, during: seq<Move>, url: string, listed: bool, outcome: Outcome,
                            now: int, reply: Reply, cacheMax: nat, row: Row) returns (j: nat, k: nat)
    requires Call(p, g1, during, url, listed, outcome, reply) && CimdUrl.IsWeb(url)
    requires var g2 := AfterMoves(p, g1, during);
      && Tempered(Serial(g1), cacheMax) && Tempered(Serial(g2), cacheMax)
      && Decide(Stored(g1.state, url), now, reply, Stored(g2.state, url)) == Ok(row)
    ensures Justified(g1, AfterMoves(p, g1, during), url, now, cacheMax, row, j, k)
  {
    GlobalRunKeepsInv(p, g1, during);
    hide GlobalInv, GlobalRun, AfterMoves, CimdUrl.IsWeb, Tempered, Produced, Carried, Vouches, Refuses, Serial,
         TimedBy, ConfirmingVisit, ConfirmedAt, KeylessAt, Stored;
    var g2 := AfterMoves(p, g1, during);
    if now < Stored(g1.state, url).value.cacheUntil {
      k := CachedIsJustified(p, g1, url, now, cacheMax, row);
      j := k;
    } else {
      j := VouchingReplyIsBacked(p, g1, during, url, listed, outcome, reply);
      k := TimedInWindow(p, g2, j, url, cacheMax);
    }
  }

  /**
    Under any interleaving of invocations before and during the call, a mapping that may authorize
    was enabled at its last strongly consistent read. Either a visit less than cacheMax before now
    confirmed it, keys included; or one that ended between the two reads did, and the row is as that
    visit or a later one left it.
    */
  lemma AuthorizedMeansConfirmed(p: L.Params, before: seq<Move>, during: seq<Move>, url: string, listed: bool,
                                 outcome: Outcome, now: int, reply: Reply, cacheMax: nat, row: Row)
    returns (j: nat, k: nat)
    requires p.Covers() && CimdUrl.IsWeb(url)
    requires GlobalRun(p, START, before) && GlobalRun(p, AfterMoves(p, START, before), during)
    requires var g1 := AfterMoves(p, START, before); var g2 := AfterMoves(p, g1, during);
      && Tempered(Serial(g1), cacheMax) && Tempered(Serial(g2), cacheMax)
      && Produced(p, g1, during, url, listed, outcome) && Carried(reply, outcome)
      && Decide(Stored(g1.state, url), now, reply, Stored(g2.state, url)) == Ok(row)
    ensures var g1 := AfterMoves(p, START, before);
      Justified(g1, AfterMoves(p, g1, during), url, now, cacheMax, row, j, k)
  {
    var g1 := AfterMoves(p, START, before);
    StartInv(p);
    GlobalRunKeepsInv(p, START, before);
    assert Call(p, g1, during, url, listed, outcome, reply);
    hide *;
    j, k := DecisionIsJustified(p, g1, during, url, listed, outcome, now, reply, cacheMax, row);
  }

  // ---- refusals under any interleaving

  /** The client is missing or disabled at some moment of the call. */
  ghost predicate UnusableDuring(p: L.Params, g1: Global, during: seq<Move>, url: string)
    requires p.Ok()
  {
    exists i: nat :: UnusableAt(p, g1, during, i, url)
  }

  predicate UnusableAt(p: L.Params, g1: Global, during: seq<Move>, i: nat, url: string)
    requires p.Ok()
  {
    i <= |during| && !Usable(Stored(AfterMoves(p, g1, during[..i]).state, url))
  }

  /** A registrar that reports the client disabled has left it so, in a state between the two reads. */
  lemma RefusingReplySawIt(p: L.Params, g1: Global, during: seq<Move>, url: string, listed: bool, outcome: Outcome,
                           reply: Reply)
    requires Call(p, g1, during, url, listed, outcome, reply) && Refuses(reply)
    ensures !listed || UnusableDuring(p, g1, during, url)
  {
    hide GlobalInv, GlobalRun, AfterMoves, Do, Complete, PlanOf;
    if outcome.Finished? && outcome.result.Reconciled? {
      var i: nat, raised :| AnsweredAt(p, g1, during, i, url, raised, outcome.result);
      AnswerIsOnRecord(p, g1, during, i);
      hide Stored;
      assert UnusableAt(p, g1, during, i + 1, url);
    }
  }

  /**
    invalid_client is never a guess: at some moment from the first read to the last the row was
    missing or disabled, or the URL was off the allow-list.
    */
  lemma InvalidClientIsKnown(p: L.Params, g1: Global, during: seq<Move>, url: string, listed: bool, outcome: Outcome,
                             now: int, reply: Reply)
    requires Call(p, g1, during, url, listed, outcome, reply)
    requires var g2 := AfterMoves(p, g1, during);
      Decide(Stored(g1.state, url), now, reply, Stored(g2.state, url)) == Err(InvalidClient)
    ensures !listed || UnusableDuring(p, g1, during, url)
  {
    assert during[..0] == [] && during[..|during|] == during;
    assert AfterMoves(p, g1, []) == g1;
    if Refuses(reply) { RefusingReplySawIt(p, g1, during, url, listed, outcome, reply); }
    hide GlobalInv, GlobalRun, AfterMoves, Produced, Carried, Refuses, Vouches, Stored;
    if !Usable(Stored(g1.state, url)) { assert UnusableAt(p, g1, during, 0, url); }
    if !Usable(Stored(AfterMoves(p, g1, during).state, url)) { assert UnusableAt(p, g1, during, |during|, url); }
  }

  /**
    What does not say yes and does not say no: no answer, a busy or failed registrar, no
    confirmation, anything malformed.
    */
  predicate SaysNothing(reply: Reply) {
    match reply
    case Object(status, confirmed, enabled) =>
      && status != Str("not_allowed")
      && (status == Str("ok") ==> enabled != Bool(false) && (!Truthy(confirmed) || !Truthy(enabled)))
    case _ => true
  }

  /**
    A client whose row is enabled but stale is told to come back later exactly if the reply says
    nothing; of the registrar's own answers that is contention, a crash, a failed call, and a
    revalidation that did not confirm an enabled client.
    */
  lemma TroubleOnlyDelays(first: Option<Row>, now: int, reply: Reply, later: Option<Row>, outcome: Outcome)
    requires Usable(first) && first.value.cacheUntil <= now
    ensures Decide(first, now, reply, later) == Err(TemporarilyUnavailable) <==> SaysNothing(reply)
    ensures SaysNothing(Wire(outcome)) <==>
      outcome.Locked? || outcome.Crashed? || outcome.result == Rc.Reconciled(false, true)
  {}
}
