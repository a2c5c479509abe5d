/** The registrar's entry points: work that runs under the lock, and what is answered for it. */
module Dispatch {
  import opened Wrappers
  import opened Registry
  import opened Reaction
  import opened Steps
  import opened Runs
  import Rc = Reconcile
  import F = Freshness
  import H = Handler
  import L = Lock
  import Sys = System
  import St = Staleness

  /** What is handed to _with_lock. */
  datatype Work =
    | Reconcile(force: bool, answers: seq<Rc.Answers>, retireAt: int, purgeAt: int)
    | EraseAll
    | Revalidate(url: string, answer: Rc.Answers)

  predicate Fits(rec: Rc.Reconciler, work: Work) { work.Reconcile? ==> |work.answers| == |rec.cfg.allowed| }

  /** What a reply is entitled to say after the given history. */
  ghost predicate ReplyOk(allowed: seq<string>, past: seq<Step>, steps: seq<Step>, url: string, raised: bool,
                          result: Rc.Revalidation)
  {
    if result.NotAllowed? then url !in allowed && steps == []
    else |steps| == 1 && steps[0].Visited? && steps[0].v.url == url
         && Rc.RevalidationOk(DoAll(EMPTY, past), steps[0], raised, result)
  }

  /**
    What has been done and what holds now. A run begins with one visit of every listed URL, and when
    it ends rows and times are as promised; deleting everything is deletions, and nothing is left
    when it ends; a revalidation is one forced visit of its URL, or nothing if that is not listed.
    */
  ghost predicate Done(rec: Rc.Reconciler, work: Work, past: seq<Step>, ok: bool, steps: seq<Step>,
                       verdicts: seq<Verdict>)
    requires Fits(rec, work)
    reads rec.store`clients, rec.store`index
  {
    match work
    case Reconcile(force, answers, retireAt, purgeAt) =>
      && rec.RunRecord(DoAll(EMPTY, past), steps, force, answers, verdicts, retireAt, purgeAt)
      && |verdicts| == |answers|
      && (ok ==> rec.Clean(purgeAt))
      && (ok && rec.BoundsOk() && St.Tempered(past, rec.cfg.maxStale) ==>
            rec.Confirmed(past + steps, answers, verdicts))
    case EraseAll => rec.Erases(steps) && (ok ==> rec.store.clients == map[] && rec.store.index == map[])
    case Revalidate(url, a) =>
      if url in rec.cfg.allowed
      then |steps| == 1 && steps[0].Visited?
           && steps[0].v == rec.VisitOf(url, true, a.now, a.doc, a.jwks, steps[0].v.newId)
      else steps == []
  }

  /** The work itself; `ok` says whether it came to an end without raising. */
  method Perform(rec: Rc.Reconciler, work: Work, ghost past: seq<Step>)
    returns (ok: bool, reply: Option<Rc.Revalidation>, verdicts: seq<Verdict>, ghost steps: seq<Step>,
             ghost raised: bool)
    requires ValidRun(EMPTY, past) && rec.World() == DoAll(EMPTY, past) && Fits(rec, work)
    modifies rec.store`failures, rec.cognito`failures, rec.cognito`branded
    modifies rec.store`clients, rec.store`index
    modifies rec.cognito`apps, rec.cognito`issued, rec.cognito`pending, rec.cognito`orphans
    ensures ValidRun(EMPTY, past + steps) && rec.World() == DoAll(EMPTY, past + steps)
    ensures Done(rec, work, past, ok, steps, verdicts)
    ensures rec.Failures() >= old(rec.Failures()) && (!ok ==> rec.Failures() > old(rec.Failures()))
    ensures reply.Some? <==> ok && work.Revalidate?
    ensures reply.Some? ==> ReplyOk(rec.cfg.allowed, past, steps, work.url, raised, reply.value)
  {
    hide Settled, Valid, Do, DoAll, ValidRun, Rc.RevalidationOk;
    ReachableIsSettled(past);
    reply, verdicts, raised := None, [], false;
    match work
    case Reconcile(force, answers, retireAt, purgeAt) =>
      ok, verdicts, steps := rec.Run(force, answers, retireAt, purgeAt, past);
    case EraseAll =>
      ok, steps := rec.DeleteAll();
      AppendRun(EMPTY, past, steps);
    case Revalidate(url, answer) =>
      ghost var step;
      reply, step, raised := rec.RevalidateOne(url, answer);
      ok, steps := reply.Some?, if step.Some? then [step.value] else [];
      assert past + [] == past;
      if step.Some? { AppendStep(EMPTY, past, step.value); }
  }

  /**
    _with_lock. While it waits others may change everything: `found` is how they leave the stores
    when the lock is taken, after the history `past`, and `left` what has become of the lock item
    when the work is done. Work is done only by an invocation whose attempt found the lock free, it
    starts from the stores as they are then, and the lock is given back whether it raised or not.
    */
  method WithLock(rec: Rc.Reconciler, owner: L.Owner, ttlSeconds: int, start: real, wait: real, w: H.World,
                  found: State, left: Option<L.Item>, work: Work, ghost past: seq<Step>)
    returns (entered: H.Outcome, ok: bool, reply: Option<Rc.Revalidation>, verdicts: seq<Verdict>, at: real,
             log: seq<H.Attempt>, ghost steps: seq<Step>, ghost raised: bool)
    requires w.Ok() && ValidRun(EMPTY, past) && found == DoAll(EMPTY, past) && Fits(rec, work)
    modifies rec.store, rec.cognito
    ensures H.LogOk(w, start + wait, log) && (wait <= 0.0 ==> log == [])
    ensures entered.Acquired? ==> L.MayTake(w.found(|log|), at.Floor)
    ensures !entered.Acquired? ==> steps == [] && !ok && reply.None? && rec.World() == old(rec.World())
    ensures entered.Held? ==> rec.store.lock == w.found(|log|) && !L.MayTake(rec.store.lock, at.Floor)
    ensures entered.Acquired? ==> ValidRun(EMPTY, past + steps) && rec.World() == DoAll(EMPTY, past + steps)
    ensures entered.Acquired? ==> Done(rec, work, past, ok, steps, verdicts)
    ensures entered.Acquired? ==> rec.store.lock in {left, L.GiveBack(left, owner)}
    ensures entered.Acquired? && left.Some? && left.value.owner != owner ==> rec.store.lock == left
    ensures entered.Acquired? && ok ==> rec.store.lock == L.GiveBack(left, owner)
    ensures rec.Failures() >= old(rec.Failures())
    ensures (entered.Acquired? && !ok) || entered.Raised? ==> rec.Failures() > old(rec.Failures())
    ensures reply.Some? <==> ok && work.Revalidate?
    ensures reply.Some? ==> ReplyOk(rec.cfg.allowed, past, steps, work.url, raised, reply.value)
  {
    hide Settled, Valid, Do, DoAll, ValidRun, ReplyOk, H.LogOk, Done;
    ok, reply, verdicts, steps, raised := false, None, [], [], false;
    var now;
    entered, at, now, log := H.AcquireWithin(rec.store, owner, ttlSeconds, start, wait, w);
    if !entered.Acquired? { return; }
    SetStores(rec, found);
    assert rec.store.lock == Some(L.Item(owner, at.Floor + ttlSeconds));
    ok, reply, verdicts, steps, raised := Perform(rec, work, past);
    rec.store.lock := left;
    var released := rec.store.ReleaseLock(owner);
    if !released {
      NotOk(rec, work, past, ok, steps, verdicts);
      ok, reply := false, None;
    }
  }

  /** Work that failed at the end has been done all the same. */
  lemma NotOk(rec: Rc.Reconciler, work: Work, past: seq<Step>, ok: bool, steps: seq<Step>, verdicts: seq<Verdict>)
    requires Fits(rec, work) && Done(rec, work, past, ok, steps, verdicts)
    ensures Done(rec, work, past, false, steps, verdicts)
  {}

  /** What other invocations have made of table and app clients in the meantime. */
  method SetStores(rec: Rc.Reconciler, found: State)
    modifies rec.store`clients, rec.store`index
    modifies rec.cognito`apps, rec.cognito`issued, rec.cognito`branded, rec.cognito`pending, rec.cognito`orphans
    ensures rec.World() == found
  {
    rec.cognito.branded := *;
    rec.store.clients, rec.store.index := found.table.clients, found.table.index;
    rec.cognito.apps, rec.cognito.issued := found.apps, found.issued;
    rec.cognito.pending, rec.cognito.orphans := found.pending, found.orphans;
  }

  /** The revalidate branch of the handler: busy means nothing happened, and a finished reply is one it may give. */
  method RevalidateRequest(rec: Rc.Reconciler, owner: L.Owner, ttlSeconds: int, start: real, wait: real, w: H.World,
                           found: State, left: Option<L.Item>, url: string, answer: Rc.Answers, ghost past: seq<Step>)
    returns (outcome: F.Outcome, ghost steps: seq<Step>, ghost raised: bool)
    requires w.Ok() && ValidRun(EMPTY, past) && found == DoAll(EMPTY, past)
    modifies rec.store, rec.cognito
    ensures outcome.Locked? ==> steps == [] && rec.World() == old(rec.World())
    ensures steps != [] ==> ValidRun(EMPTY, past + steps) && rec.World() == DoAll(EMPTY, past + steps)
    ensures outcome.Crashed? ==> rec.Failures() > old(rec.Failures())
    ensures outcome.Finished? ==> ReplyOk(rec.cfg.allowed, past, steps, url, raised, outcome.result)
    ensures outcome.Finished? ==> Done(rec, Revalidate(url, answer), past, true, steps, [])
  {
    hide Settled, Valid, Do, DoAll, ValidRun, ReplyOk, H.LogOk;
    var entered, ok, reply, verdicts, at, log;
    entered, ok, reply, verdicts, at, log, steps, raised :=
      WithLock(rec, owner, ttlSeconds, start, wait, w, found, left, Revalidate(url, answer), past);
    outcome := if entered.Held? then F.Locked else if reply.None? then F.Crashed else F.Finished(reply.value);
  }

  /**
    The scheduled branch: one attempt at the lock, no run if another one holds it, and otherwise the
    run that spares cached rows.
    */
  method ScheduledRun(rec: Rc.Reconciler, owner: L.Owner, ttlSeconds: int, start: real, w: H.World,
                      found: State, left: Option<L.Item>, answers: seq<Rc.Answers>, retireAt: int, purgeAt: int,
                      ghost past: seq<Step>)
    returns (entered: H.Outcome, ok: bool, verdicts: seq<Verdict>, ghost steps: seq<Step>)
    requires w.Ok() && ValidRun(EMPTY, past) && found == DoAll(EMPTY, past) && |answers| == |rec.cfg.allowed|
    modifies rec.store, rec.cognito
    ensures entered.Held? ==> rec.store.lock == w.found(0)
    ensures !entered.Acquired? ==> steps == [] && !ok && rec.World() == old(rec.World())
    ensures entered.Acquired? ==> ValidRun(EMPTY, past + steps) && rec.World() == DoAll(EMPTY, past + steps)
    ensures entered.Acquired? ==> Done(rec, Reconcile(false, answers, retireAt, purgeAt), past, ok, steps, verdicts)
    ensures !entered.Held? && !ok ==> rec.Failures() > old(rec.Failures())
  {
    hide Settled, Valid, Do, DoAll, ValidRun, ReplyOk, H.LogOk, Done;
    var reply, at, log;
    ghost var raised;
    entered, ok, reply, verdicts, at, log, steps, raised :=
      WithLock(rec, owner, ttlSeconds, start, 0.0, w, found, left, Reconcile(false, answers, retireAt, purgeAt), past);
  }

  /**
    The custom resource: deleting the stack deletes everything, any other request is a run that asks
    for every document. A run with errors fails the deployment.
    */
  method ResourceRequest(rec: Rc.Reconciler, owner: L.Owner, ttlSeconds: int, start: real, wait: real, w: H.World,
                         found: State, left: Option<L.Item>, delete: bool, answers: seq<Rc.Answers>, retireAt: int,
                         purgeAt: int, ghost past: seq<Step>)
    returns (entered: H.Outcome, succeeded: bool, verdicts: seq<Verdict>, ghost steps: seq<Step>)
    requires w.Ok() && ValidRun(EMPTY, past) && found == DoAll(EMPTY, past) && |answers| == |rec.cfg.allowed|
    modifies rec.store, rec.cognito
    ensures !entered.Acquired? ==> steps == [] && !succeeded && rec.World() == old(rec.World())
    ensures entered.Acquired? ==> ValidRun(EMPTY, past + steps) && rec.World() == DoAll(EMPTY, past + steps)
    ensures entered.Acquired? && delete ==> Done(rec, EraseAll, past, succeeded, steps, verdicts)
    ensures entered.Acquired? && !delete ==>
      Done(rec, Reconcile(true, answers, retireAt, purgeAt), past, succeeded, steps, verdicts)
    ensures succeeded && !delete ==> Raised !in verdicts
    ensures !entered.Held? && !succeeded ==>
      rec.Failures() > old(rec.Failures()) || (!delete && Raised in verdicts)
  {
    hide Settled, Valid, Do, DoAll, ValidRun, ReplyOk, H.LogOk, Done;
    var work := if delete then EraseAll else Reconcile(true, answers, retireAt, purgeAt);
    var reply, at, log;
    ghost var raised;
    entered, succeeded, reply, verdicts, at, log, steps, raised :=
      WithLock(rec, owner, ttlSeconds, start, wait, w, found, left, work, past);
    if succeeded && !delete && Raised in verdicts {
      NotOk(rec, work, past, succeeded, steps, verdicts);
      succeeded := false;
    }
  }

  /** Among interleaved invocations, the end of the visit a reply speaks of makes it one the call produced. */
  lemma ReplyIsProduced(p: L.Params, g1: Sys.Global, during: seq<Sys.Move>, i: nat, allowed: seq<string>, url: string,
                        raised: bool, result: Rc.Revalidation)
    requires p.Covers() && Sys.GlobalInv(p, g1) && Sys.GlobalRun(p, g1, during)
    requires i < |during| && during[i].Finish? && result.Reconciled?
    requires var m := Sys.AfterMoves(p, g1, during[..i]); var o := during[i].owner;
      o in m.busy && ReplyOk(allowed, m.history, [Sys.Done(m.busy[o])], url, raised, result)
    ensures F.Produced(p, g1, during, url, url in allowed, F.Finished(result))
  {
    hide ReplyOk, Rc.RevalidationOk, Sys.AfterMoves, Sys.GlobalInv, Sys.GlobalRun, Sys.Done, Do, DoAll;
    F.AnswerIsOnRecord(p, g1, during, i);
    var m := Sys.AfterMoves(p, g1, during[..i]);
    JobAnswers(m.busy[during[i].owner], m.history, allowed, url, raised, result);
    assert F.AnsweredAt(p, g1, during, i, url, raised, result);
  }

  lemma JobAnswers(job: Sys.Job, history: seq<Step>, allowed: seq<string>, url: string, raised: bool,
                   result: Rc.Revalidation)
    requires job.base == DoAll(EMPTY, history) && result.Reconciled?
    requires ReplyOk(allowed, history, [Sys.Done(job)], url, raised, result)
    ensures job.step.Visited? && job.step.v.url == url && Rc.RevalidationOk(job.base, Sys.Done(job), raised, result)
  {
    hide Rc.RevalidationOk, DoAll;
  }
}
