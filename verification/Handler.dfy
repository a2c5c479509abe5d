/** How an invocation waits for the lock, runs its work under it, and gives the lock back. */
module Handler {
  import opened Wrappers
  import L = Lock
  import St = Store

  /** What the outside world does during the k-th attempt: the item it finds, and the time lost around it. */
  datatype World = World(found: nat -> Option<L.Item>, calling: nat -> real, checking: nat -> real,
                         oversleeping: nat -> real)
  {
    ghost predicate Ok() {
      forall k: nat :: calling(k) >= 0.0 && checking(k) >= 0.0 && oversleeping(k) >= 0.0
    }

    ghost predicate Instant() {
      forall k: nat :: calling(k) == 0.0 && checking(k) == 0.0 && oversleeping(k) == 0.0
    }
  }

  /** One failed attempt: when it was made, when its pause began, and how long a pause was asked for. */
  datatype Attempt = Attempt(at: real, pausedAt: real, pause: real)

  datatype Outcome = Acquired | Held | Raised

  function MinR(a: real, b: real): real { if b < a then b else a }

  function MaxR(a: real, b: real): real { if b > a then b else a }

  /** Two seconds, doubled after every attempt up to twenty. */
  function Backoff(k: nat): (delay: real)
    ensures 2.0 <= delay <= 20.0
  {
    if k == 0 then 2.0 else MinR(Backoff(k - 1) * 2.0, 20.0)
  }

  /** Two, four, eight, sixteen, and then twenty seconds. */
  lemma {:induction false} BackoffIs(k: nat)
    ensures k < 4 ==> Backoff(k) == [2.0, 4.0, 8.0, 16.0][k]
    ensures k >= 4 ==> Backoff(k) == 20.0
  {
    if k > 0 { BackoffIs(k - 1); }
  }

  predicate AttemptOk(w: World, deadline: real, k: nat, a: Attempt) {
    && !L.MayTake(w.found(k), a.at.Floor)
    && a.pausedAt == a.at + w.calling(k) + w.checking(k)
    && a.pause == MinR(Backoff(k), MaxR(0.1, deadline - a.pausedAt))
  }

  /** Attempts follow each other after their pauses. */
  predicate LogOk(w: World, deadline: real, log: seq<Attempt>) {
    && (forall k | 0 <= k < |log| :: AttemptOk(w, deadline, k, log[k]))
    && (forall k | 0 < k < |log| :: log[k].at == Resumed(w, k - 1, log[k - 1]))
  }

  /** When the pause after the k-th attempt is over. */
  function Resumed(w: World, k: nat, a: Attempt): real { a.pausedAt + a.pause + w.oversleeping(k) }

  /** A measure of the pauses that still fit before the deadline, ten to a second. */
  function Left(deadline: real, now: real): (n: nat) {
    if now < deadline then ((deadline - now) * 10.0).Floor + 1 else 0
  }

  lemma PausesRunOut(deadline: real, now: real, later: real)
    requires now < deadline && now + 0.1 <= later
    ensures Left(deadline, later) < Left(deadline, now)
  {
    if later < deadline {
      assert (deadline - later) * 10.0 <= (deadline - now) * 10.0 - 1.0;
    }
  }

  lemma LogGrows(w: World, deadline: real, log: seq<Attempt>, a: Attempt)
    requires LogOk(w, deadline, log) && AttemptOk(w, deadline, |log|, a)
    requires log != [] ==> a.at == Resumed(w, |log| - 1, log[|log| - 1])
    ensures LogOk(w, deadline, log + [a])
  {
    hide AttemptOk;
  }

  lemma PauseBounds(k: nat, deadline: real, pausedAt: real, pause: real)
    requires pause == MinR(Backoff(k), MaxR(0.1, deadline - pausedAt))
    ensures pause >= 0.1 && (pausedAt < deadline ==> pausedAt + pause < deadline + 0.1)
    ensures Backoff(k + 1) == MinR(Backoff(k) * 2.0, 20.0)
  {}

  /**
    The waiting loop. It takes the lock at the first attempt that finds it free, and gives up only
    if every attempt found it held and the time to wait is over.
    */
  method AcquireWithin(store: St.Store, owner: L.Owner, ttlSeconds: int, start: real, wait: real, w: World)
    returns (outcome: Outcome, at: real, now: real, log: seq<Attempt>)
    requires w.Ok()
    modifies store`lock, store`failures
    ensures store.failures == old(store.failures) + if outcome.Raised? then 1 else 0
    ensures LogOk(w, start + wait, log)
    ensures at == if log == [] then start else Resumed(w, |log| - 1, log[|log| - 1])
    ensures outcome == Acquired ==>
      L.MayTake(w.found(|log|), at.Floor) && store.lock == Some(L.Item(owner, at.Floor + ttlSeconds))
    ensures now == at + w.calling(|log|)
    ensures outcome == Held ==> now >= start + wait && store.lock == w.found(|log|) && !L.MayTake(store.lock, at.Floor)
    ensures wait <= 0.0 ==> log == []
    ensures w.Instant() ==> at == start || at < start + wait + 0.1
  {
    var deadline, delay := start + wait, 2.0;
    assert delay == Backoff(0) && LogOk(w, deadline, []);
    hide L.MayTake, LogOk, Left, Backoff;
    now, log := start, [];
    while true
      invariant store.failures == old(store.failures)
      invariant now >= start && delay == Backoff(|log|)
      invariant LogOk(w, deadline, log) && now == if log == [] then start else Resumed(w, |log| - 1, log[|log| - 1])
      invariant wait <= 0.0 ==> log == []
      invariant w.Instant() ==> now == start || now < deadline + 0.1
      decreases Left(deadline, now)
    {
      store.lock := w.found(|log|);
      at := now;
      var taken := store.AcquireLock(owner, at.Floor, ttlSeconds);
      now := now + w.calling(|log|);
      if taken.None? { return Raised, at, now, log; }
      if taken.value { return Acquired, at, now, log; }
      if now >= deadline { return Held, at, now, log; }
      var pausedAt := now + w.checking(|log|);
      var pause := MinR(delay, MaxR(0.1, deadline - pausedAt));
      PauseBounds(|log|, deadline, pausedAt, pause);
      hide MinR, MaxR;
      PausesRunOut(deadline, at, pausedAt + pause + w.oversleeping(|log|));
      now := pausedAt + pause + w.oversleeping(|log|);
      LogGrows(w, deadline, log, Attempt(at, pausedAt, pause));
      log := log + [Attempt(at, pausedAt, pause)];
      delay := MinR(delay * 2.0, 20.0);
    }
  }

  /** What the attempts of an unsuccessful wait add up to, if nothing but the pauses takes time. */
  function Pauses(log: seq<Attempt>): real {
    if log == [] then 0.0 else Pauses(log[..|log| - 1]) + log[|log| - 1].pause
  }

  /**
    Nobody is kept waiting for less than the pauses asked for, and no pause reaches more than a
    tenth past the deadline.
    */
  lemma {:induction false} PausesFit(w: World, start: real, deadline: real, log: seq<Attempt>)
    requires w.Ok() && LogOk(w, deadline, log) && (log != [] ==> log[0].at >= start)
    requires forall k | 0 <= k < |log| :: log[k].pausedAt < deadline
    ensures log != [] ==> start + Pauses(log) <= log[|log| - 1].pausedAt + log[|log| - 1].pause < deadline + 0.1
  {
    if log != [] {
      var n := |log| - 1;
      PausesFit(w, start, deadline, log[..n]);
      assert AttemptOk(w, deadline, n, log[n]);
      PauseBounds(n, deadline, log[n].pausedAt, log[n].pause);
      assert w.calling(n) >= 0.0 && w.checking(n) >= 0.0;
      if n > 0 {
        assert log[n].at == Resumed(w, n - 1, log[n - 1]) && w.oversleeping(n - 1) >= 0.0;
      }
    }
  }
}
