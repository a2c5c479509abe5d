/**
  Abandoning a fetch: the worker registers its socket and the caller cancels, each in one critical
  section on the same lock, and whichever comes second closes the socket.
  */
module Transport {
  import opened Wrappers

  class Socket {
    var open: bool

    constructor ()
      ensures open
    {
      open := true;
    }

    /** hard_close: shut down and close; doing it again is harmless. */
    method HardClose()
      modifies this
      ensures !open
    {
      open := false;
    }
  }

  /** What the lock protects. */
  datatype Cell = Cell(registered: bool, cancelled: bool)

  function Registered(c: Cell): Cell { c.(registered := true) }

  function Cancelled(c: Cell): Cell { c.(cancelled := true) }

  class TransportHandle {
    var sock: Option<Socket>
    var cancelled: bool

    constructor ()
      ensures sock == None && !cancelled
    {
      sock, cancelled := None, false;
    }

    function Shared(): Cell
      reads this
    {
      Cell(sock.Some?, cancelled)
    }

    /** The critical section of adopt. */
    method Register(s: Socket) returns (abandoned: bool)
      modifies this`sock
      ensures sock == Some(s) && Shared() == Registered(old(Shared())) && abandoned == old(cancelled)
    {
      sock := Some(s);
      abandoned := cancelled;
    }

    /** The critical section of cancel. */
    method Abandon() returns (found: Option<Socket>)
      modifies this`cancelled
      ensures Shared() == Cancelled(old(Shared())) && found == sock
    {
      cancelled := true;
      found := sock;
    }

    /** adopt: raises, with the socket closed, exactly if the fetch was abandoned before. */
    method Adopt(s: Socket) returns (ok: bool)
      modifies this`sock, s
      ensures sock == Some(s) && ok == !old(cancelled) && (!ok ==> !s.open) && (ok ==> s.open == old(s.open))
    {
      var abandoned := Register(s);
      if abandoned { s.HardClose(); }
      ok := !abandoned;
    }

    /** cancel: abandonment is sticky, and a socket that was registered is closed. */
    method Cancel()
      modifies this`cancelled, if sock.Some? then {sock.value} else {}
      ensures cancelled && sock == old(sock) && (sock.Some? ==> !sock.value.open)
    {
      var found := Abandon();
      if found.Some? { found.value.HardClose(); }
    }
  }

  // ---- the two threads

  /** The worker of one exchange. */
  datatype Worker = Connecting | Connected | Adopted(abandoned: bool) | Requesting | Over(succeeded: bool)

  /** The caller waits for the worker; on the way out of a failure it cancels, closes what it found, then conn.sock. */
  datatype Caller = Waiting | Cancelling(found: bool) | Sweeping | Returned(success: bool)

  /**
    `visible` says whether conn.sock shows the socket; `sent` and `first` record what has happened:
    whether a request left, and whose critical section came first.
    */
  datatype Exchange = Exchange(cell: Cell, worker: Worker, caller: Caller, closed: bool, visible: bool,
                               sent: bool, first: Option<Side>)

  datatype Side = TheWorker | TheCaller

  const BEGIN := Exchange(Cell(false, false), Connecting, Waiting, false, false, false, None)

  datatype Action =
    | Connect(ok: bool)
    | AdoptSection
    | AdoptClose
    | Request
    | HandOver
    | Finish(ok: bool)
    | GiveUp
    | CloseFound
    | CloseVisible
    | Succeed

  predicate Enabled(e: Exchange, a: Action) {
    match a
    case Connect(_) => e.worker.Connecting?
    case AdoptSection => e.worker.Connected?
    case AdoptClose => e.worker == Adopted(true)
    case Request => e.worker == Adopted(false)
    case HandOver => e.worker.Requesting?
    case Finish(ok) => e.worker.Requesting?
    case GiveUp => e.caller.Waiting?
    case CloseFound => e.caller.Cancelling?
    case CloseVisible => e.caller.Sweeping?
    case Succeed => e.caller.Waiting? && e.worker == Over(true)
  }

  function Next(e: Exchange, a: Action): Exchange {
    match a
    case Connect(ok) => e.(worker := if ok then Connected else Over(false), visible := ok)
    case AdoptSection =>
      e.(cell := Registered(e.cell), worker := Adopted(e.cell.cancelled),
         first := if e.first.None? then Some(TheWorker) else e.first)
    case AdoptClose => e.(closed := true, worker := Over(false))
    case Request => e.(sent := true, worker := Requesting)
    case HandOver => e.(visible := false)
    case Finish(ok) => e.(worker := Over(ok))
    case GiveUp =>
      e.(cell := Cancelled(e.cell), caller := Cancelling(e.cell.registered),
         first := if e.first.None? then Some(TheCaller) else e.first)
    case CloseFound => e.(closed := e.closed || (e.caller.Cancelling? && e.caller.found), caller := Sweeping)
    case CloseVisible => e.(closed := e.closed || e.visible, caller := Returned(false))
    case Succeed => e.(closed := true, caller := Returned(true))
  }

  // ---- every interleaving

  predicate Given(e: Exchange) { e.caller.Cancelling? || e.caller.Sweeping? || e.caller == Returned(false) }

  predicate Inv(e: Exchange) {
    && (e.cell.cancelled <==> Given(e))
    && (e.worker.Connecting? || e.worker.Connected? ==> !e.cell.registered)
    && (e.worker.Adopted? || e.worker.Requesting? || e.worker == Over(true) ==> e.cell.registered)
    && (e.worker.Requesting? || e.worker == Over(true) ==> e.sent)
    && (e.caller == Returned(true) ==> e.worker == Over(true) && e.closed)
    && match e.first
       case None => !e.cell.registered && !e.cell.cancelled && !e.sent
       case Some(TheWorker) =>
         && e.cell.registered && e.worker != Adopted(true) && e.caller != Cancelling(false)
         && (e.caller.Sweeping? || e.caller == Returned(false) ==> e.closed)
       case Some(TheCaller) =>
         && e.cell.cancelled && !e.sent && e.worker != Adopted(false) && e.caller != Cancelling(true)
         && (e.worker.Over? && e.cell.registered ==> e.closed)
  }

  lemma ActionKeepsInv(e: Exchange, a: Action)
    requires Inv(e) && Enabled(e, a)
    ensures Inv(Next(e, a))
  {}

  function After(actions: seq<Action>): Exchange {
    if actions == [] then BEGIN else Next(After(actions[..|actions| - 1]), actions[|actions| - 1])
  }

  predicate Interleaving(actions: seq<Action>) {
    actions == [] ||
    (var n := |actions| - 1; Interleaving(actions[..n]) && Enabled(After(actions[..n]), actions[n]))
  }

  lemma {:induction false} InterleavingKeepsInv(actions: seq<Action>)
    requires Interleaving(actions)
    ensures Inv(After(actions))
  {
    if actions != [] {
      var n := |actions| - 1;
      InterleavingKeepsInv(actions[..n]);
      hide Inv;
      ActionKeepsInv(After(actions[..n]), actions[n]);
    }
  }

  /** If the caller's critical section comes first, no request ever leaves and the exchange never succeeds. */
  lemma CancelledFirstNeverSends(actions: seq<Action>)
    requires Interleaving(actions) && After(actions).first == Some(TheCaller)
    ensures !After(actions).sent && After(actions).worker != Over(true) && After(actions).caller != Returned(true)
  {
    InterleavingKeepsInv(actions);
  }

  /** Once both sides are done, a socket that was registered has been closed. */
  lemma NoSocketIsLeftOpen(actions: seq<Action>)
    requires Interleaving(actions)
    requires After(actions).worker.Over? && After(actions).caller.Returned? && After(actions).cell.registered
    ensures After(actions).closed
  {
    InterleavingKeepsInv(actions);
  }

  /** A caller that has gone away leaves no request running on an open socket, so nothing blocks on it any more. */
  lemma AbandonedRequestIsCutOff(actions: seq<Action>)
    requires Interleaving(actions) && After(actions).caller == Returned(false) && After(actions).worker.Requesting?
    ensures After(actions).closed
  {
    InterleavingKeepsInv(actions);
  }

  // ---- both sides finish

  /** How much either side still has to do. */
  function Rank(e: Exchange): nat {
    (match e.worker
     case Connecting => 4
     case Connected => 3
     case Adopted(_) => 2
     case Requesting => 1
     case Over(_) => 0)
    + (match e.caller
       case Waiting => 3
       case Cancelling(_) => 2
       case Sweeping => 1
       case Returned(_) => 0)
  }

  /** Every action but handing the socket over is progress, so no interleaving goes on for ever. */
  lemma ActionsAreProgress(e: Exchange, a: Action)
    requires Enabled(e, a)
    ensures if a.HandOver? then Rank(Next(e, a)) == Rank(e) else Rank(Next(e, a)) < Rank(e)
  {}

  /** Some progress is possible until both sides are done. */
  function Pending(e: Exchange): Option<Action> {
    match e.worker
    case Connecting => Some(Connect(true))
    case Connected => Some(AdoptSection)
    case Adopted(abandoned) => Some(if abandoned then AdoptClose else Request)
    case Requesting => Some(Finish(true))
    case Over(succeeded) =>
      match e.caller
      case Waiting => Some(if succeeded then Succeed else GiveUp)
      case Cancelling(_) => Some(CloseFound)
      case Sweeping => Some(CloseVisible)
      case Returned(_) => None
  }

  /** The caller is waiting for a worker that has not failed, or has succeeded. */
  predicate Hopeful(e: Exchange) { (e.caller.Waiting? && e.worker != Over(false)) || e.caller == Returned(true) }

  lemma PendingIsProgress(e: Exchange)
    requires Inv(e)
    ensures Pending(e).None? ==> e.worker.Over? && e.caller.Returned? && (Hopeful(e) ==> e.caller == Returned(true))
    ensures Pending(e).Some? ==>
      var a := Pending(e).value;
      Enabled(e, a) && Rank(Next(e, a)) < Rank(e) && (Hopeful(e) ==> Hopeful(Next(e, a)))
  {}

  lemma OneMoreAction(actions: seq<Action>, a: Action)
    ensures After(actions + [a]) == Next(After(actions), a)
    ensures Interleaving(actions + [a]) <==> Interleaving(actions) && Enabled(After(actions), a)
  {
    assert (actions + [a])[..|actions|] == actions;
  }

  /** From anywhere both sides can finish, and a caller that was still waiting for a live worker can succeed. */
  lemma {:induction false} BothFinish(actions: seq<Action>) returns (more: seq<Action>)
    requires Interleaving(actions)
    ensures Interleaving(actions + more)
    ensures After(actions + more).worker.Over? && After(actions + more).caller.Returned?
    ensures Hopeful(After(actions)) ==> After(actions + more).caller == Returned(true)
    decreases Rank(After(actions))
  {
    hide *;
    InterleavingKeepsInv(actions);
    var e := After(actions);
    PendingIsProgress(e);
    assert actions + [] == actions;
    more := [];
    if Pending(e).Some? {
      var a := Pending(e).value;
      OneMoreAction(actions, a);
      var rest := BothFinish(actions + [a]);
      assert actions + [a] + rest == actions + ([a] + rest);
      more := [a] + rest;
    }
  }

  /** conn.sock shows the socket from the connect on until the response takes it over. */
  lemma {:induction false} ConnectedIsVisible(actions: seq<Action>)
    requires Interleaving(actions)
    ensures var e := After(actions);
      (e.worker.Connected? || e.worker.Adopted? ==> e.visible) && (e.worker.Connecting? ==> !e.visible)
  {
    if actions != [] { ConnectedIsVisible(actions[..|actions| - 1]); }
  }

  /** So a caller that gives up closes even a socket that was connected and not yet registered. */
  lemma AbandonedConnectionIsClosed(actions: seq<Action>)
    requires Interleaving(actions + [CloseVisible])
    ensures var e := After(actions + [CloseVisible]);
      && e.caller == Returned(false)
      && (After(actions).worker.Connected? || After(actions).worker.Adopted? ==> e.closed)
  {
    assert (actions + [CloseVisible])[..|actions|] == actions;
    ConnectedIsVisible(actions);
  }
}
