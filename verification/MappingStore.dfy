/** The readers' view of the mapping table: a cache over strongly consistent reads. */
module MappingStore {
  import opened Wrappers
  import opened Registry
  import D = Runs
  import Sys = System
  import L = Lock

  /** A cached answer and the time it was stored, which is after the read. */
  datatype Hit<T> = Hit(stamp: real, answer: T)

  predicate Honoured<T>(hit: Hit<T>, now: real, ttl: real) { now - hit.stamp < ttl }

  /** Whether the registrar vouches for an app client in this table. */
  predicate Registered(t: Table, id: Id) { id in t.index && t.index[id].enabled }

  function ClientIn(t: Table, url: string): Option<Row> { if url in t.clients then Some(t.clients[url]) else None }

  /** The table over time. */
  type Timeline = real -> Table

  /** From time `d` on no table has an enabled row for the app client. */
  ghost predicate RetiredFrom(history: Timeline, id: Id, d: real) {
    forall t: real | d <= t :: !Registered(history(t), id)
  }

  class MappingStore {
    const ttl: real
    var clients: map<string, Hit<Option<Row>>>
    var registered: map<Id, Hit<bool>>

    /** When each cached answer was true of the table. */
    ghost var clientsSeen: map<string, real>
    ghost var registeredSeen: map<Id, real>

    constructor (ttl: real)
      ensures this.ttl == ttl && clients == map[] && registered == map[] && clientsSeen == map[]
        && registeredSeen == map[]
    {
      this.ttl, clients, registered, clientsSeen, registeredSeen := ttl, map[], map[], map[], map[];
    }

    /** Every cached answer is what a read returned at most `latency` before it was stored. */
    ghost predicate Valid(history: Timeline, latency: real)
      reads this
    {
      && (forall id | id in registered :: id in registeredSeen
            && registeredSeen[id] <= registered[id].stamp <= registeredSeen[id] + latency
            && registered[id].answer == Registered(history(registeredSeen[id]), id))
      && (forall u | u in clients :: u in clientsSeen
            && clientsSeen[u] <= clients[u].stamp <= clientsSeen[u] + latency
            && clients[u].answer == ClientIn(history(clientsSeen[u]), u))
    }

    /** What the cache says by itself; None when the table must be read. */
    function Cached(id: Id, now: real): Option<bool>
      reads this
    {
      if id in registered && Honoured(registered[id], now, ttl) then Some(registered[id].answer) else None
    }

    /** What is answered at `now`, if a read that turns out necessary happens at `readAt`. */
    function AnswerAt(id: Id, now: real, readAt: real, history: Timeline): bool
      reads this
    {
      match Cached(id, now)
      case Some(answer) => answer
      case None => Registered(history(readAt), id)
    }

    /**
      is_registered_cognito_client, asked at `now`; a read is done at `readAt` and stored at `stamp`.
      The answer was true of the table at `seen`, less than ttl plus one read latency before the
      answer is used, so an app client retired longer ago than that is refused.
      */
    method IsRegisteredCognitoClient(id: Id, now: real, readAt: real, stamp: real, history: Timeline,
                                     ghost latency: real)
      returns (ok: bool, ghost seen: real)
      requires Valid(history, latency) && now <= readAt <= stamp <= readAt + latency && ttl >= 0.0
      modifies this`registered, this`registeredSeen
      ensures Valid(history, latency)
      ensures ok == old(AnswerAt(id, now, readAt, history))
      ensures ok == Registered(history(seen), id)
      ensures seen == readAt || now < seen + ttl + latency
      ensures (exists d :: RetiredFrom(history, id, d) && d + ttl + latency <= now) ==> !ok
      ensures registered ==
        if old(Cached(id, now)).Some? then old(registered) else old(registered)[id := Hit(stamp, ok)]
    {
      if id in registered && now - registered[id].stamp < ttl {
        return registered[id].answer, registeredSeen[id];
      }
      ok := id in history(readAt).index && history(readAt).index[id].enabled;
      registered := registered[id := Hit(stamp, ok)];
      seen, registeredSeen := readAt, registeredSeen[id := readAt];
    }

    /** The app client is answered for at some time, later than ttl after `d`. */
    ghost predicate Overstays(id: Id, d: real, history: Timeline)
      reads this
    {
      exists now: real, readAt: real :: OverstaysAt(id, d, now, readAt, history)
    }

    ghost predicate OverstaysAt(id: Id, d: real, now: real, readAt: real, history: Timeline)
      reads this
    {
      d + ttl <= now <= readAt && AnswerAt(id, now, readAt, history)
    }

    /**
      The promised window: a client retired at `d` is refused ttl seconds later, whenever it asks and
      whenever the table is read, exactly if its cached answer was stored before `d`. The stamp is
      taken after the read, so an answer whose read and stamp lie on both sides of `d` overstays.
      */
    lemma WindowIsTtlIff(id: Id, d: real, history: Timeline, latency: real)
      requires Valid(history, latency) && ttl > 0.0 && id in registered && registered[id].answer
      requires RetiredFrom(history, id, d)
      ensures registeredSeen[id] < d
      ensures Overstays(id, d, history) <==> d < registered[id].stamp
    {
      assert Registered(history(registeredSeen[id]), id);
      var stamp := registered[id].stamp;
      if d < stamp {
        var now := if stamp - d < ttl then d + ttl else stamp;
        assert OverstaysAt(id, d, now, now, history);
      }
      forall now: real, readAt: real | OverstaysAt(id, d, now, readAt, history) ensures d < stamp {
        assert !Registered(history(readAt), id);
      }
    }

    /**
      A consistent read bypasses the cache and sees the table as it is during the call; any other
      may be as old as a cached answer.
      */
    method ByCimdUrl(url: string, consistent: bool, now: real, readAt: real, stamp: real, history: Timeline,
                     ghost latency: real)
      returns (row: Option<Row>, ghost seen: real)
      requires Valid(history, latency) && readAt <= stamp <= readAt + latency && now <= stamp
        && (consistent ==> now <= readAt)
      modifies this`clients, this`clientsSeen
      ensures Valid(history, latency)
      ensures row == ClientIn(history(seen), url)
      ensures var hit := !consistent && url in old(clients) && Honoured(old(clients)[url], now, ttl);
        && row == (if hit then old(clients)[url].answer else ClientIn(history(readAt), url))
        && clients == if hit then old(clients) else old(clients)[url := Hit(stamp, row)]
      ensures consistent ==> now <= seen <= stamp
      ensures now < seen + ttl + latency || seen == readAt
    {
      if !consistent && url in clients && now - clients[url].stamp < ttl {
        return clients[url].answer, clientsSeen[url];
      }
      row := if url in history(readAt).clients then Some(history(readAt).clients[url]) else None;
      clients := clients[url := Hit(stamp, row)];
      seen, clientsSeen := readAt, clientsSeen[url := readAt];
    }
  }

  // ---- the table over time as the registrar makes it

  /**
    What a run of the system looks like to someone who watches the table: `made(t)` of the moves are
    made by time t.
    */
  ghost predicate Shows(p: L.Params, moves: seq<Sys.Move>, made: real -> nat, history: Timeline) {
    && p.Covers() && Sys.GlobalRun(p, Sys.START, moves)
    && (forall t, u | t <= u :: made(t) <= made(u) <= |moves|)
    && (forall t :: Sys.GlobalRun(p, Sys.START, moves[..made(t)])
          && history(t) == Sys.AfterMoves(p, Sys.START, moves[..made(t)]).state.table)
  }

  /** An app client that no longer serves any URL at some time is never seen registered afterwards. */
  lemma DeadIsRetiredFrom(p: L.Params, moves: seq<Sys.Move>, made: real -> nat, history: Timeline, id: Id, d: real)
    requires Shows(p, moves, made, history)
    requires D.Dead(Sys.AfterMoves(p, Sys.START, moves[..made(d)]).state, id)
    ensures RetiredFrom(history, id, d)
  {
    hide Sys.GlobalRun, Sys.AfterMoves, Sys.GlobalInv, D.Dead;
    forall t | d <= t ensures !Registered(history(t), id) {
      var a, b := moves[..made(d)], moves[made(d)..made(t)];
      assert moves[..made(t)] == a + b;
      Sys.MovesAppend(p, Sys.START, a, b);
      Sys.StartInv(p);
      Sys.GlobalRunKeepsInv(p, Sys.START, a);
      Sys.NoReaderSeesItAgain(p, Sys.AfterMoves(p, Sys.START, a), b, id);
    }
  }
}
