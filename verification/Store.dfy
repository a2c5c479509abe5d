/** The write side of the mapping table, and the Cognito app clients, as the registrar calls them. */
module Store {
  import opened Wrappers
  import R = Registry
  import L = Lock

  /** One item of a transaction. */
  datatype Write =
    | PutClientItem(url: string, row: R.Row)
    | PutIndexItem(id: R.Id, entry: R.Entry)
    | DeleteClientItem(url: string)
    | DeleteIndexItem(id: R.Id)

  function Written(t: R.Table, w: Write): R.Table {
    match w
    case PutClientItem(url, row) => R.Table(t.clients[url := row], t.index)
    case PutIndexItem(id, entry) => R.Table(t.clients, t.index[id := entry])
    case DeleteClientItem(url) => R.Table(t.clients - {url}, t.index)
    case DeleteIndexItem(id) => R.Table(t.clients, t.index - {id})
  }

  function WrittenAll(t: R.Table, ws: seq<Write>): R.Table
    decreases |ws|
  {
    if ws == [] then t else WrittenAll(Written(t, ws[0]), ws[1..])
  }

  function Urls(rows: seq<(string, R.Row)>): set<string> { set r | r in rows :: r.0 }

  lemma UrlsAppend(rows: seq<(string, R.Row)>, r: (string, R.Row))
    ensures Urls(rows + [r]) == Urls(rows) + {r.0}
  {
    assert forall x :: x in rows + [r] <==> x in rows || x == r;
  }

  /** The rows of the given URLs as they are in the table, each once. */
  predicate Listing(clients: map<string, R.Row>, urls: set<string>, rows: seq<(string, R.Row)>) {
    && Urls(rows) == urls
    && (forall i | 0 <= i < |rows| :: rows[i].0 in clients && rows[i].1 == clients[rows[i].0])
    && (forall i | 0 <= i < |rows| :: rows[i].0 !in Urls(rows[..i]))
  }

  lemma ListingGrows(clients: map<string, R.Row>, urls: set<string>, rows: seq<(string, R.Row)>, u: string)
    requires Listing(clients, urls, rows) && u in clients && u !in urls
    ensures Listing(clients, urls + {u}, rows + [(u, clients[u])])
  {
    var more := rows + [(u, clients[u])];
    assert forall r :: r in more <==> r in rows || r == (u, clients[u]);
    forall i | 0 <= i < |more| ensures more[i].0 !in Urls(more[..i]) {
      assert more[..i] == rows[..i];
    }
  }

  /** A DynamoDB table. Any call may raise, and a write that raises may or may not have happened. */
  class Store {
    var clients: map<string, R.Row>
    var index: map<R.Id, R.Entry>
    var lock: Option<L.Item>
    /** How many calls have raised. */
    ghost var failures: nat

    function Rows(): R.Table
      reads this
    {
      R.Table(clients, index)
    }

    constructor ()
      ensures Rows() == R.EMPTY.table && lock == None && failures == 0
    {
      clients, index, lock, failures := map[], map[], None, 0;
    }

    /** One call to the table; it may raise. */
    method Answered() returns (ok: bool)
      modifies this`failures
      ensures failures == old(failures) + if ok then 0 else 1
    {
      ok := *;
      if !ok { failures := failures + 1; }
    }

    method GetClient(url: string) returns (ok: bool, row: Option<R.Row>)
      modifies this`failures
      ensures failures == old(failures) + if ok then 0 else 1
      ensures ok ==> row == if url in clients then Some(clients[url]) else None
    {
      ok := Answered();
      row := if url in clients then Some(clients[url]) else None;
    }

    /** A scan, page after page, of a table nobody else writes meanwhile. */
    method ListClients() returns (ok: bool, rows: seq<(string, R.Row)>)
      modifies this`failures
      ensures failures == old(failures) + if ok then 0 else 1
      ensures ok ==> Listing(clients, clients.Keys, rows)
    {
      rows, ok := [], true;
      var todo := clients.Keys;
      while todo != {}
        invariant ok && failures == old(failures) && todo <= clients.Keys && Listing(clients, clients.Keys - todo, rows)
        decreases |todo|
      {
        ok := Answered();
        if !ok { return; }
        var u :| u in todo;
        ListingGrows(clients, clients.Keys - todo, rows, u);
        assert clients.Keys - todo + {u} == clients.Keys - (todo - {u});
        rows, todo := rows + [(u, clients[u])], todo - {u};
      }
      assert clients.Keys - todo == clients.Keys;
    }

    /** All the items, or none. */
    method Transact(items: seq<Write>) returns (ok: bool, ghost applied: bool)
      modifies this`clients, this`index, this`failures
      ensures failures == old(failures) + if ok then 0 else 1
      ensures Rows() == if applied then WrittenAll(old(Rows()), items) else old(Rows())
      ensures ok ==> applied
    {
      var happens: bool := *;
      applied := happens;
      if happens {
        var staged := Rows();
        for i := 0 to |items|
          invariant WrittenAll(staged, items[i..]) == WrittenAll(old(Rows()), items)
        {
          staged := Written(staged, items[i]);
        }
        clients, index := staged.clients, staged.index;
        ok := Answered();
      } else {
        ok, failures := false, failures + 1;
      }
    }

    method PutClient(url: string, row: R.Row, retire: Option<R.Retirement>) returns (ok: bool, ghost applied: bool)
      modifies this`clients, this`index, this`failures
      ensures failures == old(failures) + if ok then 0 else 1
      ensures Rows() == if applied then R.PutRows(old(Rows()), url, row, retire) else old(Rows())
      ensures ok ==> applied
    {
      var items := [PutClientItem(url, row), PutIndexItem(row.id, R.Entry(url, row.enabled))];
      if retire.Some? && retire.value.id != "" && retire.value.id != row.id {
        var gone := retire.value;
        var retiredUrl := R.RetiredUrl(gone.id);
        items := items + [PutIndexItem(gone.id, R.Entry(retiredUrl, false))];
        if gone.deleteAfter.Some? {
          items := items + [PutClientItem(retiredUrl, R.RetiredRow(gone.id, gone.deleteAfter))];
        }
      }
      PutItems(Rows(), url, row, retire, items);
      ok, applied := Transact(items);
    }

    method SetEnabled(url: string, row: R.Row, enabled: bool, deleteAfter: Option<int>)
      returns (ok: bool, ghost applied: bool)
      modifies this`clients, this`index, this`failures
      ensures failures == old(failures) + if ok then 0 else 1
      ensures Rows() ==
        if applied
        then R.PutRows(old(Rows()), url, row.(enabled := enabled, deleteAfter := deleteAfter), None)
        else old(Rows())
      ensures ok ==> applied
    {
      ok, applied := PutClient(url, row.(enabled := enabled, deleteAfter := deleteAfter), None);
    }

    method DeleteClientRows(url: string, id: R.Id) returns (ok: bool, ghost applied: bool)
      modifies this`clients, this`index, this`failures
      ensures failures == old(failures) + if ok then 0 else 1
      ensures Rows() == if applied then R.DeleteRows(old(Rows()), url, id) else old(Rows())
      ensures ok ==> applied
    {
      var items := [DeleteClientItem(url), DeleteIndexItem(id)];
      ghost var t1 := Written(Rows(), items[0]);
      assert items[1..] == [DeleteIndexItem(id)] && items[1..][1..] == [];
      assert WrittenAll(Rows(), items) == WrittenAll(t1, items[1..]) == WrittenAll(Written(t1, items[1]), []);
      ok, applied := Transact(items);
    }

    /** Ok, LockHeld, or (None) some other failure, after which the item may have been written. */
    method AcquireLock(owner: L.Owner, now: int, ttlSeconds: int) returns (taken: Option<bool>)
      modifies this`lock, this`failures
      ensures failures == old(failures) + if taken.Some? then 0 else 1
      ensures taken == Some(true) ==> L.MayTake(old(lock), now) && lock == L.Take(old(lock), owner, now, ttlSeconds)
      ensures taken == Some(false) ==> !L.MayTake(old(lock), now) && lock == old(lock)
      ensures lock in {old(lock), L.Take(old(lock), owner, now, ttlSeconds)}
    {
      var happens := Answered();
      if !happens { return None; }
      var free := L.MayTake(lock, now);
      if free {
        lock := Some(L.Item(owner, now + ttlSeconds));
      }
      var answered := Answered();
      taken := if answered then Some(free) else None;
    }

    /** Deletes the item only if this owner still holds it; a failed condition is ignored. */
    method ReleaseLock(owner: L.Owner) returns (ok: bool)
      modifies this`lock, this`failures
      ensures failures == old(failures) + if ok then 0 else 1
      ensures ok ==> lock == L.GiveBack(old(lock), owner)
      ensures lock in {old(lock), L.GiveBack(old(lock), owner)}
    {
      ok := Answered();
      if ok && lock.Some? && lock.value.owner == owner {
        lock := None;
      }
    }
  }

  /** The item list of put_client is its specification, whichever items it has. */
  lemma PutItems(t: R.Table, url: string, row: R.Row, retire: Option<R.Retirement>, items: seq<Write>)
    requires var first := [PutClientItem(url, row), PutIndexItem(row.id, R.Entry(url, row.enabled))];
      if retire.None? || retire.value.id == "" || retire.value.id == row.id then items == first
      else
        var gone := retire.value;
        var second := first + [PutIndexItem(gone.id, R.Entry(R.RetiredUrl(gone.id), false))];
        items == if gone.deleteAfter.None? then second
                 else second + [PutClientItem(R.RetiredUrl(gone.id), R.RetiredRow(gone.id, gone.deleteAfter))]
    ensures WrittenAll(t, items) == R.PutRows(t, url, row, retire)
  {
    var t1, t2 := Written(t, items[0]), Written(Written(t, items[0]), items[1]);
    assert WrittenAll(t, items) == WrittenAll(t1, items[1..]) == WrittenAll(t2, items[1..][1..]);
    if |items| > 2 {
      var rest := items[1..][1..];
      assert rest == items[2..];
      var t3 := Written(t2, rest[0]);
      assert WrittenAll(t2, rest) == WrittenAll(t3, rest[1..]);
      if |items| == 4 {
        assert rest[1..][1..] == [];
      }
    }
  }
}
