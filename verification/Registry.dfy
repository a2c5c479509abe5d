/**
  The mapping table, the Cognito app clients, and the atomic effects the registrar has on them.
  Every external call of the registrar is one effect; what holds after every legal effect holds
  wherever an invocation is cut off, and whenever a reader looks.
  */
module Registry {
  import opened Wrappers
  import CimdUrl

  /** App client ids are chosen by Cognito and never handed out twice. */
  type Id = string

  /** The fingerprint of a client's key material, as an injective function of that material. */
  datatype Fingerprint = Fingerprint(jwks: Option<string>, jwksUri: Option<string>, content: Option<string>)

  /** A CLIENT#url row. */
  datatype Row = Row(
    id: Id,
    clientName: string,
    redirectUris: seq<string>,
    etag: Option<string>,
    fetchedAt: int,
    cacheUntil: int,
    fingerprint: Option<Fingerprint>,
    keys: Option<string>,
    keysFetchedAt: Option<int>,
    enabled: bool,
    deleteAfter: Option<int>)

  /** An INDEX#COGNITO#id row. */
  datatype Entry = Entry(url: string, enabled: bool)

  datatype Table = Table(clients: map<string, Row>, index: map<Id, Entry>)

  datatype Retirement = Retirement(id: Id, deleteAfter: Option<int>)

  const RETIRED := "retired://"
  const FIXTURE := "fixture://"

  function RetiredUrl(id: Id): string { RETIRED + id }

  function RetiredRow(id: Id, deleteAfter: Option<int>): Row {
    Row(id, "retired", [], None, 0, 0, None, None, None, false, deleteAfter)
  }

  /** The transaction of put_client. */
  function PutRows(t: Table, url: string, row: Row, retire: Option<Retirement>): Table {
    var t1 := Table(t.clients[url := row], t.index[row.id := Entry(url, row.enabled)]);
    if retire.None? || retire.value.id == "" || retire.value.id == row.id then t1
    else
      var gone := retire.value;
      Table(if gone.deleteAfter.None? then t1.clients
            else t1.clients[RetiredUrl(gone.id) := RetiredRow(gone.id, gone.deleteAfter)],
            t1.index[gone.id := Entry(RetiredUrl(gone.id), false)])
  }

  /** The transaction of delete_client_rows. */
  function DeleteRows(t: Table, url: string, id: Id): Table {
    Table(t.clients - {url}, t.index - {id})
  }

  /**
    Everything outside the registrar's own memory. `pending` is the app client the running
    invocation has created and not yet written to the table; `orphans` are those of earlier
    invocations that never got there.
    */
  datatype State = State(table: Table, apps: map<Id, seq<string>>, issued: set<Id>, pending: Option<Id>,
                         orphans: set<Id>)

  const EMPTY := State(Table(map[], map[]), map[], {}, None, {})

  datatype Effect =
    | Create(id: Id, callbacks: seq<string>)
    | Update(id: Id, callbacks: seq<string>)
    | Remove(id: Id)
    | Put(url: string, row: Row, retire: Option<Retirement>)
    | Drop(url: string, id: Id)
    | Abandon

  function Apply(s: State, e: Effect): State {
    match e
    case Create(id, callbacks) => s.(apps := s.apps[id := callbacks], issued := s.issued + {id}, pending := Some(id))
    case Update(id, callbacks) => s.(apps := s.apps[id := callbacks])
    case Remove(id) => s.(apps := s.apps - {id})
    case Put(url, row, retire) =>
      s.(table := PutRows(s.table, url, row, retire), pending := if s.pending == Some(row.id) then None else s.pending)
    case Drop(url, id) => s.(table := DeleteRows(s.table, url, id))
    case Abandon =>
      s.(pending := None, orphans := s.orphans + if s.pending.Some? then {s.pending.value} else {})
  }

  function ApplyAll(s: State, effects: seq<Effect>): State {
    if effects == [] then s
    else Apply(ApplyAll(s, effects[..|effects| - 1]), effects[|effects| - 1])
  }

  /** When an effect is one the registrar may have: rows keep their app client or get the one just created for them. */
  predicate Legal(s: State, e: Effect) {
    match e
    case Create(id, _) => id != "" && id !in s.issued && s.pending.None?
    case Update(id, _) => id in s.apps && id in s.table.index
    case Remove(_) => true
    case Put(url, row, retire) =>
      && (row.enabled ==> row.deleteAfter.None?)
      && (if retire.Some? then
            && CimdUrl.IsWeb(url) && s.pending == Some(row.id)
            && url in s.table.clients && s.table.clients[url].id == retire.value.id && retire.value.deleteAfter.Some?
          else if url in s.table.clients then
            s.table.clients[url].id == row.id && (row.enabled ==> CimdUrl.IsWeb(url))
          else CimdUrl.IsWeb(url) && s.pending == Some(row.id))
    case Drop(url, id) => url in s.table.clients && s.table.clients[url].id == id && id !in s.apps
    case Abandon => true
  }

  // ---- the invariant

  /** CLIENT rows and INDEX rows name each other, with the same enabled flag. */
  predicate Bijection(t: Table) {
    && (forall u | u in t.clients ::
          t.clients[u].id in t.index && t.index[t.clients[u].id] == Entry(u, t.clients[u].enabled))
    && (forall i | i in t.index :: t.index[i].url in t.clients && t.clients[t.index[i].url].id == i)
  }

  predicate RowOk(url: string, row: Row) {
    && row.id != ""
    && (CimdUrl.IsWeb(url) || (url == RetiredUrl(row.id) && !row.enabled))
    && (row.enabled ==> row.deleteAfter.None?)
  }

  /** Every app client is named by a row, or is one that was created and never written. */
  predicate AppsAccounted(s: State) {
    && s.apps.Keys <= s.issued && s.orphans <= s.issued && s.table.index.Keys <= s.issued
    && s.orphans !! s.table.index.Keys
    && (s.pending.Some? ==>
          && s.pending.value in s.issued && s.pending.value !in s.table.index
          && s.pending.value !in s.orphans && s.pending.value != "")
    && (forall i | i in s.apps :: i in s.table.index || i in s.orphans || s.pending == Some(i))
  }

  predicate Inv(s: State) {
    && Bijection(s.table)
    && (forall u | u in s.table.clients :: RowOk(u, s.table.clients[u]))
    && AppsAccounted(s)
  }

  lemma RetiredUrlInjective(a: Id, b: Id)
    requires RetiredUrl(a) == RetiredUrl(b)
    ensures a == b
  {
    assert RetiredUrl(a)[|RETIRED|..] == a && RetiredUrl(b)[|RETIRED|..] == b;
  }

  lemma RetiredIsNotWeb(id: Id)
    ensures !CimdUrl.IsWeb(RetiredUrl(id)) && RetiredUrl(id)[..|RETIRED|] == RETIRED
  {
    assert RetiredUrl(id)[0] == 'r';
  }

  /** Only a row that uses the id can sit under the id's retired URL. */
  lemma NoRetiredRowYet(s: State, id: Id)
    requires Inv(s) && (id in s.table.index ==> s.table.index[id].url != RetiredUrl(id))
    ensures RetiredUrl(id) !in s.table.clients
  {
    RetiredIsNotWeb(id);
    if RetiredUrl(id) in s.table.clients {
      RetiredUrlInjective(id, s.table.clients[RetiredUrl(id)].id);
    }
  }

  lemma PlainKeepsBijection(t: Table, url: string, row: Row)
    requires Bijection(t) && (if url in t.clients then t.clients[url].id == row.id else row.id !in t.index)
    ensures Bijection(PutRows(t, url, row, None))
    ensures PutRows(t, url, row, None).index.Keys == t.index.Keys + {row.id}
  {}

  /** Writing a row for an app client that is already named, or for the pending one, keeps the accounts. */
  lemma NamingKeepsAccounts(s: State, s': State, id: Id)
    requires AppsAccounted(s) && (id in s.table.index || s.pending == Some(id))
    requires s' == s.(table := s'.table, pending := if s.pending == Some(id) then None else s.pending)
    requires s'.table.index.Keys == s.table.index.Keys + {id}
    ensures AppsAccounted(s')
  {
    assert forall i :: i in s'.table.index <==> i in s.table.index || i == id;
  }

  lemma PlainPutKeepsInv(s: State, url: string, row: Row)
    requires Inv(s) && Legal(s, Put(url, row, None))
    ensures Inv(Apply(s, Put(url, row, None)))
  {
    hide CimdUrl.IsWeb;
    PlainKeepsBijection(s.table, url, row);
    hide Bijection;
    var s' := Apply(s, Put(url, row, None));
    assert s'.table.clients == s.table.clients[url := row];
    hide PutRows, AppsAccounted;
    NamingKeepsAccounts(s, s', row.id);
  }

  lemma RetiringKeepsBijection(t: Table, url: string, row: Row, gone: Retirement)
    requires Bijection(t) && url in t.clients && t.clients[url].id == gone.id && gone.deleteAfter.Some? && gone.id != ""
    requires row.id !in t.index && RetiredUrl(gone.id) !in t.clients
    ensures var t' := PutRows(t, url, row, Some(gone));
      && Bijection(t')
      && t'.clients == t.clients[url := row][RetiredUrl(gone.id) := RetiredRow(gone.id, gone.deleteAfter)]
      && t'.index.Keys == t.index.Keys + {row.id}
  {
    var t' := PutRows(t, url, row, Some(gone));
    forall i | i in t'.index ensures t'.index[i].url in t'.clients && t'.clients[t'.index[i].url].id == i {
      if i != row.id && i != gone.id {
        assert t'.index[i] == t.index[i] && t.index[i].url != url;
      }
    }
  }

  lemma RetiringPutKeepsInv(s: State, url: string, row: Row, gone: Retirement)
    requires Inv(s) && Legal(s, Put(url, row, Some(gone)))
    ensures Inv(Apply(s, Put(url, row, Some(gone))))
  {
    hide CimdUrl.IsWeb;
    RetiredIsNotWeb(gone.id);
    assert s.table.index[gone.id].url == url;
    NoRetiredRowYet(s, gone.id);
    RetiringKeepsBijection(s.table, url, row, gone);
    hide PutRows, Bijection, AppsAccounted;
    var s' := Apply(s, Put(url, row, Some(gone)));
    NamingKeepsAccounts(s, s', row.id);
  }

  lemma DropKeepsInv(s: State, url: string, id: Id)
    requires Inv(s) && Legal(s, Drop(url, id))
    ensures Inv(Apply(s, Drop(url, id)))
  {
    hide CimdUrl.IsWeb;
  }

  /** The invariant survives every legal effect, so it holds wherever an invocation is cut off. */
  lemma LegalEffectKeepsInv(s: State, e: Effect)
    requires Inv(s) && Legal(s, e)
    ensures Inv(Apply(s, e))
  {
    match e
    case Put(url, row, retire) =>
      if retire.Some? { RetiringPutKeepsInv(s, url, row, retire.value); } else { PlainPutKeepsInv(s, url, row); }
    case Drop(url, id) => DropKeepsInv(s, url, id);
    case _ =>
  }
}
