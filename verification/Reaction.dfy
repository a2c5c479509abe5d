/**
  The reaction matrix of one URL as a plan: which effects, in which order, and what the visit may
  claim afterwards.
  */
module Reaction {
  import opened Wrappers
  import opened Registry
  import opened Fetcher
  import CimdUrl

  /**
    A client metadata document. `otherRules` stands for the checks on its other members and on the
    text of the name.
    */
  datatype Document = Document(
    clientId: string,
    clientName: string,
    redirectUris: seq<string>,
    jwks: Option<string>,
    jwksUri: Option<string>,
    otherRules: bool)

  datatype Settings = Settings(
    allowed: seq<string>,
    accessSeconds: nat,
    cacheMin: nat,
    cacheMax: nat,
    maxStale: nat,
    maxRedirectUris: nat,
    hostRule: string -> bool,
    uriRule: string -> bool)

  /** One call of _reconcile_url together with everything the outside world answers during it. */
  datatype Visit = Visit(
    cfg: Settings,
    url: string,
    force: bool,
    now: int,
    doc: Response<Document>,
    jwks: Response<string>,
    newId: Id)

  datatype Verdict = Validated | Unconfirmed | Raised

  datatype Plan = Plan(effects: seq<Effect>, verdict: Verdict)

  predicate UrisOk(cfg: Settings, uris: seq<string>) { forall r | r in uris :: cfg.uriRule(r) }

  /** validate_document finds no problem. */
  predicate DocumentOk(cfg: Settings, doc: Document, url: string) {
    && doc.clientId == url
    && 0 < |doc.redirectUris| <= cfg.maxRedirectUris
    && UrisOk(cfg, doc.redirectUris)
    && (doc.jwksUri.Some? ==> "https://" <= doc.jwksUri.value)
    && doc.otherRules
  }

  function Disabled(row: Row, deleteAfter: Option<int>): Row { row.(enabled := false, deleteAfter := deleteAfter) }

  /** There is a row, and its client is being served. */
  predicate Usable(stored: Option<Row>) { stored.Some? && stored.value.enabled }

  /** Stop serving the client, if it was being served. */
  function Disable(url: string, stored: Option<Row>): Plan {
    Plan(if stored.Some? && stored.value.enabled then [Put(url, Disabled(stored.value, None), None)] else [],
         Unconfirmed)
  }

  function StoredEtag(stored: Option<Row>): Option<string> { if stored.Some? then stored.value.etag else None }

  /** The answer to the document request; the stored ETag decides whether 304 is an answer at all. */
  function Answer(stored: Option<Row>, v: Visit): Fetched<Document> { Interpret(v.doc, StoredEtag(stored)) }

  predicate Skipped(stored: Option<Row>, v: Visit) {
    stored.Some? && stored.value.enabled && !v.force && v.now < stored.value.cacheUntil
  }

  // ---- key material

  predicate KeysAnswered(doc: Document, jwks: Response<string>) {
    doc.jwksUri.None? || Interpret(jwks, None).Loaded?
  }

  function KeysContent(doc: Document, jwks: Response<string>): Option<string> {
    if doc.jwksUri.Some? && Interpret(jwks, None).Loaded? then Some(Interpret(jwks, None).document) else None
  }

  function FingerprintOf(doc: Document, jwks: Response<string>): Fingerprint {
    Fingerprint(doc.jwks, doc.jwksUri, KeysContent(doc, jwks))
  }

  // ---- the rows a visit may write

  function Extended(row: Row, v: Visit, h: Headers): Row {
    row.(cacheUntil := v.now + Lifetime(h, v.cfg.cacheMin, v.cfg.cacheMax), fetchedAt := v.now)
  }

  /** A row from a valid document whose key material was validated too. */
  function FreshRow(v: Visit, doc: Document, h: Headers, id: Id): Row {
    Row(id, doc.clientName, doc.redirectUris, if ForbidsStorage(h) then None else h.etag,
        v.now, v.now + Lifetime(h, v.cfg.cacheMin, v.cfg.cacheMax),
        Some(FingerprintOf(doc, v.jwks)), if ForbidsStorage(h) then None else KeysContent(doc, v.jwks),
        if doc.jwksUri.Some? then Some(v.now) else None, true, None)
  }

  /** A row from a valid document whose declared keys could not be fetched: old fingerprint, already stale. */
  function StaleRow(row: Row, v: Visit, doc: Document, h: Headers, id: Id): Row {
    Row(id, doc.clientName, doc.redirectUris, if ForbidsStorage(h) then None else h.etag,
        v.now, v.now, row.fingerprint, if ForbidsStorage(h) then None else row.keys, row.keysFetchedAt, true, None)
  }

  // ---- the matrix

  function OnUnmodified(row: Row, v: Visit, h: Headers): Plan {
    if !UrisOk(v.cfg, row.redirectUris) then Disable(v.url, Some(row))
    else Plan([Put(v.url, Extended(row, v, h), None)], if row.enabled then Validated else Unconfirmed)
  }

  predicate KeysTooOld(row: Row, v: Visit) {
    row.enabled && v.now - (if row.keysFetchedAt.Some? then row.keysFetchedAt.value else 0) > v.cfg.maxStale
  }

  function Register(v: Visit, row: Row, verdict: Verdict): Plan {
    Plan([Create(v.newId, row.redirectUris), Put(v.url, row.(id := v.newId), None)], verdict)
  }

  /** A new app client takes over and the previous one is retired in the same transaction. */
  function Replace(v: Visit, row: Row, oldId: Id, verdict: Verdict): Plan {
    Plan([Create(v.newId, row.redirectUris),
          Put(v.url, row.(id := v.newId), Some(Retirement(oldId, Some(v.now + v.cfg.accessSeconds))))], verdict)
  }

  /** Keep the app client; its callbacks change first when the redirect URIs did. */
  function Refresh(v: Visit, before: Row, row: Row, verdict: Verdict): Plan {
    Plan((if multiset(before.redirectUris) != multiset(row.redirectUris)
          then [Update(row.id, row.redirectUris)] else [])
         + [Put(v.url, row, None)], verdict)
  }

  /** Which app client a new row gets. */
  function Commit(stored: Option<Row>, alive: bool, v: Visit, row: Row, verdict: Verdict): Plan {
    if stored.None? || stored.value.id == "" then Register(v, row, verdict)
    else
      var before := stored.value;
      if before.fingerprint.Some? && before.fingerprint != row.fingerprint then Replace(v, row, before.id, Validated)
      else if !alive then Replace(v, row, before.id, verdict)
      else Refresh(v, before, row.(id := before.id), verdict)
  }

  function OnDocument(stored: Option<Row>, alive: bool, v: Visit, doc: Document, h: Headers): Plan {
    if !DocumentOk(v.cfg, doc, v.url) then Disable(v.url, stored)
    else if KeysAnswered(doc, v.jwks) then Commit(stored, alive, v, FreshRow(v, doc, h, ""), Validated)
    else if stored.None? then Plan([], Raised)
    else if KeysTooOld(stored.value, v) then Disable(v.url, stored)
    else Commit(stored, alive, v, StaleRow(stored.value, v, doc, h, ""), Unconfirmed)
  }

  predicate TooStale(stored: Option<Row>, v: Visit) {
    stored.Some? && v.now - stored.value.fetchedAt > v.cfg.maxStale
  }

  /** The whole matrix. `alive` says whether Cognito still has the stored app client. */
  function React(stored: Option<Row>, alive: bool, v: Visit): Plan {
    if !CimdUrl.AcceptableUrl(v.url, v.cfg.hostRule) then Plan([], Raised)
    else if Skipped(stored, v) then Plan([], Unconfirmed)
    else match Answer(stored, v)
      case Failed => if TooStale(stored, v) then Disable(v.url, stored) else Plan([], Unconfirmed)
      case Unmodified(h) => OnUnmodified(stored.value, v, h)
      case Loaded(doc, h) => OnDocument(stored, alive, v, doc, h)
  }
}
