/** What a visit asks for, and what it puts on record. */
module Records {
  import opened Wrappers
  import opened Registry
  import opened Reaction
  import opened Steps
  import opened Visits
  import opened History
  import opened Fetcher
  import CimdUrl

  /**
    The cache of an enabled row is respected exactly until its time: before it an unforced visit asks
    nobody and changes nothing, and from then on a 304 is asked for and believed, for as long as its
    own headers say.
    */
  lemma CacheIsRespectedIff(row: Row, alive: bool, v: Visit)
    requires row.enabled && CimdUrl.AcceptableUrl(v.url, v.cfg.hostRule)
    requires v.doc.Reply? && v.doc.status == 304 && row.etag.Some? && row.etag.value != ""
    requires forall r | r in row.redirectUris :: v.cfg.uriRule(r)
    ensures React(Some(row), alive, v) ==
      if v.force || row.cacheUntil <= v.now
      then
        var until := v.now + Lifetime(v.doc.headers, v.cfg.cacheMin, v.cfg.cacheMax);
        Plan([Put(v.url, row.(fetchedAt := v.now, cacheUntil := until), None)], Validated)
      else Plan([], Unconfirmed)
  {
    hide CimdUrl.AcceptableUrl, Lifetime;
  }

  lemma CachedRowsAreLeft(row: Row, alive: bool, v: Visit)
    requires row.enabled && CimdUrl.AcceptableUrl(v.url, v.cfg.hostRule) && !v.force && v.now < row.cacheUntil
    ensures React(Some(row), alive, v) == Plan([], Unconfirmed)
  {
    hide CimdUrl.AcceptableUrl;
  }

  lemma ForbidsStorageIff(h: Headers)
    ensures ForbidsStorage(h) <==> Unstorable(h)
  {}

  /** The row after a visit that wrote a document, with every member told by the answers or the row before. */
  predicate Records(stored: Option<Row>, v: Visit, row: Row)
    requires Answer(stored, v).Loaded?
  {
    var d, h := Answer(stored, v).document, Answer(stored, v).headers;
    && row.clientName == d.clientName && row.redirectUris == d.redirectUris
    && row.etag == (if Unstorable(h) then None else h.etag)
    && row.enabled && row.deleteAfter == None && row.fetchedAt == v.now
    && (if KeysValidated(v)
        then && row.cacheUntil == v.now + Lifetime(h, v.cfg.cacheMin, v.cfg.cacheMax)
             && row.fingerprint == Some(AnsweredFingerprint(v))
             && row.keysFetchedAt == (if d.jwksUri.Some? then Some(v.now) else None)
             && row.keys == (if Unstorable(h) || d.jwksUri.None? then None else Some(Interpret(v.jwks, None).document))
        else && stored.Some? && row.cacheUntil == v.now
             && row.fingerprint == stored.value.fingerprint && row.keysFetchedAt == stored.value.keysFetchedAt
             && row.keys == (if Unstorable(h) then None else stored.value.keys))
  }

  lemma WrittenIsRecorded(stored: Option<Row>, v: Visit, row: Row)
    requires Renews(stored, v, row) || Stales(stored, v, row)
    ensures Answer(stored, v).Loaded? && Records(stored, v, row)
  {
    SameDocument(stored, v);
    ForbidsStorageIff(Answer(stored, v).headers);
    hide DocumentOk, Answer, Interpret, Lifetime, ForbidsStorage, Unstorable;
  }

  /** A visit that writes a document leaves its members, the time, and what is known of its keys. */
  lemma DocumentIsRecorded(s: State, step: Step, url: string)
    requires Settled(s) && Valid(s, step) && CimdUrl.IsWeb(url)
    requires step.Visited? && step.v.url == url && WritesDocument(s, step)
    ensures Stored(Do(s, step), url).Some? && Answer(Stored(s, url), step.v).Loaded?
    ensures Records(Stored(s, url), step.v, Stored(Do(s, step), url).value)
  {
    hide Settled, Valid, Do, CimdUrl.IsWeb, Renews, Stales, Records, Answer, Effects, Complete;
    StepRows(s, step, url);
    WrittenIsRecorded(Stored(s, url), step.v, RowAfter(s, step).value);
  }
}
