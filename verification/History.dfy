/** Where the contents of a row come from, over every run that starts with nothing registered. */
module History {
  import opened Wrappers
  import opened Registry
  import opened Reaction
  import opened Steps
  import opened Runs
  import opened Visits
  import opened Fetcher
  import CimdUrl

  // ---- key material

  function AnsweredFingerprint(v: Visit): Fingerprint
    requires KeysValidated(v)
  {
    FingerprintOf(Interpret(v.doc, None).document, v.jwks)
  }

  /** Two visits found the same key material: what the document declares, and what is behind its jwks_uri. */
  predicate SameKeys(v: Visit, w: Visit)
    requires KeysValidated(v) && KeysValidated(w)
  {
    var a, b := Interpret(v.doc, None).document, Interpret(w.doc, None).document;
    && a.jwks == b.jwks && a.jwksUri == b.jwksUri
    && (a.jwksUri.Some? ==> Interpret(v.jwks, None).document == Interpret(w.jwks, None).document)
  }

  /** A fingerprint says all about the key material and nothing else. */
  lemma FingerprintsAgreeIff(v: Visit, w: Visit)
    requires KeysValidated(v) && KeysValidated(w)
    ensures AnsweredFingerprint(v) == AnsweredFingerprint(w) <==> SameKeys(v, w)
  {
    hide DocumentOk, Interpret;
  }

  /** The last committed visit to `url` that validated key material, since the row was last deleted. */
  ghost function LastRead(steps: seq<Step>, url: string): (last: Option<Visit>)
    ensures last.Some? ==> KeysValidated(last.value)
  {
    if steps == [] then None
    else
      var n := |steps| - 1;
      var step := steps[n];
      if Subject(step) != url || !Committed(DoAll(EMPTY, steps[..n]), step) then LastRead(steps[..n], url)
      else match step
        case Visited(v, _) => if KeysValidated(v) then Some(v) else LastRead(steps[..n], url)
        case Retire(_, _, _, _) => LastRead(steps[..n], url)
        case _ => None
  }

  /** When the keys behind jwks_uri were fetched, if the document names any. */
  function ReadTime(v: Visit): Option<int>
    requires KeysValidated(v)
  {
    if Interpret(v.doc, None).document.jwksUri.Some? then Some(v.now) else None
  }

  lemma RenewsMeansKeysValidated(stored: Option<Row>, v: Visit, row: Row)
    ensures Renews(stored, v, row) ==>
      KeysValidated(v) && row.fingerprint == Some(AnsweredFingerprint(v)) && row.keysFetchedAt == ReadTime(v)
    ensures Disables(stored, v, row) || Extends(stored, v, row) || Stales(stored, v, row) ==>
      stored.Some? && row.fingerprint == stored.value.fingerprint && row.keysFetchedAt == stored.value.keysFetchedAt
    ensures Disables(stored, v, row) || Extends(stored, v, row) || Stales(stored, v, row) ==> !KeysValidated(v)
  {
    hide DocumentOk, UrisOk, FingerprintOf, Lifetime, KeysContent;
  }

  lemma FingerprintVisit(stored: Option<Row>, alive: bool, v: Visit)
    requires React(stored, alive, v).effects != []
    ensures var e := Last(React(stored, alive, v).effects);
      && e.Put?
      && e.row.fingerprint == (if KeysValidated(v) then Some(AnsweredFingerprint(v))
                               else if stored.Some? then stored.value.fingerprint else None)
      && e.row.keysFetchedAt == (if KeysValidated(v) then ReadTime(v)
                                 else if stored.Some? then stored.value.keysFetchedAt else None)
      && (stored.None? ==> KeysValidated(v))
  {
    hide React, KeysValidated, AnsweredFingerprint, ReadTime, Disables, Extends, Renews, Stales;
    PlanRow(stored, alive, v);
    RenewsMeansKeysValidated(stored, v, Last(React(stored, alive, v).effects).row);
  }

  lemma FingerprintStep(s: State, step: Step)
    requires Settled(s) && Valid(s, step) && CimdUrl.IsWeb(Subject(step)) && Committed(s, step)
    ensures var after := RowAfter(s, step);
      match step
      case Visited(v, _) =>
        && after.Some?
        && after.value.fingerprint == (if KeysValidated(v) then Some(AnsweredFingerprint(v))
                                       else if Stored(s, v.url).Some? then Stored(s, v.url).value.fingerprint else None)
        && after.value.keysFetchedAt == (if KeysValidated(v) then ReadTime(v)
                                         else if Stored(s, v.url).Some? then Stored(s, v.url).value.keysFetchedAt
                                         else None)
        && (Stored(s, v.url).None? ==> KeysValidated(v))
      case Retire(_, url, _, _) =>
        && after.Some? && Stored(s, url).Some? && after.value.fingerprint == Stored(s, url).value.fingerprint
        && after.value.keysFetchedAt == Stored(s, url).value.keysFetchedAt
      case _ => after.None?
  {
    assert !CimdUrl.IsWeb("");
    hide React, KeysValidated, AnsweredFingerprint, ReadTime, Valid, Settled, CimdUrl.IsWeb;
    if step.Visited? { FingerprintVisit(Stored(s, step.v.url), Alive(s, step.v.url), step.v); }
  }

  /**
    The stored fingerprint, and the time the keys are said to be from, are always those of the last
    committed visit whose key material was validated.
    */
  lemma {:induction false} FingerprintIsLastValidated(steps: seq<Step>, url: string)
    requires ValidRun(EMPTY, steps) && CimdUrl.IsWeb(url)
    ensures var row, last := Stored(DoAll(EMPTY, steps), url), LastRead(steps, url);
      && (row.Some? <==> last.Some?)
      && (row.Some? ==> row.value.fingerprint == Some(AnsweredFingerprint(last.value))
                        && row.value.keysFetchedAt == ReadTime(last.value))
  {
    hide Valid, Do, CimdUrl.IsWeb, RowAfter, KeysValidated, AnsweredFingerprint, ReadTime, Committed;
    if steps != [] {
      var n := |steps| - 1;
      var s, step := DoAll(EMPTY, steps[..n]), steps[n];
      FingerprintIsLastValidated(steps[..n], url);
      RunsKeepSettled(EMPTY, steps[..n]);
      StepRows(s, step, url);
      if Subject(step) == url {
        if Committed(s, step) { FingerprintStep(s, step); } else { UncommittedRow(s, step); }
      }
    }
  }

  lemma UncommittedRow(s: State, step: Step)
    requires !Committed(s, step)
    ensures RowAfter(s, step) == Stored(s, Subject(step))
  {}

  // ---- when a URL gets another app client

  lemma CommitIdentity(row: Row, alive: bool, v: Visit, next: Row, verdict: Verdict)
    requires row.id != "" && v.newId != row.id
    ensures var e := Commit(Some(row), alive, v, next, verdict).effects;
      && e != [] && Last(e).Put? && Last(e).row.id in {row.id, v.newId}
      && (Last(e).row.id == v.newId <==> !alive || (row.fingerprint.Some? && row.fingerprint != next.fingerprint))
  {}

  /** The material validated by the visit is not that of the row. */
  predicate NewKeys(row: Row, v: Visit) {
    KeysValidated(v) && row.fingerprint.Some? && row.fingerprint != Some(AnsweredFingerprint(v))
  }

  /** What the effects of a plan say about the row's app client. */
  predicate Identity(row: Row, alive: bool, v: Visit, e: seq<Effect>) {
    e != [] ==>
      && Last(e).Put? && Last(e).row.id in {row.id, v.newId}
      && (Last(e).row.id == v.newId <==>
            Answer(Some(row), v).Loaded? && Last(e).row.enabled && (!alive || NewKeys(row, v)))
  }

  lemma DocumentIdentity(row: Row, alive: bool, v: Visit)
    requires row.id != "" && v.newId != row.id && Answer(Some(row), v).Loaded?
    ensures var a := Answer(Some(row), v);
      Identity(row, alive, v, OnDocument(Some(row), alive, v, a.document, a.headers).effects)
  {
    hide Commit, DocumentOk, KeysAnswered, KeysTooOld, Lifetime, KeysContent, Interpret, Answer, FingerprintOf;
    var a := Answer(Some(row), v);
    SameDocument(Some(row), v);
    CommitIdentity(row, alive, v, FreshRow(v, a.document, a.headers, ""), Validated);
    CommitRow(Some(row), alive, v, FreshRow(v, a.document, a.headers, ""), Validated);
    CommitIdentity(row, alive, v, StaleRow(row, v, a.document, a.headers, ""), Unconfirmed);
    CommitRow(Some(row), alive, v, StaleRow(row, v, a.document, a.headers, ""), Unconfirmed);
  }

  /**
    A plan moves the row to the new app client exactly when it writes a document and Cognito lost
    the old one or newly validated keys differ.
    */
  lemma PlanIdentity(row: Row, alive: bool, v: Visit)
    requires row.id != "" && v.newId != row.id
    ensures Identity(row, alive, v, React(Some(row), alive, v).effects)
  {
    hide OnDocument, CimdUrl.AcceptableUrl, UrisOk, Lifetime, Answer, Interpret, DocumentOk, KeysAnswered,
      FingerprintOf, NewKeys;
    UnmodifiedNeedsARow(Some(row), v);
    if Answer(Some(row), v).Loaded? { DocumentIdentity(row, alive, v); }
  }

  /** A committed visit writes a document exactly if it loads one and leaves the client enabled. */
  lemma WritesDocumentIff(s: State, step: Step)
    requires step.Visited? && Committed(s, step)
    ensures Last(Effects(s, step)).Put? && RowAfter(s, step) == Some(Last(Effects(s, step)).row)
    ensures WritesDocument(s, step) <==>
      Answer(Stored(s, step.v.url), step.v).Loaded? && RowAfter(s, step).value.enabled
  {
    var stored, v := Stored(s, step.v.url), step.v;
    PlanRow(stored, Alive(s, v.url), v);
    hide React, Answer, DocumentOk, KeysAnswered, UrisOk, FingerprintOf, KeysContent, Lifetime, KeysTooOld, Stored,
      Alive;
  }

  lemma IdentityStep(s: State, step: Step)
    requires Settled(s) && Valid(s, step) && step.Visited? && Committed(s, step) && Stored(s, step.v.url).Some?
    ensures RowAfter(s, step).Some?
    ensures var row := Stored(s, step.v.url).value;
      RowAfter(s, step).value.id != row.id <==>
      WritesDocument(s, step) && (!Alive(s, step.v.url) || NewKeys(row, step.v))
  {
    var row := Stored(s, step.v.url).value;
    assert RowOk(step.v.url, row) && row.id in s.issued;
    hide React, NewKeys, Inv, CimdUrl.IsWeb, Answer, WritesDocument;
    WritesDocumentIff(s, step);
    PlanIdentity(row, Alive(s, step.v.url), step.v);
  }

  lemma OtherStepsKeepIdentity(s: State, step: Step, url: string)
    requires Settled(s) && Valid(s, step) && CimdUrl.IsWeb(url)
    requires !(step.Visited? && step.v.url == url && Committed(s, step))
    requires Stored(s, url).Some? && Stored(Do(s, step), url).Some?
    ensures Stored(Do(s, step), url).value.id == Stored(s, url).value.id
  {
    hide Settled, Valid, Do, CimdUrl.IsWeb, React;
    StepRows(s, step, url);
  }

  /**
    Key rotation, and no false rotation: a step replaces a URL's app client exactly if it is a
    committed visit that writes a document, and either Cognito has lost the client or the newly
    validated key material differs from the material validated last.
    */
  lemma RotatesIff(steps: seq<Step>, step: Step, url: string)
    requires ValidRun(EMPTY, steps) && Valid(DoAll(EMPTY, steps), step) && CimdUrl.IsWeb(url)
    requires Stored(DoAll(EMPTY, steps), url).Some? && Stored(Do(DoAll(EMPTY, steps), step), url).Some?
    ensures var s := DoAll(EMPTY, steps);
      Stored(s, url).value.id != Stored(Do(s, step), url).value.id <==>
      && step.Visited? && step.v.url == url && WritesDocument(s, step)
      && (!Alive(s, url)
          || (KeysValidated(step.v) && LastRead(steps, url).Some? && !SameKeys(LastRead(steps, url).value, step.v)))
  {
    hide Valid, Do, DoAll, ValidRun, React, KeysValidated, AnsweredFingerprint, ReadTime, LastRead, SameKeys, Settled,
      CimdUrl.IsWeb, Alive, Stored, Effects, Complete, Renews, Stales;
    var s := DoAll(EMPTY, steps);
    ReachableIsSettled(steps);
    FingerprintIsLastValidated(steps, url);
    if step.Visited? && step.v.url == url && Committed(s, step) {
      StepRows(s, step, url);
      IdentityStep(s, step);
      if KeysValidated(step.v) { FingerprintsAgreeIff(LastRead(steps, url).value, step.v); }
    } else {
      OtherStepsKeepIdentity(s, step, url);
    }
  }

  // ---- confirmation

  /** The document was confirmed: a 304 whose stored URIs pass the current rules, or a 200 with a valid document. */
  predicate DocumentConfirmed(stored: Option<Row>, v: Visit) {
    var a := Answer(stored, v);
    || (a.Unmodified? && stored.Some? && UrisOk(v.cfg, stored.value.redirectUris))
    || (a.Loaded? && DocumentOk(v.cfg, a.document, v.url))
  }

  /** ... and, when there was a document to read, its key material was validated along with it. */
  predicate FullyConfirmed(stored: Option<Row>, v: Visit) {
    DocumentConfirmed(stored, v) && (Answer(stored, v).Loaded? ==> KeysValidated(v))
  }

  predicate TtlOk(v: Visit, row: Row) {
    row.cacheUntil == row.fetchedAt || v.cfg.cacheMin <= row.cacheUntil - row.fetchedAt <= v.cfg.cacheMax
  }

  predicate BoundsOrdered(steps: seq<Step>) {
    forall i | 0 <= i < |steps| && steps[i].Visited? :: steps[i].v.cfg.cacheMin <= steps[i].v.cfg.cacheMax
  }

  /** Step `k` is the committed visit that the row's times come from. */
  predicate TimedBy(steps: seq<Step>, k: nat, url: string, row: Row) {
    && k < |steps| && steps[k].Visited? && steps[k].v.url == url
    && var s := DoAll(EMPTY, steps[..k]);
       var v := steps[k].v;
       && Committed(s, steps[k]) && v.now == row.fetchedAt
       && DocumentConfirmed(Stored(s, url), v) && TtlOk(v, row)
       && (row.cacheUntil != row.fetchedAt ==> FullyConfirmed(Stored(s, url), v))
  }

  /** Step `k` is a committed visit that confirmed the client, keys included where there was a document to read. */
  predicate ConfirmedAt(steps: seq<Step>, k: nat, url: string) {
    && k < |steps| && steps[k].Visited? && steps[k].v.url == url
    && var s := DoAll(EMPTY, steps[..k]); Committed(s, steps[k]) && FullyConfirmed(Stored(s, url), steps[k].v)
  }

  lemma ConfirmedPrefix(steps: seq<Step>, n: nat, k: nat, url: string)
    requires n <= |steps|
    ensures ConfirmedAt(steps[..n], k, url) <==> k < n && ConfirmedAt(steps, k, url)
  {
    hide DoAll, Committed, FullyConfirmed;
    if k < n { assert steps[..n][..k] == steps[..k]; }
  }

  predicate WritesTimes(stored: Option<Row>, v: Visit, row: Row) {
    Extends(stored, v, row) || Renews(stored, v, row) || Stales(stored, v, row)
  }

  lemma WrittenTimes(stored: Option<Row>, v: Visit, row: Row)
    requires v.cfg.cacheMin <= v.cfg.cacheMax
    ensures WritesTimes(stored, v, row) ==>
      row.fetchedAt == v.now && TtlOk(v, row) && DocumentConfirmed(stored, v)
      && (row.cacheUntil != row.fetchedAt ==> FullyConfirmed(stored, v))
    ensures Disables(stored, v, row) ==>
      stored.Some? && row.fetchedAt == stored.value.fetchedAt && row.cacheUntil == stored.value.cacheUntil
  {
    SameDocument(stored, v);
    hide DocumentOk, UrisOk, FingerprintOf, KeysContent, Answer, Interpret, KeysAnswered;
  }

  lemma TimedLater(steps: seq<Step>, step: Step, k: nat, url: string, row: Row, row': Row)
    requires TimedBy(steps, k, url, row) && row'.fetchedAt == row.fetchedAt && row'.cacheUntil == row.cacheUntil
    ensures TimedBy(steps + [step], k, url, row')
  {
    hide DocumentConfirmed, FullyConfirmed, Committed, DoAll, Stored;
    assert (steps + [step])[..k] == steps[..k];
  }

  lemma TimedNow(steps: seq<Step>, step: Step, row: Row)
    requires step.Visited? && step.v.cfg.cacheMin <= step.v.cfg.cacheMax
    requires Committed(DoAll(EMPTY, steps), step)
    requires WritesTimes(Stored(DoAll(EMPTY, steps), step.v.url), step.v, row)
    ensures TimedBy(steps + [step], |steps|, step.v.url, row)
  {
    hide DocumentConfirmed, FullyConfirmed, Committed, DoAll, Extends, Renews, Stales, TtlOk, Stored;
    assert (steps + [step])[..|steps|] == steps;
    WrittenTimes(Stored(DoAll(EMPTY, steps), step.v.url), step.v, row);
  }

  /**
    Every row of a client identifier URL carries the times of a committed visit that confirmed its
    document, and no visit has confirmed the client since.
    */
  lemma {:induction false} RowsAreTimed(steps: seq<Step>, url: string) returns (k: nat)
    requires ValidRun(EMPTY, steps) && BoundsOrdered(steps) && CimdUrl.IsWeb(url)
    requires Stored(DoAll(EMPTY, steps), url).Some?
    ensures TimedBy(steps, k, url, Stored(DoAll(EMPTY, steps), url).value)
    ensures forall j: nat | k < j :: !ConfirmedAt(steps, j, url)
    decreases |steps|
  {
    hide Valid, Do, CimdUrl.IsWeb, RowAfter, TimedBy, Committed, FullyConfirmed;
    var n := |steps| - 1;
    var s, step := DoAll(EMPTY, steps[..n]), steps[n];
    assert steps == steps[..n] + [step];
    RunsKeepSettled(EMPTY, steps[..n]);
    StepRows(s, step, url);
    var row := Stored(Do(s, step), url).value;
    var rewritten := RowSource(s, step, url);
    if rewritten {
      TimedNow(steps[..n], step, row);
      k := n;
    } else {
      k := RowsAreTimed(steps[..n], url);
      TimedLater(steps[..n], step, k, url, Stored(s, url).value, row);
      forall j: nat | k < j ensures !ConfirmedAt(steps, j, url) {
        if j < n { ConfirmedPrefix(steps, n, j, url); }
      }
    }
  }

  predicate EndsDisabling(stored: Option<Row>, v: Visit, effects: seq<Effect>) {
    effects != [] && Last(effects).Put? && Disables(stored, v, Last(effects).row)
  }

  /** A visit that disables the client has not confirmed it. */
  lemma DisablingIsNoConfirmation(stored: Option<Row>, alive: bool, v: Visit)
    requires EndsDisabling(stored, v, React(stored, alive, v).effects)
    ensures !FullyConfirmed(stored, v)
  {
    SameDocument(stored, v);
    UnmodifiedNeedsARow(stored, v);
    hide CimdUrl.AcceptableUrl, OnDocument, DocumentOk, UrisOk, Answer, Interpret, KeysAnswered, Lifetime;
    var a := Answer(stored, v);
    if a.Loaded? { DisablingDocument(stored, alive, v); }
  }

  lemma DisablingDocument(stored: Option<Row>, alive: bool, v: Visit)
    requires Answer(stored, v).Loaded?
    ensures var a := Answer(stored, v);
      EndsDisabling(stored, v, OnDocument(stored, alive, v, a.document, a.headers).effects) ==>
      !(DocumentOk(v.cfg, a.document, v.url) && KeysValidated(v))
  {
    SameDocument(stored, v);
    hide DocumentOk, Answer, Interpret, OnDocument, KeysAnswered;
  }

  /** A row's times are written by a visit that confirms the document, or they are the times it had before. */
  lemma RowSource(s: State, step: Step, url: string) returns (rewritten: bool)
    requires Settled(s) && Valid(s, step) && CimdUrl.IsWeb(url) && Stored(Do(s, step), url).Some?
    ensures var row := Stored(Do(s, step), url).value;
      if rewritten then
        step.Visited? && step.v.url == url && Committed(s, step) &&
        WritesTimes(Stored(s, url), step.v, row)
      else
        && Stored(s, url).Some?
        && row.fetchedAt == Stored(s, url).value.fetchedAt && row.cacheUntil == Stored(s, url).value.cacheUntil
    ensures !rewritten && step.Visited? && step.v.url == url && Committed(s, step) ==>
      !FullyConfirmed(Stored(s, url), step.v)
  {
    hide React, KeysValidated, Valid, Settled, Do, CimdUrl.IsWeb, Extends, Renews, Stales, FullyConfirmed;
    StepRows(s, step, url);
    rewritten := false;
    if Subject(step) == url && Committed(s, step) && step.Visited? {
      PlanRow(Stored(s, url), Alive(s, url), step.v);
      rewritten := !Disables(Stored(s, url), step.v, Last(Effects(s, step)).row);
      if !rewritten { DisablingIsNoConfirmation(Stored(s, url), Alive(s, url), step.v); }
    }
  }

  /** Step `k` is a complete visit of the URL that was entitled to say so. */
  predicate ConfirmingVisit(steps: seq<Step>, k: nat, url: string) {
    && k < |steps| && steps[k].Visited? && steps[k].v.url == url
    && Complete(DoAll(EMPTY, steps[..k]), steps[k])
    && PlanOf(DoAll(EMPTY, steps[..k]), steps[k].v).verdict == Validated
  }

  lemma ConfirmingVisitWrites(s: State, step: Step, url: string)
    requires Settled(s) && Valid(s, step) && CimdUrl.IsWeb(url) && step.Visited? && step.v.url == url
    requires Complete(s, step) && PlanOf(s, step.v).verdict == Validated
    ensures Committed(s, step) && Stored(Do(s, step), url).Some?
    ensures WritesTimes(Stored(s, url), step.v, Stored(Do(s, step), url).value)
  {
    hide React, Valid, Settled, Do, CimdUrl.IsWeb, Extends, Renews, Stales;
    PlanRow(Stored(s, url), Alive(s, url), step.v);
    StepRows(s, step, url);
  }

  // ---- content

  /** no-store, and the unknown directives that mention it, forbid keeping the document. */
  predicate Unstorable(h: Headers) { NoStore in h.cacheControl || Other(true) in h.cacheControl }

  /**
    Step `k` is a visit that read a valid document of this very client, and the row has its name, its
    redirect URIs, and its ETag if the document may be stored.
    */
  predicate ReadBy(steps: seq<Step>, k: nat, url: string, row: Row) {
    && k < |steps| && steps[k].Visited? && steps[k].v.url == url
    && var f, cfg := Interpret(steps[k].v.doc, None), steps[k].v.cfg;
       && f.Loaded? && f.document.clientId == url && f.document.otherRules
       && 0 < |f.document.redirectUris| <= cfg.maxRedirectUris
       && (forall r | r in f.document.redirectUris :: cfg.uriRule(r))
       && (f.document.jwksUri.Some? ==> "https://" <= f.document.jwksUri.value)
       && row.redirectUris == f.document.redirectUris && row.clientName == f.document.clientName
       && row.etag == if Unstorable(f.headers) then None else f.headers.etag
  }

  predicate SameContent(stored: Option<Row>, row: Row) {
    && stored.Some? && row.redirectUris == stored.value.redirectUris && row.clientName == stored.value.clientName
    && row.etag == stored.value.etag
  }

  lemma WrittenContent(stored: Option<Row>, v: Visit, row: Row)
    ensures Disables(stored, v, row) || Extends(stored, v, row) ==> SameContent(stored, row)
    ensures Renews(stored, v, row) || Stales(stored, v, row) ==> ReadBy([Visited(v, 0)], 0, v.url, row)
  {
    SameDocument(stored, v);
    hide FingerprintOf, KeysContent, Answer, Interpret, KeysAnswered, Lifetime;
  }

  lemma ContentSource(s: State, step: Step, url: string)
    requires Settled(s) && Valid(s, step) && CimdUrl.IsWeb(url) && Stored(Do(s, step), url).Some?
    ensures var row := Stored(Do(s, step), url).value;
      SameContent(Stored(s, url), row) || ReadBy([step], 0, url, row)
  {
    hide React, KeysValidated, Valid, Settled, Do, CimdUrl.IsWeb, Disables, Extends, Renews, Stales, Interpret,
      Unstorable;
    StepRows(s, step, url);
    if Subject(step) == url && Committed(s, step) && step.Visited? {
      PlanRow(Stored(s, url), Alive(s, url), step.v);
      WrittenContent(Stored(s, url), step.v, Last(Effects(s, step)).row);
    }
  }

  /**
    Every row's redirect URIs and name are those of a valid document whose client_id is the row's
    URL, and the ETag that a 304 would confirm is that of the same document.
    */
  lemma {:induction false} RowsComeFromDocuments(steps: seq<Step>, url: string) returns (k: nat)
    requires ValidRun(EMPTY, steps) && CimdUrl.IsWeb(url) && Stored(DoAll(EMPTY, steps), url).Some?
    ensures ReadBy(steps, k, url, Stored(DoAll(EMPTY, steps), url).value)
    decreases |steps|
  {
    hide Valid, Do, CimdUrl.IsWeb, Interpret, Unstorable;
    var n := |steps| - 1;
    var s, step := DoAll(EMPTY, steps[..n]), steps[n];
    RunsKeepSettled(EMPTY, steps[..n]);
    ContentSource(s, step, url);
    var row := Stored(Do(s, step), url).value;
    if SameContent(Stored(s, url), row) {
      k := RowsComeFromDocuments(steps[..n], url);
    } else {
      k := n;
    }
  }
}
