/** How long a client can go on without its keys being validated. */
module Keys {
  import opened Wrappers
  import opened Registry
  import opened Reaction
  import opened Steps
  import opened Runs
  import opened Visits
  import opened History
  import opened Fetcher
  import CimdUrl

  // ---- what confirms a client

  /** The URL is acceptable and the visit does not skip it. */
  predicate Asks(stored: Option<Row>, v: Visit) {
    CimdUrl.AcceptableUrl(v.url, v.cfg.hostRule) && !Skipped(stored, v)
  }

  /** A 304 for an enabled row whose redirect URIs pass the current rules. */
  predicate Reconfirms(stored: Option<Row>, v: Visit) {
    Asks(stored, v) && stored.Some? && stored.value.enabled
    && Answer(stored, v).Unmodified? && UrisOk(v.cfg, stored.value.redirectUris)
  }

  /** A valid document together with all the key material it declares. */
  predicate ReadsKeys(stored: Option<Row>, v: Visit) {
    var a := Answer(stored, v);
    Asks(stored, v) && a.Loaded? && DocumentOk(v.cfg, a.document, v.url) && KeysAnswered(a.document, v.jwks)
  }

  /** A visit may say that it validated a client exactly in these two cases, and only the second one asks for keys. */
  lemma ValidatedIff(stored: Option<Row>, alive: bool, v: Visit)
    ensures React(stored, alive, v).verdict == Validated <==> Reconfirms(stored, v) || ReadsKeys(stored, v)
  {
    UnmodifiedNeedsARow(stored, v);
    hide Answer, CimdUrl.AcceptableUrl, OnDocument, DocumentOk, KeysAnswered, UrisOk, Skipped;
    var a := Answer(stored, v);
    if a.Loaded? { DocumentVerdict(stored, alive, v, a.document, a.headers); }
  }

  lemma DocumentVerdict(stored: Option<Row>, alive: bool, v: Visit, doc: Document, h: Headers)
    ensures OnDocument(stored, alive, v, doc, h).verdict == Validated <==>
      DocumentOk(v.cfg, doc, v.url) && KeysAnswered(doc, v.jwks)
  {
    CommitRow(stored, alive, v, FreshRow(v, doc, h, ""), Validated);
    if stored.Some? { CommitRow(stored, alive, v, StaleRow(stored.value, v, doc, h, ""), Unconfirmed); }
    hide Commit, DocumentOk, KeysAnswered, KeysTooOld, FingerprintOf, KeysContent, Lifetime;
  }

  lemma ReadKeysAreValidated(stored: Option<Row>, v: Visit)
    ensures ReadsKeys(stored, v) ==> KeysValidated(v)
  {
    SameDocument(stored, v);
    hide Answer, DocumentOk, KeysAnswered, Interpret, CimdUrl.AcceptableUrl;
  }

  // ---- visits without keys

  /** The visit reads a valid document whose declared keys cannot be fetched. */
  predicate Keyless(stored: Option<Row>, v: Visit) {
    var a := Answer(stored, v);
    && CimdUrl.AcceptableUrl(v.url, v.cfg.hostRule) && !Skipped(stored, v)
    && a.Loaded? && DocumentOk(v.cfg, a.document, v.url) && !KeysAnswered(a.document, v.jwks)
  }

  lemma KeylessPlan(row: Row, alive: bool, v: Visit)
    requires Keyless(Some(row), v)
    ensures React(Some(row), alive, v) ==
      var a := Answer(Some(row), v);
      if KeysTooOld(row, v) then Disable(v.url, Some(row))
      else Commit(Some(row), alive, v, StaleRow(row, v, a.document, a.headers, ""), Unconfirmed)
  {
    hide CimdUrl.AcceptableUrl, DocumentOk, KeysAnswered, Answer, Disable, Commit, StaleRow, KeysTooOld;
  }

  /**
    A visit without keys leaves the client enabled exactly if it was disabled or its keys are not
    too old, and never confirms it or makes it cacheable.
    */
  lemma KeylessVisitEnablesIff(row: Row, alive: bool, v: Visit)
    requires Keyless(Some(row), v)
    ensures var left := RowLeft(Some(row), alive, v);
      && left.Some? && React(Some(row), alive, v).verdict != Validated
      && (left.value.enabled <==>
            !row.enabled || v.now - (if row.keysFetchedAt.Some? then row.keysFetchedAt.value else 0) <= v.cfg.maxStale)
      && (left.value.enabled ==> left.value.cacheUntil == v.now && left.value.fingerprint == row.fingerprint)
      && left.value.keysFetchedAt == row.keysFetchedAt
  {
    var a := Answer(Some(row), v);
    var stale := StaleRow(row, v, a.document, a.headers, "");
    KeylessPlan(row, alive, v);
    CommitRow(Some(row), alive, v, stale, Unconfirmed);
    hide React, Keyless, Commit, CimdUrl.AcceptableUrl, DocumentOk, KeysAnswered, Answer, ForbidsStorage;
  }

  /** So a client disabled because its keys are too old does not stay disabled: visits without keys alternate. */
  lemma KeylessVisitsAlternate(row: Row, alive: bool, again: bool, v: Visit, w: Visit)
    requires Keyless(Some(row), v) && KeysTooOld(row, v)
    requires Keyless(RowLeft(Some(row), alive, v), w)
    ensures RowLeft(Some(row), alive, v) == Some(Disabled(row, None))
    ensures var left := RowLeft(RowLeft(Some(row), alive, v), again, w); left.Some? && left.value.enabled
  {
    KeylessPlan(row, alive, v);
    hide Keyless, React;
    KeylessVisitEnablesIff(Disabled(row, None), again, w);
  }

  /** The row was written from a document that must not be stored. */
  predicate Unstored(stored: Option<Row>, v: Visit, row: Row) {
    Answer(stored, v).Loaded? && ForbidsStorage(Answer(stored, v).headers)
      && (Renews(stored, v, row) || Stales(stored, v, row))
  }

  /**
    Documents under no-store leave neither ETag nor keys behind, so such a client is only ever
    confirmed together with its keys.
    */
  lemma UnstoredNeedsKeysEveryTime(stored: Option<Row>, v: Visit, row: Row, alive: bool, w: Visit)
    requires Unstored(stored, v, row)
    ensures row.etag == None && row.keys == None
    ensures React(Some(row), alive, w).verdict == Validated ==> KeysValidated(w)
  {
    assert row.etag == None && row.keys == None by {
      hide React, KeysValidated, DocumentOk, KeysAnswered, KeysTooOld, FingerprintOf, KeysContent, Lifetime, Answer;
    }
    assert !Answer(Some(row), w).Unmodified?;
    hide React, KeysValidated, Unstored, Answer, DocumentOk, KeysAnswered, UrisOk, CimdUrl.AcceptableUrl, Skipped;
    if React(Some(row), alive, w).verdict == Validated {
      ValidatedIff(Some(row), alive, w);
      ReadKeysAreValidated(Some(row), w);
    }
  }

  // ---- whole runs

  /** Step `k` is a committed visit that read a valid document and could not fetch the keys it declares. */
  predicate KeylessAt(steps: seq<Step>, k: nat, url: string) {
    && k < |steps| && steps[k].Visited? && steps[k].v.url == url
    && var s := DoAll(EMPTY, steps[..k]); Committed(s, steps[k]) && Keyless(Stored(s, url), steps[k].v)
  }

  /** The visit a row has its times from has confirmed the client exactly if it was not without keys. */
  lemma TimedByConfirmedIff(steps: seq<Step>, k: nat, url: string, row: Row)
    requires TimedBy(steps, k, url, row)
    ensures ConfirmedAt(steps, k, url) <==> !KeylessAt(steps, k, url)
  {
    var s, v := DoAll(EMPTY, steps[..k]), steps[k].v;
    EffectsMeanAsking(Stored(s, url), Alive(s, url), v);
    SameDocument(Stored(s, url), v);
    hide DoAll, React, DocumentOk, KeysAnswered, UrisOk, Answer, Interpret, Stored, Alive, CimdUrl.AcceptableUrl,
      Skipped;
  }

  predicate KeysValidatedAt(steps: seq<Step>, j: nat, url: string) {
    j < |steps| && steps[j].Visited? && steps[j].v.url == url && KeysValidated(steps[j].v)
  }

  /** Step `j` is a complete visit answered by a 304 for an enabled row whose redirect URIs pass the rules. */
  predicate ReconfirmedAt(steps: seq<Step>, j: nat, url: string) {
    && j < |steps| && steps[j].Visited? && steps[j].v.url == url
    && var s := DoAll(EMPTY, steps[..j]); Complete(s, steps[j]) && Reconfirms(Stored(s, url), steps[j].v)
  }

  /** By a clock that is not behind the row's own times, the row cannot be used without asking the registrar. */
  predicate Closed(row: Option<Row>) { row.Some? && row.value.enabled ==> row.value.cacheUntil == row.value.fetchedAt }

  /** Step `n` does not confirm the client, and the row before it cannot be used without asking the registrar. */
  predicate ClosedAt(steps: seq<Step>, n: nat, url: string) {
    n <= |steps| ==> Closed(Stored(DoAll(EMPTY, steps[..n]), url)) && !ConfirmingVisit(steps, n, url)
  }

  /** No later visit confirms the client, and its row stays closed. */
  ghost predicate StaysClosed(steps: seq<Step>, k: nat, url: string) {
    forall n: nat | k < n :: ClosedAt(steps, n, url)
  }

  lemma ClosedStep(s: State, step: Step, url: string)
    requires Settled(s) && Valid(s, step) && CimdUrl.IsWeb(url) && Closed(Stored(s, url))
    requires step.Visited? && step.v.url == url ==>
      !KeysValidated(step.v) && !(Complete(s, step) && Reconfirms(Stored(s, url), step.v))
    ensures Closed(Stored(Do(s, step), url))
  {
    hide Valid, Settled, Do, CimdUrl.IsWeb, KeysValidated, React, Reconfirms;
    StepRows(s, step, url);
    if Subject(step) == url && Committed(s, step) && step.Visited? {
      VisitKeepsClosed(Stored(s, url), Alive(s, url), step.v);
    }
  }

  lemma VisitKeepsClosed(stored: Option<Row>, alive: bool, v: Visit)
    requires React(stored, alive, v).effects != [] && !KeysValidated(v) && !Reconfirms(stored, v)
    ensures Last(React(stored, alive, v).effects).Put? && Closed(Some(Last(React(stored, alive, v).effects).row))
  {
    PlanRow(stored, alive, v);
    SameDocument(stored, v);
    EffectsMeanAsking(stored, alive, v);
    hide React, DocumentOk, KeysAnswered, UrisOk, Answer, Lifetime, FingerprintOf, KeysContent, Asks, Interpret;
  }

  lemma EffectsMeanAsking(stored: Option<Row>, alive: bool, v: Visit)
    ensures React(stored, alive, v).effects != [] ==> Asks(stored, v)
  {
    hide CimdUrl.AcceptableUrl, OnDocument, OnUnmodified, Answer;
  }

  /** The keyless visit itself leaves the client closed. */
  lemma KeylessCloses(s: State, step: Step, url: string)
    requires Settled(s) && Valid(s, step) && CimdUrl.IsWeb(url) && step.Visited? && step.v.url == url
    requires Committed(s, step) && Keyless(Stored(s, url), step.v)
    ensures Closed(Stored(Do(s, step), url))
  {
    KeylessHasNoKeys(Stored(s, url), step.v);
    hide Valid, Settled, Do, CimdUrl.IsWeb, KeysValidated, React, Reconfirms, Keyless;
    StepRows(s, step, url);
    VisitKeepsClosed(Stored(s, url), Alive(s, url), step.v);
  }

  lemma KeylessHasNoKeys(stored: Option<Row>, v: Visit)
    requires Keyless(stored, v)
    ensures !KeysValidated(v) && !Reconfirms(stored, v)
  {
    SameDocument(stored, v);
    hide Answer, DocumentOk, KeysAnswered, Interpret, CimdUrl.AcceptableUrl, UrisOk;
  }

  lemma KeylessIsNoConfirmation(steps: seq<Step>, k: nat, url: string)
    ensures KeylessAt(steps, k, url) ==> !ConfirmedAt(steps, k, url)
  {
    if KeylessAt(steps, k, url) { KeylessHasNoKeys(Stored(DoAll(EMPTY, steps[..k]), url), steps[k].v); }
    hide DoAll, DocumentOk, KeysAnswered, KeysValidated, Answer, CimdUrl.AcceptableUrl, Skipped, Stored, Reconfirms;
  }

  lemma ConfirmingIsReconfirming(steps: seq<Step>, j: nat, url: string)
    requires !KeysValidatedAt(steps, j, url)
    ensures ConfirmingVisit(steps, j, url) <==> ReconfirmedAt(steps, j, url)
  {
    if j < |steps| && steps[j].Visited? && steps[j].v.url == url {
      var s := DoAll(EMPTY, steps[..j]);
      ValidatedIff(Stored(s, url), Alive(s, url), steps[j].v);
      ReadKeysAreValidated(Stored(s, url), steps[j].v);
    }
    hide DoAll, Reconfirms, ReadsKeys, React, KeysValidated, Complete, Stored, Alive;
  }

  lemma ClosedAtKeyless(steps: seq<Step>, k: nat, url: string)
    requires ValidRun(EMPTY, steps) && CimdUrl.IsWeb(url) && KeylessAt(steps, k, url)
    ensures Closed(Stored(DoAll(EMPTY, steps[..k + 1]), url))
  {
    hide ValidRun, DoAll, Do, Valid, Settled, Committed, Keyless, CimdUrl.IsWeb, Closed, Stored;
    PrefixStep(steps, k);
    KeylessCloses(DoAll(EMPTY, steps[..k]), steps[k], url);
  }

  lemma ClosedLater(steps: seq<Step>, j: nat, url: string)
    requires ValidRun(EMPTY, steps) && CimdUrl.IsWeb(url) && j < |steps|
    requires !KeysValidatedAt(steps, j, url) && !ReconfirmedAt(steps, j, url)
    requires Closed(Stored(DoAll(EMPTY, steps[..j]), url))
    ensures Closed(Stored(DoAll(EMPTY, steps[..j + 1]), url))
  {
    hide ValidRun, DoAll, Do, Valid, Settled, Complete, Reconfirms, KeysValidated, CimdUrl.IsWeb, Closed, Stored;
    PrefixStep(steps, j);
    ClosedStep(DoAll(EMPTY, steps[..j]), steps[j], url);
  }

  lemma {:induction false} ClosedAfterKeyless(steps: seq<Step>, k: nat, n: nat, url: string)
    requires ValidRun(EMPTY, steps) && CimdUrl.IsWeb(url) && KeylessAt(steps, k, url) && k < n <= |steps|
    requires forall j: nat | k < j :: !KeysValidatedAt(steps, j, url) && !ReconfirmedAt(steps, j, url)
    ensures Closed(Stored(DoAll(EMPTY, steps[..n]), url))
    decreases n
  {
    hide *;
    if n == k + 1 {
      ClosedAtKeyless(steps, k, url);
    } else {
      ClosedAfterKeyless(steps, k, n - 1, url);
      ClosedLater(steps, n - 1, url);
    }
  }

  /**
    After a visit without keys, and until keys are validated, the row stays closed and unconfirmed
    exactly if no later visit is answered by a 304 for the enabled row.
    */
  lemma KeylessStaysClosedIff(steps: seq<Step>, k: nat, url: string)
    requires ValidRun(EMPTY, steps) && CimdUrl.IsWeb(url) && KeylessAt(steps, k, url)
    requires forall j: nat | k < j :: !KeysValidatedAt(steps, j, url)
    ensures StaysClosed(steps, k, url) <==> forall j: nat | k < j :: !ReconfirmedAt(steps, j, url)
  {
    hide ConfirmingVisit, ReconfirmedAt, KeysValidatedAt, KeylessAt, ValidRun, DoAll, CimdUrl.IsWeb, Closed, Stored;
    forall j: nat | k < j ensures ConfirmingVisit(steps, j, url) <==> ReconfirmedAt(steps, j, url) {
      ConfirmingIsReconfirming(steps, j, url);
    }
    if StaysClosed(steps, k, url) {
      forall j: nat | k < j ensures !ReconfirmedAt(steps, j, url) {
        ReconfirmedIsAStep(steps, j, url);
        assert ClosedAt(steps, j, url);
      }
    } else if forall j: nat | k < j :: !ReconfirmedAt(steps, j, url) {
      forall n: nat | k < n ensures ClosedAt(steps, n, url) {
        if n <= |steps| { ClosedAfterKeyless(steps, k, n, url); }
      }
    }
  }

  /** What a run has done is not changed by what it does later. */
  lemma AtPrefix(steps: seq<Step>, n: nat, j: nat, url: string)
    requires n <= |steps|
    ensures KeylessAt(steps[..n], j, url) <==> j < n && KeylessAt(steps, j, url)
    ensures KeysValidatedAt(steps[..n], j, url) <==> j < n && KeysValidatedAt(steps, j, url)
    ensures ReconfirmedAt(steps[..n], j, url) <==> j < n && ReconfirmedAt(steps, j, url)
  {
    hide DoAll, Committed, Complete, Keyless, Reconfirms, KeysValidated;
    if j < n { assert steps[..n][..j] == steps[..j]; }
  }

  lemma ReconfirmedIsAStep(steps: seq<Step>, j: nat, url: string)
    ensures ReconfirmedAt(steps, j, url) ==> j < |steps|
  {}
}
