/** Whether a change of a client's keys is noticed. */
module Rotation {
  import opened Wrappers
  import opened Registry
  import opened Reaction
  import opened Steps
  import opened Runs
  import opened Visits
  import opened History
  import opened Keys
  import CimdUrl

  /** Step `j` is a committed visit that validated key material. */
  predicate KeysReadAt(steps: seq<Step>, j: nat, url: string) {
    KeysValidatedAt(steps, j, url) && Committed(DoAll(EMPTY, steps[..j]), steps[j])
  }

  ghost predicate ReadSince(steps: seq<Step>, k: nat, n: nat, url: string) {
    exists j: nat :: k <= j < n && KeysReadAt(steps, j, url)
  }

  /** From step `k` on the client publishes other keys: whoever validates them finds other material. */
  ghost predicate Changed(steps: seq<Step>, k: nat, url: string, former: Visit)
    requires KeysValidated(former)
  {
    forall j: nat | k <= j && KeysValidatedAt(steps, j, url) :: !SameKeys(former, steps[j].v)
  }

  // ---- the keys on record

  lemma NextRead(steps: seq<Step>, n: nat, url: string)
    requires n < |steps|
    ensures var next := LastRead(steps[..n + 1], url);
      if KeysReadAt(steps, n, url) then next == Some(steps[n].v)
      else next == None || next == LastRead(steps[..n], url)
  {
    hide DoAll, KeysValidated, Committed;
    assert steps[..n + 1][..n] == steps[..n] && steps[..n + 1][n] == steps[n];
  }

  lemma {:induction false} ReadSinceChange(steps: seq<Step>, k: nat, n: nat, url: string, former: Visit)
    requires k <= n <= |steps| && KeysValidated(former) && Changed(steps, k, url, former)
    requires LastRead(steps[..k], url) == Some(former)
    ensures var last := LastRead(steps[..n], url);
      if ReadSince(steps, k, n, url) then last.Some? ==> !SameKeys(former, last.value)
      else last.Some? ==> last == Some(former)
    decreases n
  {
    hide KeysReadAt, KeysValidatedAt, LastRead, SameKeys;
    if n > k {
      ReadSinceChange(steps, k, n - 1, url, former);
      NextRead(steps, n - 1, url);
      if KeysReadAt(steps, n - 1, url) {
        ReadIsValidated(steps, n - 1, url);
      } else {
        assert ReadSince(steps, k, n, url) <==> ReadSince(steps, k, n - 1, url);
      }
    }
  }

  lemma ReadIsValidated(steps: seq<Step>, j: nat, url: string)
    requires KeysReadAt(steps, j, url)
    ensures KeysValidatedAt(steps, j, url) && j < |steps| && steps[j].Visited? && KeysValidated(steps[j].v)
  {
    hide DoAll, KeysValidated, Committed;
  }

  // ---- detection

  /** The row a confirming visit leaves does not go back to the former keys. */
  predicate FreeOf(steps: seq<Step>, n: nat, url: string, former: Visit)
    requires KeysValidated(former)
  {
    n < |steps| && ConfirmingVisit(steps, n, url) ==>
      var row := Stored(DoAll(EMPTY, steps[..n + 1]), url);
      row.Some? && row.value.fingerprint.Some? && row.value.fingerprint.value != AnsweredFingerprint(former)
  }

  /** Since step `k` no visit confirms the client on the strength of its former keys. */
  ghost predicate Detected(steps: seq<Step>, k: nat, url: string, former: Visit)
    requires KeysValidated(former)
  {
    forall n: nat | k <= n :: FreeOf(steps, n, url, former)
  }

  lemma ReconfirmingReadsNoKeys(steps: seq<Step>, n: nat, url: string)
    ensures ReconfirmedAt(steps, n, url) ==> n < |steps| && !KeysValidatedAt(steps, n, url)
  {
    if ReconfirmedAt(steps, n, url) { SameDocument(Stored(DoAll(EMPTY, steps[..n]), url), steps[n].v); }
    hide DoAll, Complete, DocumentOk, KeysAnswered, UrisOk, Asks, Answer;
  }

  /** What a confirming visit leaves on record. */
  lemma ConfirmedRow(steps: seq<Step>, n: nat, url: string)
    requires ValidRun(EMPTY, steps) && CimdUrl.IsWeb(url) && n < |steps| && ConfirmingVisit(steps, n, url)
    ensures var row := Stored(DoAll(EMPTY, steps[..n + 1]), url);
      row.Some? && LastRead(steps[..n + 1], url).Some?
      && row.value.fingerprint == Some(AnsweredFingerprint(LastRead(steps[..n + 1], url).value))
    ensures Committed(DoAll(EMPTY, steps[..n]), steps[n])
  {
    hide ValidRun, DoAll, Do, Valid, Settled, Complete, PlanOf, CimdUrl.IsWeb, Stored, LastRead, WritesTimes,
      AnsweredFingerprint, KeysValidated;
    PrefixStep(steps, n);
    ConfirmingVisitWrites(DoAll(EMPTY, steps[..n]), steps[n], url);
    ValidPrefix(EMPTY, steps, n + 1);
    FingerprintIsLastValidated(steps[..n + 1], url);
  }

  /** The row a confirming visit leaves is free of the former keys exactly if those on record are others. */
  lemma FreeOfRecord(steps: seq<Step>, n: nat, url: string, former: Visit)
    requires ValidRun(EMPTY, steps) && CimdUrl.IsWeb(url) && n < |steps| && KeysValidated(former)
    requires ConfirmingVisit(steps, n, url)
    ensures LastRead(steps[..n + 1], url).Some?
    ensures FreeOf(steps, n, url, former) <==> !SameKeys(former, LastRead(steps[..n + 1], url).value)
    ensures Committed(DoAll(EMPTY, steps[..n]), steps[n])
  {
    hide ValidRun, DoAll, CimdUrl.IsWeb, ConfirmingVisit, KeysValidated, SameKeys, LastRead, AnsweredFingerprint,
      Stored, Committed;
    ConfirmedRow(steps, n, url);
    FingerprintsAgreeIff(former, LastRead(steps[..n + 1], url).value);
  }

  lemma ReadSinceNext(steps: seq<Step>, k: nat, n: nat, url: string)
    requires k <= n
    ensures ReadSince(steps, k, n + 1, url) <==> ReadSince(steps, k, n, url) || KeysReadAt(steps, n, url)
  {
    hide KeysReadAt;
  }

  lemma ConfirmedFreeOfIff(steps: seq<Step>, k: nat, n: nat, url: string, former: Visit)
    requires ValidRun(EMPTY, steps) && CimdUrl.IsWeb(url) && k <= n < |steps| && ConfirmingVisit(steps, n, url)
    requires KeysValidated(former) && Changed(steps, k, url, former) && LastRead(steps[..k], url) == Some(former)
    ensures FreeOf(steps, n, url, former) <==> ReadSince(steps, k, n, url) || KeysValidatedAt(steps, n, url)
  {
    FreeOfRecord(steps, n, url, former);
    hide ValidRun, DoAll, CimdUrl.IsWeb, ConfirmingVisit, KeysValidatedAt, KeysValidated, Changed, SameKeys, LastRead,
      Committed, FreeOf, ReadSince;
    ReadSinceChange(steps, k, n + 1, url, former);
    ReadSinceNext(steps, k, n, url);
    SameAsItself(former);
  }

  lemma FreeOfIff(steps: seq<Step>, k: nat, n: nat, url: string, former: Visit)
    requires ValidRun(EMPTY, steps) && CimdUrl.IsWeb(url) && k <= n && k <= |steps|
    requires KeysValidated(former) && Changed(steps, k, url, former) && LastRead(steps[..k], url) == Some(former)
    ensures FreeOf(steps, n, url, former) <==> (ReconfirmedAt(steps, n, url) ==> ReadSince(steps, k, n, url))
  {
    ReconfirmingReadsNoKeys(steps, n, url);
    hide ValidRun, DoAll, CimdUrl.IsWeb, ConfirmingVisit, ReconfirmedAt, KeysValidatedAt, KeysValidated, Changed,
      LastRead, ReadSince, Stored, AnsweredFingerprint;
    if n < |steps| {
      if !KeysValidatedAt(steps, n, url) { ConfirmingIsReconfirming(steps, n, url); }
      if ConfirmingVisit(steps, n, url) { ConfirmedFreeOfIff(steps, k, n, url, former); }
    }
  }

  lemma SameAsItself(v: Visit)
    requires KeysValidated(v)
    ensures SameKeys(v, v)
  {}

  /**
    The fingerprint takes in the fetched keys so that a rotation behind an unchanged URL is noticed.
    Once visits that read its keys find others than those on record, no visit confirms the client on
    the strength of the former ones exactly if no 304 for the enabled row comes before such a visit.
    */
  lemma RotationDetectedIff(steps: seq<Step>, k: nat, url: string, former: Visit)
    requires ValidRun(EMPTY, steps) && CimdUrl.IsWeb(url) && k <= |steps|
    requires KeysValidated(former) && Changed(steps, k, url, former) && LastRead(steps[..k], url) == Some(former)
    ensures Detected(steps, k, url, former) <==>
      forall n: nat | k <= n :: ReconfirmedAt(steps, n, url) ==> ReadSince(steps, k, n, url)
  {
    hide FreeOf, ReconfirmedAt, ReadSince, ValidRun, CimdUrl.IsWeb, Changed, LastRead, KeysValidated;
    forall n: nat | k <= n
      ensures FreeOf(steps, n, url, former) <==> (ReconfirmedAt(steps, n, url) ==> ReadSince(steps, k, n, url))
    {
      FreeOfIff(steps, k, n, url, former);
    }
  }

  /** And the first visit that reads other keys than those on record retires the app client for good. */
  lemma NewKeysRetire(steps: seq<Step>, j: nat, n: nat, url: string)
    requires ValidRun(EMPTY, steps) && CimdUrl.IsWeb(url) && KeysReadAt(steps, j, url) && j < n <= |steps|
    requires LastRead(steps[..j], url).Some? && !SameKeys(LastRead(steps[..j], url).value, steps[j].v)
    ensures Stored(DoAll(EMPTY, steps[..j]), url).Some?
    ensures Dead(DoAll(EMPTY, steps[..n]), Stored(DoAll(EMPTY, steps[..j]), url).value.id)
  {
    hide ValidRun, DoAll, Do, Valid, CimdUrl.IsWeb, KeysValidated, AnsweredFingerprint, SameKeys, LastRead, Dead,
      Committed, Settled;
    ValidPrefix(EMPTY, steps, j);
    PrefixStep(steps, j);
    FingerprintIsLastValidated(steps[..j], url);
    FingerprintsAgreeIff(LastRead(steps[..j], url).value, steps[j].v);
    var s, id := DoAll(EMPTY, steps[..j]), Stored(DoAll(EMPTY, steps[..j]), url).value.id;
    NewKeysReplace(s, steps[j], url);
    LosingAnIdKillsIt(s, steps[j], url, id);
    ValidPrefix(EMPTY, steps, n);
    assert steps[..n] == steps[..j + 1] + steps[j + 1..n];
    AppendRun(EMPTY, steps[..j + 1], steps[j + 1..n]);
    StepKeepsSettled(s, steps[j]);
    RetirementIsFinal(DoAll(EMPTY, steps[..j + 1]), steps[j + 1..n], id);
  }

  lemma NewKeysReplace(s: State, step: Step, url: string)
    requires Settled(s) && Valid(s, step) && CimdUrl.IsWeb(url) && step.Visited? && step.v.url == url
    requires Committed(s, step) && KeysValidated(step.v) && Stored(s, url).Some?
    requires Stored(s, url).value.fingerprint.Some?
    requires Stored(s, url).value.fingerprint != Some(AnsweredFingerprint(step.v))
    ensures Stored(Do(s, step), url).Some? && Stored(Do(s, step), url).value.id != Stored(s, url).value.id
  {
    hide Settled, Valid, Do, CimdUrl.IsWeb, KeysValidated, AnsweredFingerprint, React;
    StepRows(s, step, url);
    IdentityStep(s, step);
    WritesDocumentIff(s, step);
    PlanRow(Stored(s, url), Alive(s, url), step.v);
    RenewsMeansKeysValidated(Stored(s, url), step.v, Last(Effects(s, step)).row);
    hide Disables, Extends, Stales, Renews;
  }
}
