/** Stored redirect URIs against the callback URLs Cognito holds. */
module Callbacks {
  import opened Wrappers
  import opened Registry
  import opened Reaction
  import opened Steps
  import opened Runs
  import opened Visits
  import opened History
  import opened Fetcher
  import CimdUrl

  /** The row's redirect URIs are a permutation of the callbacks of its app client, if that still exists. */
  predicate Aligned(s: State, url: string) {
    url in s.table.clients && s.table.clients[url].id in s.apps ==>
      multiset(s.apps[s.table.clients[url].id]) == multiset(s.table.clients[url].redirectUris)
  }

  predicate AllAligned(s: State) { forall u | u in s.table.clients && CimdUrl.IsWeb(u) :: Aligned(s, u) }

  /** Cut off between new callbacks in Cognito and the row that records them. */
  predicate Torn(s: State, step: Step) {
    step.done == 1 && Effects(s, step) != [] && Effects(s, step)[0].Update?
  }

  /** A lone rewrite keeps the redirect URIs up to order. */
  lemma LoneRewriteKeepsUris(stored: Option<Row>, alive: bool, v: Visit)
    requires var e := React(stored, alive, v).effects; |e| == 1 && e[0].Put? && stored.Some? && stored.value.id != ""
    ensures multiset(React(stored, alive, v).effects[0].row.redirectUris) == multiset(stored.value.redirectUris)
  {
    hide CimdUrl.AcceptableUrl, DocumentOk, UrisOk, KeysAnswered, KeysTooOld, FingerprintOf, KeysContent, Lifetime,
      Interpret;
  }

  /**
    A sequence of effects that keeps rows and callbacks in step: callbacks change only on the way to
    a row that says so.
    */
  predicate KeepsStep(s: State, e: seq<Effect>) {
    || e == []
    || (|e| == 1 && e[0].Remove?)
    || (|e| == 2 && e[0].Remove? && e[1].Drop?)
    || (|e| == 1 && e[0].Put? && CimdUrl.IsWeb(e[0].url) && e[0].retire.None?
        && e[0].url in s.table.clients && e[0].row.id == s.table.clients[e[0].url].id
        && multiset(e[0].row.redirectUris) == multiset(s.table.clients[e[0].url].redirectUris))
    || (|e| == 2 && e[0].Update? && e[1].Put? && e[1].retire.None? && e[1].url in s.table.clients
        && e[0].id == e[1].row.id == s.table.clients[e[1].url].id && e[0].callbacks == e[1].row.redirectUris)
    || (|e| == 2 && e[0].Create? && e[1].Put? && e[0].id == e[1].row.id && e[0].callbacks == e[1].row.redirectUris
        && e[0].id !in s.issued && (e[1].retire.Some? ==> e[1].retire.value.id != e[0].id))
  }

  lemma StepKeepsStep(s: State, step: Step)
    requires Settled(s) && Valid(s, step)
    ensures KeepsStep(s, Effects(s, step))
  {
    if step.Visited? {
      var stored, v := Stored(s, step.v.url), step.v;
      PlanShape(stored, Alive(s, v.url), v);
      PlannedUrlIsWeb(stored, Alive(s, v.url), v);
      if stored.Some? { assert RowOk(v.url, stored.value) && stored.value.id in s.issued; }
      var e := Effects(s, step);
      if |e| == 1 && e[0].Put? && stored.Some? { LoneRewriteKeepsUris(stored, Alive(s, v.url), v); }
    }
    hide React, CimdUrl.IsWeb, Inv;
  }

  predicate OthersAligned(s: State, url: string) {
    forall u | u in s.table.clients && CimdUrl.IsWeb(u) && u != url :: Aligned(s, u)
  }

  lemma PutKeepsAligned(s: State, url: string, row: Row, retire: Option<Retirement>)
    requires OthersAligned(s, url)
    requires row.id in s.apps ==> multiset(s.apps[row.id]) == multiset(row.redirectUris)
    ensures AllAligned(Apply(s, Put(url, row, retire)))
  {
    if retire.Some? { RetiredIsNotWeb(retire.value.id); }
    hide CimdUrl.IsWeb;
  }

  /** New callbacks for one app client concern at most the one row that names it. */
  lemma NewCallbacksKeepOthers(s: State, id: Id, callbacks: seq<string>, url: string)
    requires Inv(s) && AllAligned(s)
    requires forall u | u in s.table.clients && s.table.clients[u].id == id :: u == url
    ensures OthersAligned(s.(apps := s.apps[id := callbacks]), url)
  {
    hide CimdUrl.IsWeb, Inv;
  }

  lemma PairKeepsAligned(s: State, e: seq<Effect>)
    requires Settled(s) && KeepsStep(s, e) && AllAligned(s) && |e| == 2
    ensures AllAligned(Apply(Apply(s, e[0]), e[1]))
  {
    if e[0].Remove? {
      hide CimdUrl.IsWeb, Inv;
    } else {
      var url, id := e[1].url, e[0].id;
      forall u | u in s.table.clients && s.table.clients[u].id == id ensures u == url {
        assert s.table.index[id].url == u;
      }
      hide CimdUrl.IsWeb, Inv, PutRows, AllAligned;
      NewCallbacksKeepOthers(s, id, e[0].callbacks, url);
      var m := Apply(s, e[0]);
      assert OthersAligned(m, url);
      PutKeepsAligned(m, url, e[1].row, e[1].retire);
    }
  }

  lemma CutKeepsAligned(s: State, e: seq<Effect>, k: nat)
    requires Settled(s) && KeepsStep(s, e) && k <= |e| && !(k == 1 && e[0].Update?)
    requires AllAligned(s)
    ensures AllAligned(ApplyAll(s, Cut(e, k)))
  {
    hide CimdUrl.IsWeb, Inv;
    if k == 0 {
      assert Cut(e, 0) == [];
    } else if k == 1 {
      assert Cut(e, 1) == [e[0]];
      Run1(s, e[0]);
      FirstKeepsAligned(s, e);
    } else {
      assert Cut(e, 2) == [e[0], e[1]];
      Run2(s, e[0], e[1]);
      PairKeepsAligned(s, e);
    }
  }

  lemma FirstKeepsAligned(s: State, e: seq<Effect>)
    requires Settled(s) && KeepsStep(s, e) && AllAligned(s) && e != [] && !e[0].Update?
    ensures AllAligned(Apply(s, e[0]))
  {
    if e[0].Put? {
      hide PutRows;
      PutKeepsAligned(s, e[0].url, e[0].row, None);
    } else if e[0].Create? {
      assert forall u | u in s.table.clients :: s.table.clients[u].id in s.issued;
    }
  }

  /** Only a step torn between Cognito and the table can take the two out of step. */
  lemma StepKeepsAligned(s: State, step: Step)
    requires Settled(s) && Valid(s, step) && AllAligned(s) && !Torn(s, step)
    ensures AllAligned(Do(s, step))
  {
    hide Effects, React, ApplyAll, Cut, Inv, CimdUrl.IsWeb, Aligned, KeepsStep;
    StepKeepsStep(s, step);
    CutKeepsAligned(s, Effects(s, step), step.done);
    AbandonKeepsAligned(ApplyAll(s, Cut(Effects(s, step), step.done)));
  }

  lemma AbandonKeepsAligned(s: State)
    requires AllAligned(s)
    ensures AllAligned(Apply(s, Abandon))
  {
    hide CimdUrl.IsWeb;
  }

  /** Over any run without such a tear, whatever else is cut off, every client's URIs match its callbacks. */
  lemma {:induction false} RunsStayAligned(steps: seq<Step>)
    requires ValidRun(EMPTY, steps)
    requires forall k | 0 <= k < |steps| :: !Torn(DoAll(EMPTY, steps[..k]), steps[k])
    ensures AllAligned(DoAll(EMPTY, steps))
  {
    hide Torn, Valid, Do, Settled, Aligned;
    if steps != [] {
      var n := |steps| - 1;
      ReachableIsSettled(steps[..n]);
      hide AllAligned;
      forall k | 0 <= k < n ensures !Torn(DoAll(EMPTY, steps[..n][..k]), steps[..n][k]) {
        assert steps[..n][..k] == steps[..k];
      }
      RunsStayAligned(steps[..n]);
      StepKeepsAligned(DoAll(EMPTY, steps[..n]), steps[n]);
    }
  }

  // ---- after a tear

  function DocumentUris(v: Visit): seq<string>
    requires Interpret(v.doc, None).Loaded?
  {
    Interpret(v.doc, None).document.redirectUris
  }

  /** What a plan that writes a document says about redirect URIs. */
  lemma DocumentUrisWritten(stored: Option<Row>, alive: bool, v: Visit)
    requires var e := React(stored, alive, v).effects;
      e != [] && Last(e).Put? && (Renews(stored, v, Last(e).row) || Stales(stored, v, Last(e).row))
    requires stored.Some? && stored.value.id != "" && v.newId != stored.value.id
    requires React(stored, alive, v).verdict != Raised
    ensures Interpret(v.doc, None).Loaded?
    ensures var e := React(stored, alive, v).effects;
      && Last(e).row.redirectUris == DocumentUris(v)
      && (|e| == 1 ==> multiset(DocumentUris(v)) == multiset(stored.value.redirectUris))
      && (|e| == 2 && e[0].Update? ==> multiset(DocumentUris(v)) != multiset(stored.value.redirectUris))
  {
    SameDocument(stored, v);
    hide CimdUrl.AcceptableUrl, DocumentOk, UrisOk, KeysAnswered, KeysTooOld, FingerprintOf, KeysContent, Lifetime,
      Interpret;
  }

  lemma PlanUris(s: State, step: Step)
    requires Settled(s) && Valid(s, step) && WritesDocument(s, step) && Stored(s, step.v.url).Some?
    ensures Interpret(step.v.doc, None).Loaded?
    ensures var e := Effects(s, step); var uris := multiset(DocumentUris(step.v));
      && e != [] && Last(e).Put? && Last(e).row.redirectUris == DocumentUris(step.v)
      && (|e| == 1 ==> uris == multiset(Stored(s, step.v.url).value.redirectUris))
      && (|e| == 2 && e[0].Update? ==> uris != multiset(Stored(s, step.v.url).value.redirectUris))
  {
    var stored, v := Stored(s, step.v.url), step.v;
    assert RowOk(v.url, stored.value) && stored.value.id in s.issued;
    hide React, Renews, Stales, Inv, Disables, Extends, CimdUrl.IsWeb;
    PlanRow(stored, Alive(s, v.url), v);
    DocumentUrisWritten(stored, Alive(s, v.url), v);
  }

  lemma AlignedAfter(s: State, e: seq<Effect>, url: string)
    requires Settled(s) && KeepsStep(s, e) && e != [] && CimdUrl.IsWeb(url) && url in s.table.clients
    requires Last(e).Put? && Last(e).url == url
    requires |e| == 1 ==> multiset(Last(e).row.redirectUris) == multiset(s.table.clients[url].redirectUris)
    ensures Aligned(Apply(ApplyAll(s, e), Abandon), url) <==> Aligned(s, url) || |e| == 2
  {
    hide CimdUrl.IsWeb, Settled, PutRows;
    if |e| == 1 {
      assert e == [e[0]];
      Run1(s, e[0]);
      RowIsWritten(s, url, e[0].row, e[0].retire);
    } else {
      assert e == [e[0], e[1]];
      Run2(s, e[0], e[1]);
      RowIsWritten(Apply(s, e[0]), url, e[1].row, e[1].retire);
    }
  }

  lemma RowIsWritten(s: State, url: string, row: Row, retire: Option<Retirement>)
    requires CimdUrl.IsWeb(url)
    ensures var s' := Apply(s, Put(url, row, retire));
      url in s'.table.clients && s'.table.clients[url] == row && s'.apps == s.apps
  {
    if retire.Some? { RetiredIsNotWeb(retire.value.id); }
    hide CimdUrl.IsWeb;
  }

  lemma CreatesIff(row: Row, alive: bool, v: Visit, e: seq<Effect>)
    requires Shaped(Some(row), alive, v, e) && e != [] && Last(e).Put? && v.newId != row.id
    ensures e[0].Create? <==> Last(e).row.id != row.id
  {}

  /** A visit that writes a document creates an app client exactly if the row gets a new one. */
  lemma NewClientIff(s: State, step: Step)
    requires Settled(s) && Valid(s, step) && WritesDocument(s, step) && Stored(s, step.v.url).Some?
    ensures Effects(s, step) != []
    ensures Effects(s, step)[0].Create? <==>
      !Alive(s, step.v.url) || NewKeys(Stored(s, step.v.url).value, step.v)
  {
    var row := Stored(s, step.v.url).value;
    StoredIsOwn(s, step);
    WritesDocumentIff(s, step);
    IdentityStep(s, step);
    PlanShape(Some(row), Alive(s, step.v.url), step.v);
    hide React, NewKeys, Settled, Valid, Shaped, Alive, Stored, Complete;
    CreatesIff(row, Alive(s, step.v.url), step.v, Effects(s, step));
  }

  lemma WholeStep(s: State, step: Step)
    requires Settled(s) && Valid(s, step) && WritesDocument(s, step)
    ensures Committed(s, step) && Do(s, step) == Apply(ApplyAll(s, Effects(s, step)), Abandon)
  {
    hide Settled, Valid, Effects, Apply, ApplyAll, Renews, Stales;
  }

  /**
    A complete visit that reads a document repairs a torn client exactly when its redirect URIs
    differ from the stored ones, Cognito has lost the app client, or the validated keys are new: a
    document that went back to the stored URIs leaves Cognito with the callbacks of the aborted change.
    */
  lemma DocumentVisitAlignsIff(s: State, step: Step)
    requires Settled(s) && Valid(s, step) && WritesDocument(s, step)
    requires CimdUrl.IsWeb(step.v.url) && Stored(s, step.v.url).Some?
    ensures Interpret(step.v.doc, None).Loaded?
    ensures Aligned(Do(s, step), step.v.url) <==>
      || Aligned(s, step.v.url)
      || multiset(DocumentUris(step.v)) != multiset(Stored(s, step.v.url).value.redirectUris)
      || !Alive(s, step.v.url) || NewKeys(Stored(s, step.v.url).value, step.v)
  {
    NewClientIff(s, step);
    WholeStep(s, step);
    PlanUris(s, step);
    StepKeepsStep(s, step);
    StepWritesSubject(s, step);
    hide NewKeys, React, Renews, Stales, Aligned, Apply, ApplyAll, Do, Cut, Settled, Valid, Effects, Alive,
      CimdUrl.IsWeb, WritesDocument, Committed;
    AlignedAfter(s, Effects(s, step), step.v.url);
  }

  // ---- the whole history

  /** The callbacks of the URL's app client are changed, and the row that says so is not written. */
  predicate Tears(s: State, e: seq<Effect>, k: nat, url: string) {
    k == 1 && e != [] && e[0].Update? && Stored(s, url).Some? && Stored(s, url).value.id == e[0].id
  }

  /** A row is written right after the callbacks it records, or the app client is deleted. */
  predicate Repairs(s: State, e: seq<Effect>, k: nat, url: string) {
    || (k == 2 == |e| && e[1].Put? && e[1].url == url)
    || (k >= 1 && e != [] && e[0].Remove? && Stored(s, url).Some? && Stored(s, url).value.id == e[0].id)
  }

  /** Whether the last tear of the URL's row has not been followed by a step that repairs it. */
  predicate Unrepaired(steps: seq<Step>, url: string) {
    steps != [] &&
    var n := |steps| - 1;
    var s, step := DoAll(EMPTY, steps[..n]), steps[n];
    Tears(s, Effects(s, step), step.done, url)
    || (!Repairs(s, Effects(s, step), step.done, url) && Unrepaired(steps[..n], url))
  }

  /** New callbacks are only planned when they differ from the stored redirect URIs. */
  predicate UpdatesDiffer(s: State, e: seq<Effect>) {
    e != [] && e[0].Update? ==>
      |e| == 2 && e[1].Put? && e[1].url in s.table.clients && e[0].id in s.apps
      && s.table.clients[e[1].url].id == e[0].id
      && multiset(e[0].callbacks) != multiset(s.table.clients[e[1].url].redirectUris)
  }

  lemma UpdatePlanDiffers(stored: Option<Row>, alive: bool, v: Visit)
    requires stored.Some? ==> stored.value.id != "" && (stored.value.enabled ==> stored.value.deleteAfter.None?)
    ensures var e := React(stored, alive, v).effects; e != [] && e[0].Update? ==>
      stored.Some? && multiset(e[0].callbacks) != multiset(stored.value.redirectUris)
  {
    hide CimdUrl.AcceptableUrl, DocumentOk, UrisOk, KeysAnswered, KeysTooOld, FingerprintOf, KeysContent, Lifetime,
      Interpret;
  }

  lemma UpdateStepDiffers(s: State, step: Step)
    requires Settled(s) && Valid(s, step)
    ensures UpdatesDiffer(s, Effects(s, step))
  {
    if step.Visited? {
      var stored, v := Stored(s, step.v.url), step.v;
      if stored.Some? { assert RowOk(v.url, stored.value); }
      PlanShape(stored, Alive(s, v.url), v);
      UpdatePlanDiffers(stored, Alive(s, v.url), v);
    }
    hide React, CimdUrl.IsWeb, Inv;
  }

  /** The first effect concerns the row of the app client it names, and a lone rewrite keeps the redirect URIs. */
  lemma FirstAligns(s: State, e: seq<Effect>, url: string)
    requires Settled(s) && KeepsStep(s, e) && UpdatesDiffer(s, e) && e != [] && CimdUrl.IsWeb(url)
    ensures Aligned(Apply(s, e[0]), url) <==> !Tears(s, e, 1, url) && (Repairs(s, e, 1, url) || Aligned(s, url))
  {
    if e[0].Put? {
      RewriteAligns(s, e[0], url);
    } else {
      if e[0].Create? { CreatedIsNew(s, e[0].id); }
      if e[0].Update? { OneOwner(s, url, e[1].url); }
      hide CimdUrl.IsWeb, Settled, PutRows;
    }
  }

  lemma CreatedIsNew(s: State, id: Id)
    requires Settled(s) && id !in s.issued
    ensures forall u | u in s.table.clients :: s.table.clients[u].id != id
  {
    assert forall u | u in s.table.clients :: s.table.clients[u].id in s.issued;
  }

  lemma RewriteAligns(s: State, put: Effect, url: string)
    requires put.Put? && put.retire.None? && put.url in s.table.clients && put.row.id == s.table.clients[put.url].id
    requires multiset(put.row.redirectUris) == multiset(s.table.clients[put.url].redirectUris)
    requires CimdUrl.IsWeb(url)
    ensures Aligned(Apply(s, put), url) <==> Aligned(s, url)
  {
    hide CimdUrl.IsWeb;
  }

  lemma OneOwner(s: State, a: string, b: string)
    requires Settled(s)
    ensures a in s.table.clients && b in s.table.clients && s.table.clients[a].id == s.table.clients[b].id ==> a == b
  {
    hide RowOk, AppsAccounted;
  }

  /** Written together, they agree. */
  lemma PairAlignsOwn(s: State, e: seq<Effect>)
    requires KeepsStep(s, e) && |e| == 2 && e[1].Put? && CimdUrl.IsWeb(e[1].url)
    ensures Aligned(Apply(Apply(s, e[0]), e[1]), e[1].url)
  {
    RowIsWritten(Apply(s, e[0]), e[1].url, e[1].row, e[1].retire);
    hide CimdUrl.IsWeb, PutRows;
  }

  lemma PutLeavesOthers(s: State, put: Effect, url: string)
    requires put.Put? && CimdUrl.IsWeb(url) && put.url != url
    ensures Stored(Apply(s, put), url) == Stored(s, url) && Apply(s, put).apps == s.apps
  {
    if put.retire.Some? { RetiredIsNotWeb(put.retire.value.id); }
    hide CimdUrl.IsWeb;
  }

  /** What the agreement of one row depends on. */
  lemma AlignedDependsOn(s: State, s': State, url: string)
    requires Stored(s, url) == Stored(s', url)
    requires Stored(s, url).Some? ==>
      var id := Stored(s, url).value.id;
      (id in s.apps <==> id in s'.apps) && (id in s.apps ==> s.apps[id] == s'.apps[id])
    ensures Aligned(s, url) <==> Aligned(s', url)
  {}

  lemma OthersKeepTheirIds(s: State, e: seq<Effect>, url: string)
    requires Settled(s) && KeepsStep(s, e) && |e| == 2 && e[1].Put? && e[1].url != url && Stored(s, url).Some?
    ensures e[0].Update? || e[0].Create?
    ensures (if e[0].Update? then e[0].id else if e[0].Create? then e[0].id else "") != Stored(s, url).value.id
  {
    OneOwner(s, url, e[1].url);
    assert s.table.clients[url].id in s.issued;
    hide CimdUrl.IsWeb, Inv;
  }

  /** Nobody else's row or callbacks change. */
  lemma PairLeavesOthers(s: State, e: seq<Effect>, url: string)
    requires Settled(s) && KeepsStep(s, e) && |e| == 2 && e[1].Put? && CimdUrl.IsWeb(url) && e[1].url != url
    ensures Aligned(Apply(Apply(s, e[0]), e[1]), url) <==> Aligned(s, url)
  {
    if Stored(s, url).Some? { OthersKeepTheirIds(s, e, url); }
    hide CimdUrl.IsWeb, Settled, PutRows, Aligned;
    PutLeavesOthers(Apply(s, e[0]), e[1], url);
    AlignedDependsOn(s, Apply(Apply(s, e[0]), e[1]), url);
  }

  lemma DeletionAligns(s: State, e: seq<Effect>, url: string)
    requires Settled(s) && |e| == 2 && e[0].Remove? && e[1].Drop? && e[1].url in s.table.clients
    requires s.table.clients[e[1].url].id == e[0].id == e[1].id
    ensures Aligned(Apply(Apply(s, e[0]), e[1]), url) <==> Repairs(s, e, 2, url) || Aligned(s, url)
  {
    OneOwner(s, url, e[1].url);
    hide CimdUrl.IsWeb, Inv;
  }

  lemma BothAlign(s: State, e: seq<Effect>, url: string)
    requires Settled(s) && KeepsStep(s, e) && |e| == 2 && CimdUrl.IsWeb(url)
    requires e[0].Remove? ==>
      e[1].Drop? && e[1].url in s.table.clients && s.table.clients[e[1].url].id == e[0].id == e[1].id
    ensures Aligned(Apply(Apply(s, e[0]), e[1]), url) <==> Repairs(s, e, 2, url) || Aligned(s, url)
  {
    hide CimdUrl.IsWeb, Settled, Apply, Aligned;
    if e[0].Remove? {
      DeletionAligns(s, e, url);
    } else if e[1].url == url {
      PairAlignsOwn(s, e);
    } else {
      PairLeavesOthers(s, e, url);
    }
  }

  predicate WholeDeletion(s: State, e: seq<Effect>) {
    |e| == 2 && e[0].Remove? ==>
      e[1].Drop? && e[1].url in s.table.clients && s.table.clients[e[1].url].id == e[0].id == e[1].id
  }

  lemma DeletionsAreWhole(s: State, step: Step)
    requires Settled(s)
    ensures WholeDeletion(s, Effects(s, step))
  {
    if step.Visited? {
      var stored, v := Stored(s, step.v.url), step.v;
      if stored.Some? { assert RowOk(v.url, stored.value); }
      PlanShape(stored, Alive(s, v.url), v);
    }
    hide React, CimdUrl.IsWeb, Inv;
  }

  lemma AbandonKeepsEach(s: State, url: string)
    ensures Aligned(Apply(s, Abandon), url) <==> Aligned(s, url)
  {}

  lemma CutAligns(s: State, e: seq<Effect>, k: nat, url: string)
    requires Settled(s) && KeepsStep(s, e) && UpdatesDiffer(s, e) && WholeDeletion(s, e) && k <= |e|
    requires CimdUrl.IsWeb(url)
    ensures Aligned(ApplyAll(s, Cut(e, k)), url) <==> !Tears(s, e, k, url) && (Repairs(s, e, k, url) || Aligned(s, url))
  {
    assert |e| <= 2;
    hide Settled, CimdUrl.IsWeb, KeepsStep, UpdatesDiffer, ApplyAll, Aligned, Apply;
    if k == 0 {
      assert Cut(e, 0) == [];
      Run0(s);
    } else if k == 1 {
      assert Cut(e, 1) == [e[0]];
      Run1(s, e[0]);
      FirstAligns(s, e, url);
    } else {
      assert Cut(e, 2) == [e[0], e[1]];
      Run2(s, e[0], e[1]);
      BothAlign(s, e, url);
    }
  }

  lemma StepAligns(s: State, step: Step, url: string)
    requires Settled(s) && Valid(s, step) && CimdUrl.IsWeb(url)
    ensures var e := Effects(s, step);
      Aligned(Do(s, step), url) <==>
      !Tears(s, e, step.done, url) && (Repairs(s, e, step.done, url) || Aligned(s, url))
  {
    StepKeepsStep(s, step);
    UpdateStepDiffers(s, step);
    DeletionsAreWhole(s, step);
    hide Effects, Settled, CimdUrl.IsWeb, KeepsStep, UpdatesDiffer, ApplyAll, Cut, Aligned, Tears, Repairs, Apply;
    AbandonKeepsEach(ApplyAll(s, Cut(Effects(s, step), step.done)), url);
    CutAligns(s, Effects(s, step), step.done, url);
  }

  /**
    Over any history: a row and its app client's callbacks disagree exactly if the last step that
    tore them apart has not been followed by one that wrote both, or by the end of the app client.
    */
  lemma {:induction false} MisalignedIff(steps: seq<Step>, url: string)
    requires ValidRun(EMPTY, steps) && CimdUrl.IsWeb(url)
    ensures !Aligned(DoAll(EMPTY, steps), url) <==> Unrepaired(steps, url)
  {
    hide Tears, Repairs, Valid, Do, Settled, Effects, CimdUrl.IsWeb, Aligned;
    if steps == [] {
      NothingToAlign(url);
    } else {
      var n := |steps| - 1;
      MisalignedIff(steps[..n], url);
      ReachableIsSettled(steps[..n]);
      StepAligns(DoAll(EMPTY, steps[..n]), steps[n], url);
    }
  }

  lemma NothingToAlign(url: string)
    ensures Aligned(EMPTY, url)
  {}
}
