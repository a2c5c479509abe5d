/** What becomes of an app client that its URL has lost: kept for one access-token lifetime, then deleted. */
module Retirement {
  import opened Wrappers
  import opened Registry
  import opened Reaction
  import opened Steps
  import opened Runs
  import opened Visits
  import opened History
  import L = Lifecycle
  import CimdUrl

  /** Nobody is served by the app client, and it is due for deletion at the given time. */
  predicate RetiredAs(s: State, id: Id, due: int) {
    var key := "retired://" + id;
    && key in s.table.clients && id in s.table.index && s.table.index[id] == Entry(key, false)
    && var row := s.table.clients[key]; row.id == id && !row.enabled && row.deleteAfter == Some(due)
  }

  /** Neither rows nor app client are left, and the id cannot come back. */
  predicate GoneFor(s: State, id: Id) {
    && id in s.issued && s.pending != Some(id)
    && "retired://" + id !in s.table.clients && id !in s.table.index && id !in s.apps
  }

  // ---- the replacing step

  lemma ReplacingEffects(stored: Row, alive: bool, v: Visit, e: seq<Effect>)
    requires Shaped(Some(stored), alive, v, e) && e != [] && Last(e).Put? && Last(e).row.id != stored.id
    ensures |e| == 2 && Last(e).url == v.url && Last(e).row.id == v.newId && e[0].Create? && e[0].id == v.newId
    ensures Last(e).retire == Some(Retirement(stored.id, Some(v.now + v.cfg.accessSeconds)))
  {}

  lemma RetiringPut(s: State, url: string, row: Row, id: Id, due: int)
    requires url != "retired://" + id && id != "" && row.id != id
    ensures RetiredAs(Apply(s, Put(url, row, Some(Retirement(id, Some(due))))), id, due)
  {
    assert RetiredUrl(id) == "retired://" + id;
  }

  predicate Replaces(s: State, step: Step, url: string, e: seq<Effect>, id: Id) {
    && step.Visited? && step.v.url == url && Committed(s, step) && Effects(s, step) == e && |e| == 2
    && e[0].Create? && e[0].id == step.v.newId && e[1].Put? && e[1].url == url && e[1].row.id == step.v.newId
    && e[1].retire == Some(Retirement(id, Some(step.v.now + step.v.cfg.accessSeconds)))
  }

  lemma VisitShape(s: State, step: Step, row: Row)
    requires Settled(s) && Valid(s, step) && step.Visited? && Stored(s, step.v.url) == Some(row)
    ensures Shaped(Some(row), Alive(s, step.v.url), step.v, Effects(s, step))
  {
    StoredIsOwn(s, step);
    hide Settled, Valid, Alive, Stored, React, Shaped;
    PlanShape(Some(row), Alive(s, step.v.url), step.v);
  }

  lemma ReplacingVisit(s: State, step: Step, row: Row)
    requires Settled(s) && Valid(s, step) && step.Visited? && Committed(s, step)
    requires Stored(s, step.v.url) == Some(row) && RowAfter(s, step).Some? && RowAfter(s, step).value.id != row.id
    ensures Replaces(s, step, step.v.url, Effects(s, step), row.id)
  {
    hide *;
    VisitShape(s, step, row);
    WritesDocumentIff(s, step);
    NotEmpty(s, step);
    ReplacingEffects(row, Alive(s, step.v.url), step.v, Effects(s, step));
    ItReplaces(s, step, step.v.url, Effects(s, step), row.id);
  }

  lemma NotEmpty(s: State, step: Step)
    requires Committed(s, step)
    ensures Effects(s, step) != []
  {
    hide Effects;
  }

  lemma ItReplaces(s: State, step: Step, url: string, e: seq<Effect>, id: Id)
    requires step.Visited? && step.v.url == url && Committed(s, step) && Effects(s, step) == e && |e| == 2
    requires e[0].Create? && e[0].id == step.v.newId
    requires Last(e).Put? && Last(e).url == url && Last(e).row.id == step.v.newId
    requires Last(e).retire == Some(Retirement(id, Some(step.v.now + step.v.cfg.accessSeconds)))
    ensures Replaces(s, step, url, e, id)
  {
    hide Committed, Effects;
  }

  /** A step that gives its URL another app client leaves the former one disabled and due one token lifetime later. */
  lemma ReplacedIsRetired(s: State, step: Step, url: string)
    requires Settled(s) && Valid(s, step) && CimdUrl.IsWeb(url)
    requires Stored(s, url).Some? && Stored(Do(s, step), url).Some?
    requires Stored(s, url).value.id != Stored(Do(s, step), url).value.id
    ensures step.Visited? && step.v.url == url && Stored(Do(s, step), url).value.id == step.v.newId
    ensures RetiredAs(Do(s, step), Stored(s, url).value.id, step.v.now + step.v.cfg.accessSeconds)
    ensures Stored(s, url).value.id in Do(s, step).apps <==> Stored(s, url).value.id in s.apps
  {
    hide React, Settled, Valid, Do, CimdUrl.IsWeb, Effects, Stored, RetiredAs, PutRows, Committed;
    if !(step.Visited? && step.v.url == url && Committed(s, step)) { OtherStepsKeepIdentity(s, step, url); }
    StepRows(s, step, url);
    ReplacingVisit(s, step, Stored(s, url).value);
    StoredIsOwn(s, step);
    WholePair(s, step);
    RetiredIsNotWeb(Stored(s, url).value.id);
    var e := Effects(s, step);
    PairRetires(s, url, e[0], e[1], Stored(s, url).value.id, step.v.now + step.v.cfg.accessSeconds);
  }

  lemma PairRetires(s: State, url: string, create: Effect, put: Effect, id: Id, due: int)
    requires create.Create? && put.Put? && put.url == url && url != RetiredUrl(id) && id != ""
    requires put.row.id == create.id && create.id != id && put.retire == Some(Retirement(id, Some(due)))
    ensures var m := Apply(Apply(Apply(s, create), put), Abandon);
      RetiredAs(m, id, due) && (id in m.apps <==> id in s.apps)
  {
    assert RetiredUrl(id) == "retired://" + id;
    RetiringPut(Apply(s, create), url, put.row, id, due);
    hide RetiredAs, PutRows;
    AbandonKeepsRetired(Apply(Apply(s, create), put), id, due);
  }

  lemma AbandonKeepsRetired(s: State, id: Id, due: int)
    ensures RetiredAs(Apply(s, Abandon), id, due) <==> RetiredAs(s, id, due)
  {}

  lemma WholePair(s: State, step: Step)
    requires Committed(s, step) && |Effects(s, step)| == 2
    ensures var e := Effects(s, step); Do(s, step) == Apply(Apply(Apply(s, e[0]), e[1]), Abandon)
  {
    var e := Effects(s, step);
    hide Effects, Apply;
    assert e == [e[0], e[1]];
    Run2(s, e[0], e[1]);
  }

  // ---- afterwards

  /** A purge that reaches the retired row at or after its time. */
  predicate Reaches(step: Step, id: Id, due: int) {
    step.Purge? && step.url == "retired://" + id && step.now >= due
  }

  /** A step that takes the app client away from Cognito. */
  predicate TakesApp(step: Step, id: Id, due: int) {
    step.done >= 1 && (Reaches(step, id, due) || (step.Lost? && step.id == id))
  }

  predicate ErasesKey(step: Step, id: Id) { step.Erase? && step.url == "retired://" + id }

  /** The effect neither writes nor drops the retired row. */
  predicate Spares(e: Effect, id: Id) {
    (e.Put? ==> CimdUrl.IsWeb(e.url) || e.url != "retired://" + id) && (e.Drop? ==> e.url != "retired://" + id)
  }

  lemma EffectKeepsRetired(s: State, e: Effect, id: Id, due: int)
    requires Inv(s) && Legal(s, e) && RetiredAs(s, id, due) && Spares(e, id)
    ensures RetiredAs(Apply(s, e), id, due)
    ensures id in Apply(s, e).apps <==> id in s.apps && e != Remove(id)
  {
    RetiredIsNotWeb(id);
    assert RetiredUrl(id) == "retired://" + id && id in s.issued;
    hide CimdUrl.IsWeb;
    if e.Put? { PutKeepsRetired(s, e.url, e.row, e.retire, id, due); }
    if e.Drop? { OtherKey(s, e.url, id); }
  }

  lemma OtherKey(s: State, url: string, id: Id)
    requires Inv(s) && url in s.table.clients && url != RetiredUrl(id) && RetiredUrl(id) in s.table.clients
    requires s.table.clients[RetiredUrl(id)].id == id
    ensures s.table.clients[url].id != id
  {
    hide RowOk, AppsAccounted;
  }

  lemma PutKeepsRetired(s: State, url: string, row: Row, retire: Option<Retirement>, id: Id, due: int)
    requires Inv(s) && Legal(s, Put(url, row, retire)) && RetiredAs(s, id, due) && url != RetiredUrl(id)
    ensures RetiredAs(Apply(s, Put(url, row, retire)), id, due)
  {
    assert RetiredUrl(id) == "retired://" + id;
    hide CimdUrl.IsWeb;
    if url in s.table.clients { OtherKey(s, url, id); }
    if retire.Some? && retire.value.id != id {
      if RetiredUrl(retire.value.id) == RetiredUrl(id) { RetiredUrlInjective(retire.value.id, id); }
    }
    hide Bijection, RowOk;
  }

  lemma {:induction false} EffectsKeepRetired(s: State, effects: seq<Effect>, id: Id, due: int)
    requires Inv(s) && LegalRun(s, effects) && RetiredAs(s, id, due) && forall e | e in effects :: Spares(e, id)
    ensures RetiredAs(ApplyAll(s, effects), id, due)
    ensures id in ApplyAll(s, effects).apps <==> id in s.apps && Remove(id) !in effects
    decreases |effects|
  {
    hide Inv, Legal, RetiredAs, Spares, Apply;
    if effects != [] {
      var n := |effects| - 1;
      EffectsKeepRetired(s, effects[..n], id, due);
      LegalRunKeepsInv(s, effects[..n]);
      EffectKeepsRetired(ApplyAll(s, effects[..n]), effects[n], id, due);
      assert effects == effects[..n] + [effects[n]];
    }
  }

  lemma ShapedSpares(stored: Option<Row>, alive: bool, v: Visit, effects: seq<Effect>, id: Id)
    requires Shaped(stored, alive, v, effects) && (effects != [] ==> CimdUrl.IsWeb(v.url))
    ensures (forall e | e in effects :: Spares(e, id)) && Remove(id) !in effects
  {
    hide CimdUrl.IsWeb;
  }

  lemma VisitSpares(s: State, step: Step, id: Id)
    requires Settled(s) && Valid(s, step) && step.Visited?
    ensures (forall e | e in Effects(s, step) :: Spares(e, id)) && Remove(id) !in Effects(s, step)
  {
    var stored, v := Stored(s, step.v.url), step.v;
    PlannedUrlIsWeb(stored, Alive(s, v.url), v);
    if stored.Some? { StoredIsOwn(s, step); }
    PlanShape(stored, Alive(s, v.url), v);
    hide React, CimdUrl.IsWeb, Settled, Valid, Shaped, Alive, Stored, Spares;
    ShapedSpares(stored, Alive(s, v.url), v, Effects(s, step), id);
  }

  /** No step but its purge and its deletion touches the retired row; only losing it takes the app client besides. */
  lemma StepSpares(s: State, step: Step, id: Id, due: int)
    requires Settled(s) && Valid(s, step) && RetiredAs(s, id, due)
    requires !Reaches(step, id, due) && !ErasesKey(step, id)
    ensures forall e | e in Effects(s, step) :: Spares(e, id)
    ensures Remove(id) in Effects(s, step) <==> step == Lost(id, step.done)
  {
    assert RetiredUrl(id) == "retired://" + id && RETIRED <= RetiredUrl(id);
    if step.Visited? {
      VisitSpares(s, step, id);
    } else {
      RetiredIsNotWeb(id);
      if (step.Purge? || step.Erase?) && step.url in s.table.clients && step.url != RetiredUrl(id) {
        OtherKey(s, step.url, id);
      }
      hide CimdUrl.IsWeb, Inv;
    }
  }

  lemma StepKeepsRetired(s: State, step: Step, id: Id, due: int)
    requires Settled(s) && Valid(s, step) && RetiredAs(s, id, due)
    requires !Reaches(step, id, due) && !ErasesKey(step, id)
    ensures RetiredAs(Do(s, step), id, due)
    ensures id in Do(s, step).apps <==> id in s.apps && !TakesApp(step, id, due)
  {
    hide Settled, Inv, Valid, Effects, RetiredAs, Apply, ApplyAll, Spares;
    StepIsRun(s, step);
    CutIsLegal(s, step, step.done);
    StepSpares(s, step, id, due);
    var effects := Cut(Effects(s, step), step.done);
    EffectsKeepRetired(s, effects, id, due);
    AbandonKeepsRetired(ApplyAll(s, effects), id, due);
    AbandonKeepsApps(ApplyAll(s, effects));
    CutRemoves(s, step, id);
  }

  lemma AbandonKeepsApps(s: State)
    ensures Apply(s, Abandon).apps == s.apps
  {}

  lemma CutRemoves(s: State, step: Step, id: Id)
    requires Valid(s, step) && (Remove(id) in Effects(s, step) <==> step == Lost(id, step.done))
    ensures Remove(id) in Cut(Effects(s, step), step.done) <==> step == Lost(id, step.done) && step.done >= 1
  {
    var e := Effects(s, step);
    if step == Lost(id, step.done) { assert e == [Remove(id)]; }
    hide Effects;
    assert forall f | f in Cut(e, step.done) :: f in e;
  }

  /** A purge in time that is cut off leaves the row for the next one; a complete one takes it away for good. */
  lemma PurgeTakesRetired(s: State, step: Step, id: Id, due: int)
    requires Settled(s) && Valid(s, step) && RetiredAs(s, id, due) && Reaches(step, id, due)
    ensures step.done <= 2
    ensures if step.done == 2 then GoneFor(Do(s, step), id) else RetiredAs(Do(s, step), id, due)
    ensures id in Do(s, step).apps <==> id in s.apps && step.done == 0
  {
    assert id in s.issued;
    PurgeEffects(s, step, id, due);
    hide Inv, Effects;
    L.PurgeIteration(s, step.url, step.now, step.done);
    L.DeleteIteration(s, step.url);
    hide Do;
  }

  lemma PurgeEffects(s: State, step: Step, id: Id, due: int)
    requires Valid(s, step) && RetiredAs(s, id, due) && Reaches(step, id, due)
    ensures step.done <= |Effects(s, step)| == 2
  {}

  // ---- once gone

  lemma EffectKeepsGone(s: State, e: Effect, id: Id)
    requires Inv(s) && Legal(s, e) && GoneFor(s, id)
    ensures GoneFor(Apply(s, e), id)
  {
    RetiredIsNotWeb(id);
    assert RetiredUrl(id) == "retired://" + id;
    hide CimdUrl.IsWeb;
    if e.Put? && e.retire.Some? && RetiredUrl(e.retire.value.id) == RetiredUrl(id) {
      RetiredUrlInjective(e.retire.value.id, id);
    }
  }

  lemma {:induction false} EffectsKeepGone(s: State, effects: seq<Effect>, id: Id)
    requires Inv(s) && LegalRun(s, effects) && GoneFor(s, id)
    ensures GoneFor(ApplyAll(s, effects), id)
    decreases |effects|
  {
    hide Inv, Legal, GoneFor, Apply;
    if effects != [] {
      var n := |effects| - 1;
      EffectsKeepGone(s, effects[..n], id);
      LegalRunKeepsInv(s, effects[..n]);
      EffectKeepsGone(ApplyAll(s, effects[..n]), effects[n], id);
    }
  }

  lemma StepKeepsGone(s: State, step: Step, id: Id)
    requires Settled(s) && Valid(s, step) && GoneFor(s, id)
    ensures GoneFor(Do(s, step), id)
  {
    hide Settled, Inv, Valid, Effects, GoneFor, Apply, ApplyAll, Cut;
    var effects := Cut(Effects(s, step), step.done);
    StepIsRun(s, step);
    CutIsLegal(s, step, step.done);
    EffectsKeepGone(s, effects, id);
    EffectKeepsGone(ApplyAll(s, effects), Abandon, id);
  }

  // ---- the whole life

  predicate PurgedAt(steps: seq<Step>, k: nat, id: Id, due: int) {
    k < |steps| && Reaches(steps[k], id, due) && steps[k].done == 2
  }

  predicate TakenAt(steps: seq<Step>, k: nat, id: Id, due: int) { k < |steps| && TakesApp(steps[k], id, due) }

  /**
    Whatever the registrar does short of deleting everything: the retired row stays as it is until a
    complete purge at or after its time, and is gone from then on together with the app client; the
    app client is there until such a purge takes it, unless somebody else deletes it.
    */
  lemma {:induction false} RetiredClientLeavesIff(s: State, steps: seq<Step>, id: Id, due: int)
    requires Settled(s) && RetiredAs(s, id, due) && ValidRun(s, steps)
    requires forall i | 0 <= i < |steps| :: !ErasesKey(steps[i], id)
    ensures var m := DoAll(s, steps); var purged := exists k: nat :: PurgedAt(steps, k, id, due);
      && (if purged then GoneFor(m, id) else RetiredAs(m, id, due))
      && (id in m.apps <==> id in s.apps && !exists k: nat :: TakenAt(steps, k, id, due))
  {
    hide Settled, Valid, Do, RetiredAs, GoneFor, Reaches, TakesApp, ErasesKey;
    if steps != [] {
      var n := |steps| - 1;
      var m, step := DoAll(s, steps[..n]), steps[n];
      RetiredClientLeavesIff(s, steps[..n], id, due);
      RunsKeepSettled(s, steps[..n]);
      forall k: nat
        ensures PurgedAt(steps, k, id, due) <==>
          PurgedAt(steps[..n], k, id, due) || (k == n && Reaches(step, id, due) && step.done == 2)
        ensures TakenAt(steps, k, id, due) <==>
          TakenAt(steps[..n], k, id, due) || (k == n && TakesApp(step, id, due)) {}
      OneMoreStep(m, step, id, due);
      assert PurgedAt(steps, n, id, due) <==> Reaches(step, id, due) && step.done == 2;
      assert TakenAt(steps, n, id, due) <==> TakesApp(step, id, due);
    }
  }

  lemma OneMoreStep(m: State, step: Step, id: Id, due: int)
    requires Settled(m) && Valid(m, step) && !ErasesKey(step, id) && (RetiredAs(m, id, due) || GoneFor(m, id))
    ensures GoneFor(m, id) ==> GoneFor(Do(m, step), id)
    ensures RetiredAs(m, id, due) ==>
      if Reaches(step, id, due) && step.done == 2 then GoneFor(Do(m, step), id) else RetiredAs(Do(m, step), id, due)
    ensures RetiredAs(m, id, due) ==> (id in Do(m, step).apps <==> id in m.apps && !TakesApp(step, id, due))
    ensures GoneFor(m, id) ==> id !in m.apps && id !in Do(m, step).apps
  {
    hide Settled, Valid, Do, Reaches, ErasesKey;
    if GoneFor(m, id) {
      StepKeepsGone(m, step, id);
    } else if Reaches(step, id, due) {
      PurgeTakesRetired(m, step, id, due);
    } else {
      hide RetiredAs;
      StepKeepsRetired(m, step, id, due);
    }
  }
}
