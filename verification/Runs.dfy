/** What holds over every run of the registrar, however often and wherever its steps are cut off. */
module Runs {
  import opened Wrappers
  import opened Registry
  import opened Reaction
  import opened Steps
  import CimdUrl

  function DoAll(s: State, steps: seq<Step>): State {
    if steps == [] then s
    else Do(DoAll(s, steps[..|steps| - 1]), steps[|steps| - 1])
  }

  predicate ValidRun(s: State, steps: seq<Step>) {
    steps == [] ||
    (var n := |steps| - 1; ValidRun(s, steps[..n]) && Valid(DoAll(s, steps[..n]), steps[n]))
  }

  lemma {:induction false} ValidPrefix(s: State, steps: seq<Step>, k: nat)
    requires ValidRun(s, steps) && k <= |steps|
    ensures ValidRun(s, steps[..k])
    ensures k < |steps| ==> Valid(DoAll(s, steps[..k]), steps[k])
  {
    hide Valid, Do, DoAll;
    var n := |steps| - 1;
    if k < n {
      ValidPrefix(s, steps[..n], k);
      assert steps[..n][..k] == steps[..k];
    } else {
      assert k == |steps| ==> steps[..k] == steps;
    }
  }

  lemma AppendStep(s: State, steps: seq<Step>, step: Step)
    ensures DoAll(s, steps + [step]) == Do(DoAll(s, steps), step)
    ensures ValidRun(s, steps + [step]) <==> ValidRun(s, steps) && Valid(DoAll(s, steps), step)
  {
    hide Do, Valid;
    assert (steps + [step])[..|steps|] == steps;
  }

  lemma {:induction false} AppendRun(s: State, a: seq<Step>, b: seq<Step>)
    ensures DoAll(s, a + b) == DoAll(DoAll(s, a), b)
    ensures ValidRun(s, a + b) <==> ValidRun(s, a) && ValidRun(DoAll(s, a), b)
  {
    hide Do, Valid;
    if b == [] {
      assert a + b == a;
    } else {
      var n := |b| - 1;
      AppendRun(s, a, b[..n]);
      assert (a + b)[..|a| + n] == a + b[..n];
    }
  }

  // ---- the invariant over runs

  lemma StepKeepsSettled(s: State, step: Step)
    requires Settled(s) && Valid(s, step)
    ensures Settled(Do(s, step))
  {
    StepIsRun(s, step);
    LegalEffectKeepsInv(ApplyAll(s, Cut(Effects(s, step), step.done)), Abandon);
    hide Inv, Effects, ApplyAll;
  }

  /** The invariant also holds between any two effects of a step. */
  lemma MidStepKeepsInv(s: State, step: Step, k: nat)
    requires Settled(s) && Valid(s, step)
    ensures Inv(ApplyAll(s, Cut(Effects(s, step), k)))
  {
    CutIsLegal(s, step, k);
    hide Inv, Effects;
    LegalRunKeepsInv(s, Cut(Effects(s, step), k));
  }

  lemma CutIsLegal(s: State, step: Step, k: nat)
    requires Settled(s) && Valid(s, step)
    ensures LegalRun(s, Cut(Effects(s, step), k))
  {
    EffectsAreLegal(s, step);
    hide Inv, Effects;
    LegalPrefix(s, Effects(s, step), if k < |Effects(s, step)| then k else |Effects(s, step)|);
  }

  /** What a reader sees in the middle of a step is what the table would be had the step been cut off there. */
  lemma ReadersSeeCutSteps(s: State, step: Step, k: nat)
    ensures ApplyAll(s, Cut(Effects(s, step), k)).table == Do(s, step.(done := k)).table
  {}

  lemma {:induction false} RunsKeepSettled(s: State, steps: seq<Step>)
    requires Settled(s) && ValidRun(s, steps)
    ensures Settled(DoAll(s, steps))
  {
    if steps != [] {
      var n := |steps| - 1;
      RunsKeepSettled(s, steps[..n]);
      StepKeepsSettled(DoAll(s, steps[..n]), steps[n]);
    }
  }

  lemma ReachableIsSettled(steps: seq<Step>)
    requires ValidRun(EMPTY, steps)
    ensures Settled(DoAll(EMPTY, steps))
  {
    RunsKeepSettled(EMPTY, steps);
  }

  /** A reachable state, the step taken there, and the state after it. */
  lemma PrefixStep(steps: seq<Step>, j: nat)
    requires ValidRun(EMPTY, steps) && j < |steps|
    ensures var s := DoAll(EMPTY, steps[..j]);
      Settled(s) && Valid(s, steps[j]) && DoAll(EMPTY, steps[..j + 1]) == Do(s, steps[j])
  {
    hide Valid, Do, Settled;
    ValidPrefix(EMPTY, steps, j);
    ReachableIsSettled(steps[..j]);
    assert steps[..j + 1] == steps[..j] + [steps[j]];
    AppendStep(EMPTY, steps[..j], steps[j]);
  }

  /** In every reachable state the rows are in bijection, so no two URLs share an app client. */
  lemma RowsInBijection(steps: seq<Step>)
    requires ValidRun(EMPTY, steps)
    ensures var t := DoAll(EMPTY, steps).table;
      && Bijection(t)
      && (forall u, w | u in t.clients && w in t.clients && t.clients[u].id == t.clients[w].id :: u == w)
  {
    RunsKeepSettled(EMPTY, steps);
  }

  // ---- retirement is final

  /** An id that was handed out and serves no client identifier URL. */
  predicate Dead(s: State, id: Id) {
    && id in s.issued && s.pending != Some(id)
    && forall u | u in s.table.clients && s.table.clients[u].id == id :: !CimdUrl.IsWeb(u)
  }

  lemma DeadStaysDeadAfterEffect(s: State, e: Effect, id: Id)
    requires Inv(s) && Legal(s, e) && Dead(s, id)
    ensures Dead(Apply(s, e), id)
  {
    hide CimdUrl.IsWeb;
    if e.Put? && e.retire.Some? { RetiredIsNotWeb(e.retire.value.id); }
  }

  lemma {:induction false} DeadStaysDeadOverRun(s: State, effects: seq<Effect>, id: Id)
    requires Inv(s) && LegalRun(s, effects) && Dead(s, id)
    ensures Dead(ApplyAll(s, effects), id)
    decreases |effects|
  {
    if effects != [] {
      var n := |effects| - 1;
      DeadStaysDeadOverRun(s, effects[..n], id);
      LegalRunKeepsInv(s, effects[..n]);
      DeadStaysDeadAfterEffect(ApplyAll(s, effects[..n]), effects[n], id);
    }
  }

  lemma DeadStaysDeadAfterStep(s: State, step: Step, id: Id)
    requires Settled(s) && Valid(s, step) && Dead(s, id)
    ensures Dead(Do(s, step), id)
  {
    hide *;
    var effects := Cut(Effects(s, step), step.done);
    StepIsRun(s, step);
    CutIsLegal(s, step, step.done);
    DeadStaysDeadOverRun(s, effects, id);
    DeadStaysDeadAfterEffect(ApplyAll(s, effects), Abandon, id);
  }

  /** Once an app client serves no URL, its INDEX row is never enabled again and no URL gets it back. */
  lemma {:induction false} RetirementIsFinal(s: State, steps: seq<Step>, id: Id)
    requires Settled(s) && ValidRun(s, steps) && Dead(s, id)
    ensures var t := DoAll(s, steps).table;
      && Dead(DoAll(s, steps), id)
      && (id in t.index ==> !t.index[id].enabled)
      && (forall u | u in t.clients && CimdUrl.IsWeb(u) :: t.clients[u].id != id)
  {
    hide CimdUrl.IsWeb;
    if steps != [] {
      var n := |steps| - 1;
      RetirementIsFinal(s, steps[..n], id);
      RunsKeepSettled(s, steps[..n]);
      DeadStaysDeadAfterStep(DoAll(s, steps[..n]), steps[n], id);
    }
    RunsKeepSettled(s, steps);
  }

  /** An app client that a URL loses in a step, by rotation, re-creation or deletion, is dead from then on. */
  lemma LosingAnIdKillsIt(s: State, step: Step, url: string, id: Id)
    requires Settled(s) && Valid(s, step)
    requires url in s.table.clients && s.table.clients[url].id == id
    requires var t := Do(s, step).table; !(url in t.clients && t.clients[url].id == id)
    ensures Dead(Do(s, step), id)
  {
    hide *;
    var effects := Cut(Effects(s, step), step.done);
    var m := ApplyAll(s, effects);
    StepIsRun(s, step);
    CutIsLegal(s, step, step.done);
    LosingAnIdKillsItOverRun(s, effects, url, id);
    DeadStaysDeadAfterEffect(m, Abandon, id);
  }

  /** A step is a legal run of its effects up to the cut, and giving up afterwards leaves the table alone. */
  lemma StepIsRun(s: State, step: Step)
    requires Settled(s) && Valid(s, step)
    ensures var m := ApplyAll(s, Cut(Effects(s, step), step.done));
      Do(s, step) == Apply(m, Abandon) && Do(s, step).table == m.table && Inv(m) && Inv(s) && Legal(m, Abandon)
  {
    hide Valid, Effects, ApplyAll, Cut, Bijection, RowOk, AppsAccounted;
    MidStepKeepsInv(s, step, step.done);
  }

  lemma {:induction false} LosingAnIdKillsItOverRun(s: State, effects: seq<Effect>, url: string, id: Id)
    requires Inv(s) && LegalRun(s, effects)
    requires url in s.table.clients && s.table.clients[url].id == id
    requires var t := ApplyAll(s, effects).table; !(url in t.clients && t.clients[url].id == id)
    ensures Dead(ApplyAll(s, effects), id)
    decreases |effects|
  {
    var n := |effects| - 1;
    var m := ApplyAll(s, effects[..n]);
    LegalRunKeepsInv(s, effects[..n]);
    if url in m.table.clients && m.table.clients[url].id == id {
      LosingEffect(m, effects[n], url, id);
    } else {
      LosingAnIdKillsItOverRun(s, effects[..n], url, id);
      DeadStaysDeadAfterEffect(m, effects[n], id);
    }
  }

  lemma LosingEffect(s: State, e: Effect, url: string, id: Id)
    requires Inv(s) && Legal(s, e)
    requires url in s.table.clients && s.table.clients[url].id == id
    requires var t := Apply(s, e).table; !(url in t.clients && t.clients[url].id == id)
    ensures Dead(Apply(s, e), id)
  {
    hide CimdUrl.IsWeb;
    assert s.table.index[id].url == url;
    if e.Put? && e.retire.Some? { RetiredIsNotWeb(e.retire.value.id); }
  }

  // ---- conservation of app clients

  /** Between steps, the app clients no row names are exactly the existing orphans. */
  lemma UnnamedAppsAreOrphans(steps: seq<Step>, id: Id)
    requires ValidRun(EMPTY, steps) && id in DoAll(EMPTY, steps).apps
    ensures var s := DoAll(EMPTY, steps);
      (forall u | u in s.table.clients :: s.table.clients[u].id != id) <==> id in s.orphans
  {
    RunsKeepSettled(EMPTY, steps);
    var s := DoAll(EMPTY, steps);
    hide RowOk, ValidRun, DoAll;
    if id !in s.orphans {
      assert s.table.clients[s.table.index[id].url].id == id;
    }
  }

  /** At most two effects; only the first can create an app client, and the second then writes its row. */
  predicate PairOk(e: seq<Effect>) {
    && |e| <= 2 && (forall f | f in e :: !f.Abandon?)
    && (|e| == 1 ==> !e[0].Create?)
    && (|e| == 2 ==> !e[1].Create? && (e[0].Create? ==> e[1].Put? && e[1].row.id == e[0].id))
  }

  lemma EffectsPair(s: State, step: Step)
    requires Settled(s)
    ensures PairOk(Effects(s, step))
  {
    hide React, Bijection, AppsAccounted, CimdUrl.IsWeb;
    if step.Visited? {
      PlanShape(Stored(s, step.v.url), Alive(s, step.v.url), step.v);
    }
  }

  lemma AbandonedByCut(s: State, e: seq<Effect>, k: nat)
    requires s.pending.None? && PairOk(e) && k <= |e|
    ensures Apply(ApplyAll(s, Cut(e, k)), Abandon).orphans ==
      s.orphans + if k == 1 && e[0].Create? then {e[0].id} else {}
  {
    hide PutRows, DeleteRows, ApplyAll;
    if k == 0 {
      assert Cut(e, 0) == [];
      Run0(s);
    } else if k == 1 {
      Run1(s, e[0]);
      assert Cut(e, 1) == [e[0]];
    } else {
      Run2(s, e[0], e[1]);
      assert Cut(e, 2) == [e[0], e[1]];
      var m := Apply(s, e[0]);
      assert m.orphans == s.orphans && Apply(m, e[1]).orphans == s.orphans;
      assert Apply(m, e[1]).pending == None;
    }
  }

  /** A step orphans an app client exactly when it is cut off after creating one and before writing its row. */
  lemma OrphansComeFromCutSteps(s: State, step: Step)
    requires Settled(s) && Valid(s, step)
    ensures Do(s, step).orphans ==
      s.orphans + (if step.done == 1 && Effects(s, step)[0].Create? && !Complete(s, step)
                   then {Effects(s, step)[0].id} else {})
  {
    EffectsPair(s, step);
    AbandonedByCut(s, Effects(s, step), step.done);
    hide Effects, Inv, Apply, ApplyAll, Cut;
  }

  /** A hard delete that was cut off anywhere can be run again, and ends where an uninterrupted one does. */
  lemma HardDeleteResumes(s: State, url: string, k: nat)
    requires Settled(s) && url in s.table.clients
    ensures Do(Do(s, Erase(url, k)), Erase(url, 2)) == Do(s, Erase(url, 2))
  {
    hide Inv;
    EraseWhole(s, url);
    if k == 0 {
      assert Cut(Effects(s, Erase(url, 0)), 0) == [];
      assert Do(s, Erase(url, 0)) == s;
    } else if k == 1 {
      var id := s.table.clients[url].id;
      assert Cut(Effects(s, Erase(url, 1)), 1) == [Remove(id)];
      Run1(s, Remove(id));
      EraseWhole(Do(s, Erase(url, 1)), url);
      assert s.apps - {id} - {id} == s.apps - {id};
    }
  }

  lemma EraseWhole(s: State, url: string)
    requires s.pending.None? && url in s.table.clients
    ensures var id := s.table.clients[url].id;
      && Do(s, Erase(url, 2)) == s.(apps := s.apps - {id}, table := DeleteRows(s.table, url, id))
      && url !in Do(s, Erase(url, 2)).table.clients
      && forall k | k >= 2 :: Do(s, Erase(url, k)) == Do(s, Erase(url, 2))
  {
    var id := s.table.clients[url].id;
    Run2(s, Remove(id), Drop(url, id));
  }
}
