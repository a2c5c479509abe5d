/**
  The registrar as a step system. A step is one iteration of one of its loops over URLs or rows,
  possibly cut off after any number of its effects.
  */
module Steps {
  import opened Wrappers
  import opened Registry
  import opened Reaction
  import CimdUrl

  datatype Step =
    | Visited(v: Visit, done: nat)
    | Retire(cfg: Settings, url: string, now: int, done: nat)
    | Purge(url: string, now: int, done: nat)
    | Erase(url: string, done: nat)
    | Lost(id: Id, done: nat)

  function Stored(s: State, url: string): Option<Row> {
    if url in s.table.clients then Some(s.table.clients[url]) else None
  }

  predicate Alive(s: State, url: string) { url in s.table.clients && s.table.clients[url].id in s.apps }

  function PlanOf(s: State, v: Visit): Plan { React(Stored(s, v.url), Alive(s, v.url), v) }

  /** _hard_delete: the app client first, then both rows. */
  function HardDelete(url: string, row: Row): seq<Effect> { [Remove(row.id), Drop(url, row.id)] }

  /** A row that leaves service because its URL is not on the allow-list any more. */
  predicate Unlisted(cfg: Settings, url: string) {
    url !in cfg.allowed && !(RETIRED <= url) && !(FIXTURE <= url)
  }

  predicate Expired(row: Row, now: int) {
    !row.enabled && row.deleteAfter.Some? && row.deleteAfter.value <= now
  }

  function Effects(s: State, step: Step): seq<Effect> {
    match step
    case Visited(v, _) => PlanOf(s, v).effects
    case Retire(cfg, url, now, _) =>
      if url in s.table.clients && Unlisted(cfg, url) && s.table.clients[url].enabled
      then [Put(url, Disabled(s.table.clients[url], Some(now + cfg.accessSeconds)), None)] else []
    case Purge(url, now, _) =>
      if url in s.table.clients && Expired(s.table.clients[url], now) then HardDelete(url, s.table.clients[url]) else []
    case Erase(url, _) => if url in s.table.clients then HardDelete(url, s.table.clients[url]) else []
    case Lost(id, _) => [Remove(id)]
  }

  /** Ids are fresh, and a step is cut off within its own effects. */
  predicate Valid(s: State, step: Step) {
    && step.done <= |Effects(s, step)|
    && (step.Visited? ==> step.v.newId != "" && step.v.newId !in s.issued)
  }

  predicate Complete(s: State, step: Step) { step.done == |Effects(s, step)| }

  /** The state after a step; an app client that was created and not written is abandoned. */
  function Do(s: State, step: Step): State {
    Apply(ApplyAll(s, Cut(Effects(s, step), step.done)), Abandon)
  }

  function Cut(effects: seq<Effect>, k: nat): seq<Effect> { if k < |effects| then effects[..k] else effects }

  // ---- one step is a sequence of legal effects

  predicate LegalRun(s: State, effects: seq<Effect>)
    decreases |effects|
  {
    effects == [] ||
    (var n := |effects| - 1; LegalRun(s, effects[..n]) && Legal(ApplyAll(s, effects[..n]), effects[n]))
  }

  lemma {:induction false} LegalRunKeepsInv(s: State, effects: seq<Effect>)
    requires Inv(s) && LegalRun(s, effects)
    ensures Inv(ApplyAll(s, effects))
    decreases |effects|
  {
    if effects != [] {
      var n := |effects| - 1;
      LegalRunKeepsInv(s, effects[..n]);
      LegalEffectKeepsInv(ApplyAll(s, effects[..n]), effects[n]);
    }
  }

  lemma {:induction false} LegalPrefix(s: State, effects: seq<Effect>, k: nat)
    requires LegalRun(s, effects) && k <= |effects|
    ensures LegalRun(s, effects[..k])
    decreases |effects|
  {
    var n := |effects| - 1;
    if k <= n {
      LegalPrefix(s, effects[..n], k);
      assert effects[..n][..k] == effects[..k];
    } else {
      assert effects[..k] == effects;
    }
  }

  lemma Run0(s: State)
    ensures ApplyAll(s, []) == s
  {}

  lemma Run1(s: State, e: Effect)
    ensures ApplyAll(s, [e]) == Apply(s, e)
    ensures LegalRun(s, [e]) <==> Legal(s, e)
  {
    assert [e][..0] == [];
  }

  lemma Run2(s: State, e: Effect, f: Effect)
    ensures ApplyAll(s, [e, f]) == Apply(Apply(s, e), f)
    ensures LegalRun(s, [e, f]) <==> Legal(s, e) && Legal(Apply(s, e), f)
  {
    assert [e, f][..1] == [e];
    Run1(s, e);
  }

  // ---- what a visit can plan

  predicate Rewrites(stored: Option<Row>, v: Visit, e: Effect) {
    && stored.Some? && e.Put? && e.url == v.url && e.retire.None? && e.row.id == stored.value.id
    && (e.row.enabled ==> e.row.deleteAfter.None?)
  }

  /** A visit plans nothing, one rewrite of the row, new callbacks before it, or a new app client before the row. */
  predicate Shaped(stored: Option<Row>, alive: bool, v: Visit, effects: seq<Effect>) {
    || effects == []
    || (|effects| == 1 && Rewrites(stored, v, effects[0]))
    || (|effects| == 2 && alive && Rewrites(stored, v, effects[1]) && effects[1].row.enabled
        && effects[0] == Update(stored.value.id, effects[1].row.redirectUris))
    || (|effects| == 2 && effects[1].Put? && effects[1].url == v.url
        && effects[1].row.id == v.newId && effects[1].row.enabled && effects[1].row.deleteAfter.None?
        && effects[0] == Create(v.newId, effects[1].row.redirectUris)
        && effects[1].retire == (if stored.None? then None
                                 else Some(Retirement(stored.value.id, Some(v.now + v.cfg.accessSeconds)))))
  }

  lemma DocumentShape(stored: Option<Row>, alive: bool, v: Visit, doc: Document, h: Fetcher.Headers)
    requires stored.Some? ==> stored.value.id != "" && (stored.value.enabled ==> stored.value.deleteAfter.None?)
    ensures Shaped(stored, alive, v, OnDocument(stored, alive, v, doc, h).effects)
  {
    hide DocumentOk, KeysAnswered, KeysTooOld, FingerprintOf, KeysContent, Fetcher.Lifetime, Fetcher.Interpret;
  }

  lemma PlanShape(stored: Option<Row>, alive: bool, v: Visit)
    requires stored.Some? ==> stored.value.id != "" && (stored.value.enabled ==> stored.value.deleteAfter.None?)
    ensures Shaped(stored, alive, v, React(stored, alive, v).effects)
  {
    hide CimdUrl.AcceptableUrl, OnDocument, UrisOk;
    var answer := Answer(stored, v);
    if answer.Loaded? {
      DocumentShape(stored, alive, v, answer.document, answer.headers);
    }
  }

  lemma PlannedUrlIsWeb(stored: Option<Row>, alive: bool, v: Visit)
    ensures React(stored, alive, v).effects != [] ==> CimdUrl.IsWeb(v.url)
  {
    hide OnDocument, OnUnmodified, Answer, CimdUrl.IsWeb, CimdUrl.PathAccepted;
  }

  predicate Settled(s: State) { Inv(s) && s.pending.None? }

  lemma ShapedIsLegal(s: State, v: Visit, effects: seq<Effect>)
    requires Settled(s) && v.newId != "" && v.newId !in s.issued
    requires Shaped(Stored(s, v.url), Alive(s, v.url), v, effects)
    requires effects != [] ==> CimdUrl.IsWeb(v.url)
    ensures LegalRun(s, effects)
  {
    hide CimdUrl.IsWeb, PutRows;
    if |effects| == 1 {
      Run1(s, effects[0]);
      assert effects == [effects[0]];
    } else if |effects| == 2 {
      Run2(s, effects[0], effects[1]);
      assert effects == [effects[0], effects[1]];
    }
  }

  lemma LosingIsLegal(s: State, id: Id)
    ensures LegalRun(s, []) && LegalRun(s, [Remove(id)])
  {
    Run1(s, Remove(id));
  }

  lemma DisablingIsLegal(s: State, url: string, e: Effect)
    requires e.Put? && e.url == url && e.retire.None? && !e.row.enabled
    requires url in s.table.clients && e.row.id == s.table.clients[url].id
    ensures LegalRun(s, [e])
  {
    Run1(s, e);
  }

  lemma HardDeleteIsLegal(s: State, url: string)
    requires url in s.table.clients
    ensures LegalRun(s, HardDelete(url, s.table.clients[url]))
  {
    var id := s.table.clients[url].id;
    Run2(s, Remove(id), Drop(url, id));
  }

  lemma EffectsAreLegal(s: State, step: Step)
    requires Settled(s) && Valid(s, step)
    ensures LegalRun(s, Effects(s, step))
  {
    LosingIsLegal(s, "");
    hide LegalRun, Legal;
    var effects := Effects(s, step);
    match step
    case Visited(v, _) =>
      PlanShape(Stored(s, v.url), Alive(s, v.url), v);
      PlannedUrlIsWeb(Stored(s, v.url), Alive(s, v.url), v);
      hide React, Shaped;
      ShapedIsLegal(s, v, effects);
    case Retire(_, url, _, _) => if effects != [] { DisablingIsLegal(s, url, effects[0]); }
    case Purge(url, _, _) => if effects != [] { HardDeleteIsLegal(s, url); }
    case Erase(url, _) => if effects != [] { HardDeleteIsLegal(s, url); }
    case Lost(id, _) => LosingIsLegal(s, id);
  }
}
