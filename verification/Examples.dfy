/** Concrete inputs on which the registrar does less than its comments promise. */
module Examples {
  import opened Wrappers
  import opened Registry
  import opened Reaction
  import opened Steps
  import opened Visits
  import opened Fetcher
  import C = Callbacks
  import R = Runs
  import M = MappingStore
  import K = Keys
  import CimdUrl
  import Percent
  import Strings

  const URL := "https://c/m"
  const CFG := Settings([URL], 3600, 60, 3600, 259200, 100, (_: string) => true, (_: string) => true)
  const TAGGED := Headers([], Some("e"))

  lemma {:induction false} PlainDecodes(s: string)
    requires '%' !in s
    ensures Percent.DecodeURIComponent(s) == Some(s)
  {
    if s != [] {
      PlainDecodes(s[1..]);
      assert s[..1] + s[1..] == s;
    }
  }

  lemma PlainTextIsAccepted(s: string, rounds: nat)
    requires rounds > 0 && s in ["", "m"]
    ensures CimdUrl.Judge(Percent.Unquote, s, rounds) == CimdUrl.Accepted
  {
    PlainDecodes(s);
    Percent.DecodersAgree(s);
    hide Percent.Unquote, Percent.DecodeURIComponent;
  }

  lemma {:induction false} UntilAll(s: string, stops: string)
    requires forall c | c in s :: c !in stops
    ensures CimdUrl.Until(s, stops) == |s|
  {
    if s != [] { UntilAll(s[1..], stops); }
  }

  lemma {:induction false} SchemeEnds(scheme: string, rest: string)
    requires (forall c | c in scheme :: CimdUrl.SchemeChar(c)) && rest != [] && !CimdUrl.SchemeChar(rest[0])
    ensures CimdUrl.SchemeRun(scheme + rest) == |scheme|
  {
    if scheme == [] {
      assert scheme + rest == rest;
    } else {
      assert (scheme + rest)[1..] == scheme[1..] + rest;
      SchemeEnds(scheme[1..], rest);
    }
  }

  lemma UrlIsWeb()
    ensures CimdUrl.IsWeb(URL) && URL[5..8] == "://"
  {
    assert URL[5] == ':' && URL[6] == '/' && URL[7] == '/';
    assert URL[5..8] == "://";
    assert URL[0] in "hH" && URL[1] in "tT" && URL[2] in "tT" && URL[3] in "pP" && URL[4] in "sS";
  }

  lemma SchemeOfUrl()
    ensures CimdUrl.SchemeRun(URL) == 5
  {
    assert URL == "https" + "://c/m";
    SchemeEnds("https", "://c/m");
  }

  lemma HostOfUrl()
    ensures URL[8..] == "c/m" && URL[9..] == "/m" && CimdUrl.Until("c/m", "/?#") == 1
  {
    assert "c/m"[1..] == "/m" && CimdUrl.Until("/m", "/?#") == 0;
  }

  lemma AuthorityOf(url: string)
    requires |url| >= 9 && CimdUrl.Letter(url[0]) && CimdUrl.SchemeRun(url) == 5 && url[5..8] == "://"
    requires CimdUrl.Until(url[8..], "/?#") == 1
    ensures CimdUrl.AuthorityLength(url) == 9
  {
    hide CimdUrl.SchemeRun, CimdUrl.Until;
  }

  lemma UrlParts()
    ensures CimdUrl.AuthorityLength(URL) == 9 && CimdUrl.RawPath(URL) == "/m" && URL[9..] == "/m"
  {
    UrlIsWeb();
    hide CimdUrl.IsWeb;
    SchemeOfUrl();
    HostOfUrl();
    AuthorityOf(URL);
    hide CimdUrl.AuthorityLength, CimdUrl.SchemeRun;
    UntilAll("/m", "?#");
    hide CimdUrl.Until;
    assert "/m"[..2] == "/m";
  }

  lemma PathParts()
    ensures Strings.Split("/m", '/') == ["", "m"]
    ensures CimdUrl.After(CimdUrl.Before("/m", '#'), '?') == "" && CimdUrl.After("/m", '#') == ""
  {
    Strings.SplitPlain("m", '/');
    Strings.SplitFirst("", '/', "m");
    assert "" + ['/'] + "m" == "/m";
    UntilAll("/m", "#");
    UntilAll("/m", "?");
    hide Strings.Split;
  }

  lemma UrlIsAccepted()
    ensures CimdUrl.AcceptableUrl(URL, CFG.hostRule)
  {
    hide Strings.Split, CimdUrl.AuthorityLength, CimdUrl.RawPath, CimdUrl.Judge, CimdUrl.After, CimdUrl.Before;
    UrlIsWeb();
    hide CimdUrl.IsWeb;
    UrlParts();
    PathParts();
    PlainTextIsAccepted("", CimdUrl.MAX_DECODES);
    PlainTextIsAccepted("m", CimdUrl.MAX_DECODES);
  }

  // ---- a 304 confirms a client whose keys were never validated again

  const DOC := Document(URL, "c", ["https://c/cb"], None, Some("https://c/keys"), true)

  function Seen(now: int, doc: Response<Document>, jwks: Response<string>, newId: Id): Visit {
    Visit(CFG, URL, true, now, doc, jwks, newId)
  }

  /** The document and its keys at 0; the document without its keys at 100; not modified at 200. */
  const REGISTERING := Seen(0, Reply(200, TAGGED, true, Some(DOC)), Reply(200, TAGGED, true, Some("keys")), "id1")
  const KEYLESS := Seen(100, Reply(200, TAGGED, true, Some(DOC)), Broken, "id2")
  const UNMODIFIED := Seen(200, Reply(304, TAGGED, false, None), Broken, "id3")

  /**
    The second visit marks the row stale because the keys could not be fetched; the third confirms
    it for another cache_min seconds although the declared keys have not been fetched since.
    */
  lemma UnmodifiedAfterMissingKeys()
    ensures var first := RowLeft(None, false, REGISTERING);
      var second := RowLeft(first, true, KEYLESS);
      var third := React(second, true, UNMODIFIED);
      && first.Some? && first.value.enabled
      && second.Some? && second.value.enabled && second.value.cacheUntil == 100 && !KeysValidated(KEYLESS)
      && third.verdict == Validated && !KeysValidated(UNMODIFIED)
      && third.effects == [Put(URL, second.value.(fetchedAt := 200, cacheUntil := 260), None)]
  {
    UrlIsAccepted();
    hide CimdUrl.AcceptableUrl;
    assert UrisOk(CFG, DOC.redirectUris);
    var first := RowLeft(None, false, REGISTERING);
    assert first == Some(FreshRow(REGISTERING, DOC, TAGGED, "id1"));
    var second := RowLeft(first, true, KEYLESS);
    assert second == Some(StaleRow(first.value, KEYLESS, DOC, TAGGED, "id1"));
  }

  // ---- steps and what they come to

  lemma DoFirst(s: State, step: Step, e: Effect, more: seq<Effect>)
    requires Effects(s, step) == [e] + more && step.done == 1
    ensures Do(s, step) == Apply(Apply(s, e), Abandon)
    ensures (step.Visited? ==> step.v.newId != "" && step.v.newId !in s.issued) ==> Valid(s, step)
    ensures more == [] ==> Complete(s, step)
  {
    hide Effects, Apply;
    assert Cut([e] + more, 1) == [e];
    Run1(s, e);
  }

  lemma DoBoth(s: State, step: Step, e: Effect, f: Effect)
    requires Effects(s, step) == [e, f] && step.done == 2
    ensures Do(s, step) == Apply(Apply(Apply(s, e), f), Abandon)
    ensures (step.Visited? ==> step.v.newId != "" && step.v.newId !in s.issued) ==> Valid(s, step)
    ensures Complete(s, step)
  {
    hide Effects, Apply;
    Run2(s, e, f);
  }

  lemma NothingToDo(s: State, step: Step)
    requires s.pending.None? && Effects(s, step) == [] && step.done == 0 && !step.Visited?
    ensures Valid(s, step) && Do(s, step) == s
  {
    hide Effects;
    Run0(s);
  }

  lemma EffectsOfVisit(s: State, v: Visit, done: nat, row: Row)
    requires Stored(s, v.url) == Some(row) && Alive(s, v.url)
    ensures Effects(s, Visited(v, done)) == React(Some(row), true, v).effects
  {
    hide React;
  }

  lemma EffectsOfFirstVisit(s: State, v: Visit, done: nat)
    requires Stored(s, v.url) == None
    ensures Effects(s, Visited(v, done)) == React(None, false, v).effects
  {
    hide React;
  }

  /** A visit that only rewrites the row. */
  lemma RewriteReaches(s: State, v: Visit, row: Row, next: Row)
    requires Stored(s, v.url) == Some(row) && Alive(s, v.url) && s.pending.None?
    requires React(Some(row), true, v).effects == [Put(v.url, next, None)] && v.newId != "" && v.newId !in s.issued
    ensures Valid(s, Visited(v, 1)) && Do(s, Visited(v, 1)) == s.(table := PutRows(s.table, v.url, next, None))
  {
    hide React, PutRows;
    EffectsOfVisit(s, v, 1, row);
    hide Effects, Stored, Alive;
    assert [Put(v.url, next, None)] + [] == [Put(v.url, next, None)];
    DoFirst(s, Visited(v, 1), Put(v.url, next, None), []);
  }

  /** A run, step by step. */
  lemma RunOf(a: Step, b: Step, c: Step, d: Step)
    ensures R.DoAll(EMPTY, [a]) == Do(EMPTY, a) && (R.ValidRun(EMPTY, [a]) <==> Valid(EMPTY, a))
    ensures R.DoAll(EMPTY, [a, b]) == Do(Do(EMPTY, a), b)
    ensures R.DoAll(EMPTY, [a, b, c]) == Do(Do(Do(EMPTY, a), b), c)
    ensures R.ValidRun(EMPTY, [a, b, c]) <==>
      Valid(EMPTY, a) && Valid(Do(EMPTY, a), b) && Valid(Do(Do(EMPTY, a), b), c)
    ensures R.DoAll(EMPTY, [a, b, c, d]) == Do(Do(Do(Do(EMPTY, a), b), c), d)
    ensures R.ValidRun(EMPTY, [a, b, c, d]) <==>
      R.ValidRun(EMPTY, [a, b, c]) && Valid(Do(Do(Do(EMPTY, a), b), c), d)
  {
    hide Do, Valid;
    R.AppendStep(EMPTY, [], a);
    R.AppendStep(EMPTY, [a], b);
    R.AppendStep(EMPTY, [a, b], c);
    R.AppendStep(EMPTY, [a, b, c], d);
    assert [] + [a] == [a] && [a] + [b] == [a, b] && [a, b] + [c] == [a, b, c] && [a, b, c] + [d] == [a, b, c, d];
  }

  // ---- the client all the following runs begin with

  const OTHER := DOC.(redirectUris := ["https://c/other"], jwksUri := None)
  const ORIGINAL := DOC.(jwksUri := None)
  const SPOILED := ORIGINAL.(redirectUris := [])

  function VisitWith(doc: Document): Visit { Seen(100, Reply(200, TAGGED, true, Some(doc)), Broken, "id2") }

  const ROW := FreshRow(VisitWith(ORIGINAL), ORIGINAL, TAGGED, "id1")
  const FIRST := VisitWith(ORIGINAL).(newId := "id1")
  const REGISTER := Visited(FIRST, 2)

  function OneRow(row: Row): Table { Table(map[URL := row], map["id1" := Entry(URL, row.enabled)]) }

  lemma OneRowPut(row: Row, next: Row)
    requires row.id == "id1" && next.id == "id1"
    ensures PutRows(OneRow(row), URL, next, None) == OneRow(next)
  {}

  const REGISTERED := State(OneRow(ROW), map["id1" := ["https://c/cb"]], {"id1"}, None, {})

  lemma RegisterEffects()
    ensures Effects(EMPTY, REGISTER) == [Create("id1", ["https://c/cb"]), Put(URL, ROW, None)]
  {
    UrlIsAccepted();
    hide CimdUrl.AcceptableUrl;
    assert UrisOk(CFG, ORIGINAL.redirectUris);
    EffectsOfFirstVisit(EMPTY, FIRST, 2);
  }

  lemma RegisterReaches()
    ensures Valid(EMPTY, REGISTER) && Do(EMPTY, REGISTER) == REGISTERED
  {
    RegisterEffects();
    var create, put := Create("id1", ["https://c/cb"]), Put(URL, ROW, None);
    RegisteringWrites();
    hide Effects, Valid, Do, FreshRow, Apply;
    DoBoth(EMPTY, REGISTER, create, put);
  }

  lemma RegisteringWrites()
    ensures Apply(Apply(Apply(EMPTY, Create("id1", ["https://c/cb"])), Put(URL, ROW, None)), Abandon) == REGISTERED
  {
    assert ROW.id == "id1" && ROW.enabled;
    hide FreshRow;
  }

  // ---- the keyless client as a run

  function Holding(row: Row, callbacks: seq<string>): State {
    State(OneRow(row), map["id1" := callbacks], {"id1"}, None, {})
  }

  /** The first visit of the URL registers it. */
  lemma RegistrationReaches(v: Visit, row: Row)
    requires v.url == URL && v.newId == "id1" && row.id == "id1"
    requires React(None, false, v).effects == [Create("id1", row.redirectUris), Put(URL, row, None)]
    ensures Valid(EMPTY, Visited(v, 2)) && Do(EMPTY, Visited(v, 2)) == Holding(row, row.redirectUris)
  {
    hide React;
    EffectsOfFirstVisit(EMPTY, v, 2);
    hide Effects, Valid, Do;
    DoBoth(EMPTY, Visited(v, 2), Create("id1", row.redirectUris), Put(URL, row, None));
  }

  /** A later visit that only rewrites its row. */
  lemma HoldingReaches(v: Visit, row: Row, callbacks: seq<string>, next: Row)
    requires v.url == URL && v.newId != "" && v.newId != "id1" && row.id == next.id == "id1"
    requires React(Some(row), true, v).effects == [Put(URL, next, None)]
    ensures var s := Holding(row, callbacks);
      && Stored(s, URL) == Some(row) && Committed(s, Visited(v, 1)) && Complete(s, Visited(v, 1))
      && Valid(s, Visited(v, 1)) && Do(s, Visited(v, 1)) == Holding(next, callbacks)
  {
    var s := Holding(row, callbacks);
    hide React;
    assert Stored(s, URL) == Some(row) && Alive(s, URL);
    EffectsOfVisit(s, v, 1, row);
    OneRowPut(row, next);
    hide Effects, Valid, Do, PutRows, Stored, Alive;
    RewriteReaches(s, v, row, next);
  }

  const KEYED := FreshRow(REGISTERING, DOC, TAGGED, "id1")
  const UNKEYED := StaleRow(KEYED, KEYLESS, DOC, TAGGED, "id1")
  const CONFIRMED := UNKEYED.(fetchedAt := 200, cacheUntil := 260)

  lemma KeylessPlans()
    ensures React(None, false, REGISTERING).effects == [Create("id1", KEYED.redirectUris), Put(URL, KEYED, None)]
    ensures React(Some(KEYED), true, KEYLESS).effects == [Put(URL, UNKEYED, None)]
    ensures React(Some(UNKEYED), true, UNMODIFIED).effects == [Put(URL, CONFIRMED, None)]
    ensures KEYED.id == UNKEYED.id == CONFIRMED.id == "id1"
    ensures K.Keyless(Some(KEYED), KEYLESS) && K.Reconfirms(Some(UNKEYED), UNMODIFIED) && !KeysValidated(UNMODIFIED)
  {
    UrlIsAccepted();
    hide CimdUrl.AcceptableUrl;
    assert UrisOk(CFG, DOC.redirectUris);
  }

  lemma AtStep(steps: seq<Step>, k: nat, s: State)
    requires k < |steps| && R.DoAll(EMPTY, steps[..k]) == s && steps[k].Visited? && steps[k].v.url == URL
    ensures K.KeylessAt(steps, k, URL) <==> Committed(s, steps[k]) && K.Keyless(Stored(s, URL), steps[k].v)
    ensures K.ReconfirmedAt(steps, k, URL) <==> Complete(s, steps[k]) && K.Reconfirms(Stored(s, URL), steps[k].v)
  {
    hide R.DoAll, Effects, K.Keyless, K.Reconfirms, Stored;
  }

  lemma ThreeSteps(steps: seq<Step>, s1: State, s2: State)
    requires |steps| == 3 && Valid(EMPTY, steps[0]) && Do(EMPTY, steps[0]) == s1
    requires Valid(s1, steps[1]) && Do(s1, steps[1]) == s2 && Valid(s2, steps[2])
    ensures R.ValidRun(EMPTY, steps) && R.DoAll(EMPTY, steps[..1]) == s1 && R.DoAll(EMPTY, steps[..2]) == s2
  {
    hide Do, Valid, R.DoAll, R.ValidRun;
    RunOf(steps[0], steps[1], steps[2], steps[2]);
    assert steps == [steps[0], steps[1], steps[2]];
    assert steps[..1] == [steps[0]] && steps[..2] == [steps[0], steps[1]];
  }

  /** A registration, a visit without keys and a 304, as a run. */
  lemma KeylessRun(u: Visit, v: Visit, w: Visit, first: Row, second: Row, third: Row)
    requires u.url == v.url == w.url == URL && u.newId == "id1" && first.id == second.id == third.id == "id1"
    requires v.newId != "" && v.newId != "id1" && w.newId != "" && w.newId != "id1"
    requires React(None, false, u).effects == [Create("id1", first.redirectUris), Put(URL, first, None)]
    requires React(Some(first), true, v).effects == [Put(URL, second, None)]
    requires React(Some(second), true, w).effects == [Put(URL, third, None)]
    requires K.Keyless(Some(first), v) && K.Reconfirms(Some(second), w)
    ensures var steps := [Visited(u, 2), Visited(v, 1), Visited(w, 1)];
      R.ValidRun(EMPTY, steps) && K.KeylessAt(steps, 1, URL) && K.ReconfirmedAt(steps, 2, URL)
  {
    hide *;
    RegistrationReaches(u, first);
    HoldingReaches(v, first, first.redirectUris, second);
    HoldingReaches(w, second, first.redirectUris, third);
    var s1, s2 := Holding(first, first.redirectUris), Holding(second, first.redirectUris);
    var steps := [Visited(u, 2), Visited(v, 1), Visited(w, 1)];
    ThreeSteps(steps, s1, s2);
    AtStep(steps, 1, s1);
    AtStep(steps, 2, s2);
  }

  /** From nothing registered, the client whose keys could not be fetched does not stay unauthorized. */
  lemma KeylessThenConfirmed()
    ensures var steps := [Visited(REGISTERING, 2), Visited(KEYLESS, 1), Visited(UNMODIFIED, 1)];
      R.ValidRun(EMPTY, steps) && K.KeylessAt(steps, 1, URL) && K.ReconfirmedAt(steps, 2, URL)
      && !KeysValidated(UNMODIFIED)
  {
    KeylessPlans();
    hide FreshRow, StaleRow, React, K.Keyless, K.Reconfirms, K.KeylessAt, K.ReconfirmedAt, KeysValidated, R.ValidRun;
    KeylessRun(REGISTERING, KEYLESS, UNMODIFIED, KEYED, UNKEYED, CONFIRMED);
  }

  // ---- a torn update is not repaired by the document it was torn from

  const TORN := Visited(VisitWith(OTHER), 1)
  const REVERTED := Visited(VisitWith(ORIGINAL), 1)

  lemma PlansOfReverted(doc: Document)
    requires doc in [OTHER, ORIGINAL]
    ensures React(Some(ROW), true, VisitWith(doc)).effects ==
      (if doc == OTHER then [Update("id1", OTHER.redirectUris)] else [])
      + [Put(URL, FreshRow(VisitWith(doc), doc, TAGGED, "id1"), None)]
  {
    UrlIsAccepted();
    hide CimdUrl.AcceptableUrl;
    assert UrisOk(CFG, doc.redirectUris);
    assert OTHER.redirectUris[0] == "https://c/other" && ORIGINAL.redirectUris[0] == "https://c/cb";
    assert multiset(OTHER.redirectUris)["https://c/cb"] == 0 && multiset(ORIGINAL.redirectUris)["https://c/cb"] == 1;
  }

  const HALFWAY := REGISTERED.(apps := map["id1" := OTHER.redirectUris])

  lemma Lookups()
    ensures Stored(REGISTERED, URL) == Some(ROW) && Alive(REGISTERED, URL)
    ensures Stored(HALFWAY, URL) == Some(ROW) && Alive(HALFWAY, URL)
  {
    assert ROW.id == "id1";
    hide FreshRow;
  }

  lemma TornEffects()
    ensures Effects(REGISTERED, TORN) ==
      [Update("id1", OTHER.redirectUris)] + [Put(URL, FreshRow(VisitWith(OTHER), OTHER, TAGGED, "id1"), None)]
    ensures Effects(HALFWAY, REVERTED) == [Put(URL, ROW, None)] + []
  {
    hide React, FreshRow, Effects, Stored, Alive;
    Lookups();
    PlansOfReverted(OTHER);
    PlansOfReverted(ORIGINAL);
    EffectsOfVisit(REGISTERED, VisitWith(OTHER), 1, ROW);
    EffectsOfVisit(HALFWAY, VisitWith(ORIGINAL), 1, ROW);
  }

  lemma TornState()
    ensures Valid(REGISTERED, TORN) && Do(REGISTERED, TORN) == HALFWAY
  {
    hide FreshRow, Effects, Valid, Do;
    TornEffects();
    DoFirst(REGISTERED, TORN, Update("id1", OTHER.redirectUris),
            [Put(URL, FreshRow(VisitWith(OTHER), OTHER, TAGGED, "id1"), None)]);
  }

  lemma RevertedState()
    ensures Valid(HALFWAY, REVERTED) && Complete(HALFWAY, REVERTED)
    ensures Do(HALFWAY, REVERTED).table.clients == map[URL := ROW] && Do(HALFWAY, REVERTED).apps == HALFWAY.apps
  {
    hide FreshRow, Effects, Valid, Do, Complete;
    TornEffects();
    DoFirst(HALFWAY, REVERTED, Put(URL, ROW, None), []);
  }

  /**
    Registered, cut off between Cognito and the table, then visited again with the document as it
    was: callbacks and row stay apart.
    */
  lemma TornUpdateStays()
    ensures R.ValidRun(EMPTY, [REGISTER, TORN, REVERTED]) && Complete(HALFWAY, REVERTED)
    ensures !C.Aligned(R.DoAll(EMPTY, [REGISTER, TORN, REVERTED]), URL)
  {
    hide Do, Valid, Complete;
    RunOf(REGISTER, TORN, REVERTED, REVERTED);
    RegisterReaches();
    TornState();
    RevertedState();
    assert multiset(OTHER.redirectUris)["https://c/cb"] == 0 && multiset(ROW.redirectUris)["https://c/cb"] == 1;
  }

  // ---- a client disabled before its removal is never deleted

  const SPOIL := Visited(VisitWith(SPOILED), 1)
  const SILENT := ROW.(enabled := false)
  const DISABLED := REGISTERED.(table := OneRow(SILENT))
  const UNLISTED := CFG.(allowed := [])

  lemma PlanOfSpoiled()
    ensures React(Some(ROW), true, VisitWith(SPOILED)).effects == [Put(URL, SILENT, None)]
  {
    UrlIsAccepted();
    hide CimdUrl.AcceptableUrl;
    assert ROW.deleteAfter == None && ROW.enabled;
  }

  lemma RegisteredIsStored()
    ensures Stored(REGISTERED, URL) == Some(ROW) && Alive(REGISTERED, URL) && ROW.id == "id1" && SILENT.id == "id1"
  {
    assert ROW.id == "id1";
    hide FreshRow;
  }

  lemma SpoilReaches()
    ensures Valid(REGISTERED, SPOIL) && Do(REGISTERED, SPOIL) == DISABLED
  {
    PlanOfSpoiled();
    RegisteredIsStored();
    hide FreshRow, React, Stored, Alive, Do, Valid;
    OneRowPut(ROW, SILENT);
    hide OneRow, PutRows;
    RewriteReaches(REGISTERED, VisitWith(SPOILED), ROW, SILENT);
  }

  lemma SweepsPassOver(removed: int, purged: int)
    ensures Effects(DISABLED, Retire(UNLISTED, URL, removed, 0)) == []
    ensures Effects(DISABLED, Purge(URL, purged, 0)) == []
    ensures Unlisted(UNLISTED, URL) && URL in DISABLED.table.clients
  {
    assert !DISABLED.table.clients[URL].enabled && DISABLED.table.clients[URL].deleteAfter == None;
    assert URL[0] != RETIRED[0] && URL[0] != FIXTURE[0];
    hide FreshRow;
  }

  /** Whenever the sweeps run after the URL left the allow-list, the row that was disabled before is still there. */
  lemma SweptButKept(removed: int, purged: int)
    ensures var steps := [REGISTER, SPOIL, Retire(UNLISTED, URL, removed, 0), Purge(URL, purged, 0)];
      && R.ValidRun(EMPTY, steps) && Unlisted(UNLISTED, URL)
      && URL in R.DoAll(EMPTY, steps).table.clients
  {
    var retire, purge := Retire(UNLISTED, URL, removed, 0), Purge(URL, purged, 0);
    SweepsPassOver(removed, purged);
    RegisterReaches();
    SpoilReaches();
    hide Effects, Do, Valid, Unlisted, FreshRow;
    NothingToDo(DISABLED, retire);
    NothingToDo(DISABLED, purge);
    RunOf(REGISTER, SPOIL, retire, purge);
  }

  // ---- a listed client is purged after a 304

  const REMOVE := Retire(UNLISTED, URL, 1000, 1)
  const LEAVING := Disabled(ROW, Some(4600))
  const REMOVED := REGISTERED.(table := OneRow(LEAVING))
  const AGAIN := Seen(4999, Reply(304, TAGGED, false, None), Broken, "id2")
  const RELIST := Visited(AGAIN, 1)
  const GREETED := REGISTERED.(table := OneRow(LEAVING.(fetchedAt := 4999, cacheUntil := 5059)))

  lemma RemoveReaches()
    ensures Valid(REGISTERED, REMOVE) && Do(REGISTERED, REMOVE) == REMOVED
  {
    assert URL[0] != RETIRED[0] && URL[0] != FIXTURE[0] && ROW.enabled && ROW.id == "id1";
    hide FreshRow;
    var put := Put(URL, LEAVING, None);
    assert Effects(REGISTERED, REMOVE) == [put] + [];
    hide Effects, Valid, Do;
    DoFirst(REGISTERED, REMOVE, put, []);
  }

  lemma PlanOfAgain()
    ensures React(Some(LEAVING), true, AGAIN).effects ==
      [Put(URL, LEAVING.(fetchedAt := 4999, cacheUntil := 5059), None)]
  {
    UrlIsAccepted();
    hide CimdUrl.AcceptableUrl;
    assert LEAVING.etag == Some("e") && UrisOk(CFG, LEAVING.redirectUris);
    hide FreshRow;
  }

  lemma RelistReaches()
    ensures Valid(REMOVED, RELIST) && Do(REMOVED, RELIST) == GREETED
  {
    PlanOfAgain();
    LeavingIsStored();
    hide FreshRow, React, Stored, Alive, Do, Valid, Disabled;
    OneRowPut(LEAVING, LEAVING.(fetchedAt := 4999, cacheUntil := 5059));
    hide OneRow, PutRows;
    RewriteReaches(REMOVED, AGAIN, LEAVING, LEAVING.(fetchedAt := 4999, cacheUntil := 5059));
  }

  lemma LeavingIsStored()
    ensures Stored(REMOVED, URL) == Some(LEAVING) && Alive(REMOVED, URL) && LEAVING.id == "id1"
  {
    assert LEAVING.id == "id1";
    hide FreshRow;
  }

  lemma PurgeReaches()
    ensures Valid(GREETED, Purge(URL, 5000, 2)) && Do(GREETED, Purge(URL, 5000, 2)).table == EMPTY.table
  {
    assert LEAVING.id == "id1" && LEAVING.deleteAfter == Some(4600) && !LEAVING.enabled;
    hide FreshRow;
    assert Effects(GREETED, Purge(URL, 5000, 2)) == [Remove("id1"), Drop(URL, "id1")];
    hide Effects, Valid, Do;
    DoBoth(GREETED, Purge(URL, 5000, 2), Remove("id1"), Drop(URL, "id1"));
  }

  /** Removed at 1000, listed again and answered by a 304 at 4999, purged at 5000 although it is on the allow-list. */
  lemma RelistedThenPurged()
    ensures var steps := [REGISTER, REMOVE, RELIST, Purge(URL, 5000, 2)];
      && R.ValidRun(EMPTY, steps) && URL in RELIST.v.cfg.allowed
      && URL in R.DoAll(EMPTY, [REGISTER, REMOVE, RELIST]).table.clients
      && URL !in R.DoAll(EMPTY, steps).table.clients
  {
    hide Do, Valid, FreshRow;
    RunOf(REGISTER, REMOVE, RELIST, Purge(URL, 5000, 2));
    RegisterReaches();
    RemoveReaches();
    RelistReaches();
    PurgeReaches();
  }

  // ---- an answer that outlives its window

  const DISABLED_AT := 10.0

  function Before(): Table { Table(map[], map["id1" := Entry(URL, true)]) }

  function AfterIt(): Table { Table(map[], map["id1" := Entry(URL, false)]) }

  /** An app client that is disabled at 10. */
  function DisabledAtTen(t: real): Table { if t < DISABLED_AT then Before() else AfterIt() }

  /**
    A cache of 60 seconds: asked at 9.7, read at 9.9, stored at 10.1, asked again at 70.05. The
    client is still answered for, although it was disabled more than 60 seconds before.
    */
  method HonouredTooLong() returns (first: bool, again: bool)
    ensures M.RetiredFrom(DisabledAtTen, "id1", DISABLED_AT) && DISABLED_AT + 60.0 < 70.05
    ensures first && again
  {
    var store := new M.MappingStore(60.0);
    ghost var seen;
    first, seen := store.IsRegisteredCognitoClient("id1", 9.7, 9.9, 10.1, DisabledAtTen, 0.2);
    again, seen := store.IsRegisteredCognitoClient("id1", 70.05, 70.06, 70.07, DisabledAtTen, 0.2);
  }
}
