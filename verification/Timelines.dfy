/** Runs from an empty registry: mostly of clients served, or app clients kept, longer than intended. */
module Timelines {
  import opened Wrappers
  import opened Registry
  import opened Reaction
  import opened Steps
  import opened Runs
  import opened Visits
  import opened History
  import opened Keys
  import opened Staleness
  import opened System
  import opened Fetcher
  import opened Examples
  import G = Gate
  import F = Freshness
  import L = Lock
  import Rc = Reconcile
  import Rt = Retirement
  import Lc = Lifecycle
  import CimdUrl

  // ---- visits that read the document and not its keys

  /** The client's document, under the registered app client and with the registered keys. */
  predicate Same(row: Row) {
    row.id == "id1" && row.redirectUris == DOC.redirectUris && row.fingerprint == KEYED.fingerprint
  }

  function Without(now: int, newId: Id): Visit { Seen(now, Reply(200, TAGGED, true, Some(DOC)), Broken, newId) }

  function Unkeyed(row: Row, now: int): Row { StaleRow(row, Without(now, "id2"), DOC, TAGGED, "id1") }

  lemma PlanWithout(row: Row, now: int, newId: Id)
    requires Same(row)
    ensures Keyless(Some(row), Without(now, newId)) && Same(Unkeyed(row, now)) && Same(Disabled(row, None))
    ensures React(Some(row), true, Without(now, newId)).verdict != Raised
    ensures React(Some(row), true, Without(now, newId)).effects ==
      [Put(URL, if KeysTooOld(row, Without(now, newId)) then Disabled(row, None) else Unkeyed(row, now), None)]
  {
    var v := Without(now, newId);
    IsKeyless(row, v);
    KeylessPlan(row, true, v);
    RefreshPlan(row, v, DOC, TAGGED);
    hide Keyless, React, KeysTooOld, FreshRow, Commit, Answer, ForbidsStorage;
  }

  lemma RefreshPlan(row: Row, v: Visit, doc: Document, h: Headers)
    requires row.id != "" && row.redirectUris == doc.redirectUris
    ensures Commit(Some(row), true, v, StaleRow(row, v, doc, h, ""), Unconfirmed) ==
      Plan([Put(v.url, StaleRow(row, v, doc, h, row.id), None)], Unconfirmed)
  {
    hide ForbidsStorage;
    var put := Put(v.url, StaleRow(row, v, doc, h, row.id), None);
    assert [] + [put] == [put];
  }

  lemma IsKeyless(row: Row, v: Visit)
    requires v == Without(v.now, v.newId)
    ensures Keyless(Some(row), v) && Answer(Some(row), v) == Loaded(DOC, TAGGED)
  {
    UrlIsAccepted();
    hide CimdUrl.AcceptableUrl;
    assert UrisOk(CFG, DOC.redirectUris);
  }

  lemma KeyedIsSame()
    ensures Same(KEYED) && KEYED.enabled && KEYED.keysFetchedAt == Some(0) && KEYED.fetchedAt == 0
    ensures Stored(Holding(KEYED, DOC.redirectUris), URL) == Some(KEYED)
  {}

  /** A visit without keys, from a state that holds the client. */
  lemma WithoutReaches(row: Row, now: int, newId: Id)
    requires Same(row) && newId != "" && newId != "id1"
    ensures var s, step := Holding(row, DOC.redirectUris), Visited(Without(now, newId), 1);
      var next := if KeysTooOld(row, step.v) then Disabled(row, None) else Unkeyed(row, now);
      && Stored(s, URL) == Some(row) && Keyless(Some(row), step.v) && Same(next)
      && Valid(s, step) && Committed(s, step) && Do(s, step) == Holding(next, DOC.redirectUris)
  {
    PlanWithout(row, now, newId);
    hide FreshRow, StaleRow, React, Keyless, KeysTooOld, Valid, Do, Committed, Complete, Stored, Holding;
    var v := Without(now, newId);
    HoldingReaches(v, row, DOC.redirectUris, if KeysTooOld(row, v) then Disabled(row, None) else Unkeyed(row, now));
  }

  lemma RegisteringReaches()
    ensures Valid(EMPTY, SIGNUP) && Do(EMPTY, SIGNUP) == Holding(KEYED, DOC.redirectUris)
  {
    KeylessPlans();
    RegistersAs(REGISTERING, KEYED);
  }

  lemma RegistersAs(v: Visit, row: Row)
    requires v.url == URL && v.newId == "id1" && row.id == "id1"
    requires React(None, false, v).effects == [Create("id1", row.redirectUris), Put(URL, row, None)]
    ensures Valid(EMPTY, Visited(v, 2)) && Do(EMPTY, Visited(v, 2)) == Holding(row, row.redirectUris)
  {
    hide *;
    RegistrationReaches(v, row);
  }

  lemma WithoutIsKeyless(steps: seq<Step>, k: nat, row: Row, now: int, newId: Id)
    requires k < |steps| && DoAll(EMPTY, steps[..k]) == Holding(row, DOC.redirectUris) && Same(row)
    requires steps[k] == Visited(Without(now, newId), 1) && newId != "" && newId != "id1"
    ensures KeylessAt(steps, k, URL) && !ConfirmedAt(steps, k, URL)
  {
    WithoutReaches(row, now, newId);
    KeylessIsNoConfirmation(steps, k, URL);
    hide DoAll, Keyless, ConfirmedAt, Committed, Holding, Stored, Same;
  }

  // ---- confirmed longer ago than max_stale

  const SIGNUP := Visited(REGISTERING, 2)

  /** Nothing after the first of three steps confirms the client. */
  lemma OnlyTheFirst(steps: seq<Step>, t: int, bound: int)
    requires |steps| == 3 && steps[0].Visited? && t - steps[0].v.now > bound
    requires !ConfirmedAt(steps, 1, URL) && !ConfirmedAt(steps, 2, URL)
    ensures !Within(steps, URL, t, bound)
  {
    hide ConfirmedAt;
    forall j: nat | j < |steps| && ConfirmedAt(steps, j, URL) ensures !AtMost(t, steps[j], bound) {
      assert j == 0;
    }
  }

  lemma OutageConfirmsNothing(steps: seq<Step>, k: nat)
    requires k < |steps| && steps[k].done == 0
    ensures !ConfirmedAt(steps, k, URL)
  {
    hide DoAll, Effects, FullyConfirmed;
  }

  lemma OutageReaches(row: Row, t: int, newId: Id)
    requires Same(row) && row.enabled && row.deleteAfter.None? && newId != "" && newId != "id1"
    requires t - row.fetchedAt <= CFG.maxStale
    ensures var s, step := Holding(row, DOC.redirectUris), Outage(CFG, URL, t, newId);
      Valid(s, step) && Survives(s, step)
  {
    UrlIsAccepted();
    hide CimdUrl.AcceptableUrl;
    HeldRow(row, newId);
    hide Survives, Valid, Settled, Holding, Stored, Same;
    SurvivesIff(Holding(row, DOC.redirectUris), CFG, URL, t, newId);
  }

  lemma HeldRow(row: Row, newId: Id)
    requires Same(row) && row.deleteAfter.None? && newId != "id1"
    ensures var s := Holding(row, DOC.redirectUris);
      Settled(s) && Stored(s, URL) == Some(row) && newId !in s.issued
  {
    UrlIsWeb();
    hide CimdUrl.IsWeb;
  }

  lemma OldRun(a: Step, b: Step, c: Step, first: State, row: Row, next: Row, now: int, t: int, bound: int)
    requires Same(row) && first == Holding(row, DOC.redirectUris)
    requires Valid(EMPTY, a) && Do(EMPTY, a) == first && a.Visited? && t - a.v.now > bound
    requires Valid(first, b) && Do(first, b) == Holding(next, DOC.redirectUris)
    requires b == Visited(Without(now, "id2"), 1) && Same(next)
    requires Valid(Do(first, b), c) && (c.done == 0 || c == Visited(Without(t, "id3"), 1))
    ensures var steps := [a, b, c];
      && ValidRun(EMPTY, steps) && DoAll(EMPTY, steps[..2]) == Holding(next, DOC.redirectUris)
      && !Within(steps, URL, t, bound)
  {
    hide *;
    var steps := [a, b, c];
    ThreeSteps(steps, first, Holding(next, DOC.redirectUris));
    WithoutIsKeyless(steps, 1, row, now, "id2");
    if c.done == 0 { OutageConfirmsNothing(steps, 2); } else { WithoutIsKeyless(steps, 2, next, t, "id3"); }
    OnlyTheFirst(steps, t, bound);
  }

  /**
    Registered at 0 and visited without keys at 200000: when the fetch fails at 400000 the client is
    left enabled, although max_stale is 259200 and nothing has confirmed it since 0.
    */
  lemma ConfirmedLongAgo()
    ensures var steps := [SIGNUP, Visited(Without(200000, "id2"), 1), Outage(CFG, URL, 400000, "id3")];
      && ValidRun(EMPTY, steps) && Survives(DoAll(EMPTY, steps[..2]), steps[2])
      && !Within(steps, URL, 400000, CFG.maxStale)
  {
    var next := Unkeyed(KEYED, 200000);
    KeyedIsSame();
    RegisteringReaches();
    WithoutReaches(KEYED, 200000, "id2");
    assert !KeysTooOld(KEYED, Without(200000, "id2")) && next.enabled && next.fetchedAt == 200000;
    OutageReaches(next, 400000, "id3");
    hide *;
    OldRun(SIGNUP, Visited(Without(200000, "id2"), 1), Outage(CFG, URL, 400000, "id3"),
           Holding(KEYED, DOC.redirectUris),
           KEYED, next, 200000, 400000, CFG.maxStale);
  }

  lemma TooLateForKeys(t: int)
    requires t > CFG.maxStale
    ensures var s, step := Holding(KEYED, DOC.redirectUris), Visited(Without(t, "id2"), 1);
      Valid(s, step) && Do(s, step) == Holding(Disabled(KEYED, None), DOC.redirectUris) && Same(Disabled(KEYED, None))
  {
    KeyedIsSame();
    assert KeysTooOld(KEYED, Without(t, "id2"));
    hide KeysTooOld, Same, Valid, Do, Holding, Keyless, Committed;
    WithoutReaches(KEYED, t, "id2");
  }

  lemma ComesBack(row: Row, t: int)
    requires Same(row) && !row.enabled
    ensures var s, step := Holding(row, DOC.redirectUris), Visited(Without(t, "id3"), 1);
      !Usable(Stored(s, URL)) && Valid(s, step) && Survives(s, step)
  {
    PlanWithout(row, t, "id3");
    WithoutReaches(row, t, "id3");
    AliveWhenHeld(row);
    WithoutReaches(Unkeyed(row, t), t, "id3");
    hide Valid, Do, Holding, Keyless, Committed, React, Same, Stored, Alive, FreshRow;
  }

  lemma AliveWhenHeld(row: Row)
    requires row.id == "id1"
    ensures Alive(Holding(row, DOC.redirectUris), URL)
  {}

  /**
    No bound is left once a visit without keys brings a disabled client back: whatever the time `t`
    beyond max_stale at which it was disabled for its keys, it is served again 100 seconds later, and
    nothing has confirmed it since 0.
    */
  lemma NoBoundRemains(t: int)
    requires t > CFG.maxStale
    ensures var steps := [SIGNUP, Visited(Without(t, "id2"), 1), Visited(Without(t + 100, "id3"), 1)];
      && ValidRun(EMPTY, steps) && !Usable(Stored(DoAll(EMPTY, steps[..2]), URL))
      && Survives(DoAll(EMPTY, steps[..2]), steps[2]) && !Within(steps, URL, t + 100, t)
  {
    RegisteringReaches();
    KeyedIsSame();
    TooLateForKeys(t);
    ComesBack(Disabled(KEYED, None), t + 100);
    hide *;
    OldRun(SIGNUP, Visited(Without(t, "id2"), 1), Visited(Without(t + 100, "id3"), 1), Holding(KEYED, DOC.redirectUris),
           KEYED, Disabled(KEYED, None), t, t + 100, t);
  }

  // ---- authorized by a call that was under way

  /** The document and its keys again at 150. */
  const RENEWING := Seen(150, Reply(200, TAGGED, true, Some(DOC)), Reply(200, TAGGED, true, Some("keys")), "id2")
  const RENEWED := FreshRow(RENEWING, DOC, TAGGED, "id1")

  lemma PlanOfRenewing()
    ensures React(Some(KEYED), true, RENEWING) == Plan([Put(URL, RENEWED, None)], Validated)
    ensures Same(RENEWED) && RENEWED.enabled && RENEWED.keysFetchedAt == Some(150)
    ensures Same(KEYED) && KEYED.enabled && KEYED.cacheUntil == 60
  {
    UrlIsAccepted();
    hide CimdUrl.AcceptableUrl;
    assert UrisOk(CFG, DOC.redirectUris);
  }

  lemma RenewingAnswers(v: Visit, row: Row, next: Row)
    requires Same(row) && Same(next) && next.enabled && v.url == URL && v.newId != "" && v.newId != "id1"
    requires React(Some(row), true, v) == Plan([Put(URL, next, None)], Validated)
    ensures var s, step := Holding(row, DOC.redirectUris), Visited(v, 1);
      && Valid(s, step) && Do(s, step) == Holding(next, DOC.redirectUris)
      && Rc.RevalidationOk(s, step, false, Rc.Reconciled(true, true))
  {
    hide React, Valid, Do, Holding, Stored, Complete, Committed;
    HoldingReaches(v, row, DOC.redirectUris, next);
    RowWhenHeld(next);
    AliveWhenHeld(row);
    hide Alive;
  }

  lemma RowWhenHeld(row: Row)
    ensures Stored(Holding(row, DOC.redirectUris), URL) == Some(row)
  {}

  /** The call starts when `past` is over, and reads the row again when `run` is. */
  ghost predicate InFlight(p: L.Params, before: seq<Move>, during: seq<Move>, past: seq<Step>, run: seq<Step>, now: int,
                           row: Row)
    requires p.Ok()
  {
    var g1 := AfterMoves(p, START, before);
    var g2 := AfterMoves(p, g1, during);
    && GlobalRun(p, START, before) && F.Call(p, g1, during, URL, true, G.YES, F.Wire(G.YES))
    && g1.history == past && g2.history == run
    && F.Decide(Stored(g1.state, URL), now, F.Wire(G.YES), Stored(g2.state, URL)) == Ok(row)
  }

  lemma AnswerWithin(p: L.Params, g1: Global, b: Step, c: Step) returns (during: seq<Move>)
    requires p.Covers() && GlobalInv(p, g1) && Quiet(g1) && ValidRun(EMPTY, g1.history + [b] + [c])
    requires b.Visited? && Rc.RevalidationOk(g1.state, b, false, Rc.Reconciled(true, true))
    ensures p.Ok() && F.Call(p, g1, during, b.v.url, true, G.YES, F.Wire(G.YES))
    ensures var g2 := AfterMoves(p, g1, during);
      g2.history == g1.history + [b] + [c] && g2.state == DoAll(EMPTY, g2.history)
  {
    assert p.Ok();
    hide *;
    during := G.AnsweringHappens(p, g1, b, [c]);
    IsCall(p, g1, during, b.v.url);
  }

  lemma CallHappens(p: L.Params, past: seq<Step>, b: Step, c: Step, run: seq<Step>)
    returns (before: seq<Move>, during: seq<Move>)
    requires p.Covers() && ValidRun(EMPTY, past) && ValidRun(EMPTY, run) && run == past + [b] + [c]
    requires b.Visited? && Rc.RevalidationOk(DoAll(EMPTY, past), b, false, Rc.Reconciled(true, true))
    ensures p.Ok() && GlobalRun(p, START, before)
    ensures var g1 := AfterMoves(p, START, before); var g2 := AfterMoves(p, g1, during);
      && F.Call(p, g1, during, b.v.url, true, G.YES, F.Wire(G.YES))
      && g1.history == past && g1.state == DoAll(EMPTY, past)
      && g2.history == run && g2.state == DoAll(EMPTY, run)
  {
    assert p.Ok();
    hide *;
    before := G.HistoryHappens(p, past);
    during := AnswerWithin(p, AfterMoves(p, START, before), b, c);
  }

  lemma IsCall(p: L.Params, g1: Global, during: seq<Move>, url: string)
    requires p.Covers() && GlobalInv(p, g1) && GlobalRun(p, g1, during)
    requires F.Produced(p, g1, during, url, true, G.YES)
    ensures F.Call(p, g1, during, url, true, G.YES, F.Wire(G.YES))
  {
    hide GlobalInv, GlobalRun, F.Produced, F.Wire;
  }

  lemma Decided(p: L.Params, before: seq<Move>, during: seq<Move>, past: seq<Step>, run: seq<Step>, first: Row,
                third: Row, now: int)
    requires p.Ok() && first.enabled && third.enabled && first.cacheUntil <= now && GlobalRun(p, START, before)
    requires var g1 := AfterMoves(p, START, before); var g2 := AfterMoves(p, g1, during);
      && F.Call(p, g1, during, URL, true, G.YES, F.Wire(G.YES)) && g1.history == past && g2.history == run
      && Stored(g1.state, URL) == Some(first) && Stored(g2.state, URL) == Some(third)
    ensures InFlight(p, before, during, past, run, now, third)
  {
    hide GlobalRun, AfterMoves, F.Call, Stored;
  }

  lemma RequestUnderWay(p: L.Params, past: seq<Step>, b: Step, c: Step, run: seq<Step>, first: Row, third: Row,
                        now: int)
    returns (before: seq<Move>, during: seq<Move>)
    requires p.Covers() && first.enabled && first.cacheUntil <= now && third.enabled
    requires ValidRun(EMPTY, past) && ValidRun(EMPTY, run) && run == past + [b] + [c]
    requires Stored(DoAll(EMPTY, past), URL) == Some(first) && Stored(DoAll(EMPTY, run), URL) == Some(third)
    requires b.Visited? && b.v.url == URL
    requires Rc.RevalidationOk(DoAll(EMPTY, past), b, false, Rc.Reconciled(true, true))
    ensures p.Ok() && InFlight(p, before, during, past, run, now, third)
  {
    assert p.Ok();
    hide *;
    before, during := CallHappens(p, past, b, c, run);
    Decided(p, before, during, past, run, first, third, now);
  }

  lemma ThreeParts(run: seq<Step>) returns (past: seq<Step>, b: Step, c: Step)
    requires |run| == 3
    ensures past == run[..1] && b == run[1] && c == run[2] && run == past + [b] + [c]
  {
    past, b, c := run[..1], run[1], run[2];
  }

  /** Three steps that keep a row for the client. */
  lemma ThreeHeld(run: seq<Step>, first: Row, second: Row, third: Row)
    requires |run| == 3 && Valid(EMPTY, run[0]) && Do(EMPTY, run[0]) == Holding(first, DOC.redirectUris)
    requires var s := Holding(first, DOC.redirectUris);
      Valid(s, run[1]) && Do(s, run[1]) == Holding(second, DOC.redirectUris)
    requires var s := Holding(second, DOC.redirectUris);
      Valid(s, run[2]) && Do(s, run[2]) == Holding(third, DOC.redirectUris)
    ensures ValidRun(EMPTY, run[..1]) && ValidRun(EMPTY, run)
    ensures DoAll(EMPTY, run[..1]) == Holding(first, DOC.redirectUris)
    ensures DoAll(EMPTY, run[..2]) == Holding(second, DOC.redirectUris)
    ensures DoAll(EMPTY, run) == Holding(third, DOC.redirectUris)
  {
    hide *;
    ThreeSteps(run, Holding(first, DOC.redirectUris), Holding(second, DOC.redirectUris));
    ValidPrefix(EMPTY, run, 1);
    assert run == run[..2] + [run[2]];
    AppendStep(EMPTY, run[..2], run[2]);
  }

  /**
    Two requests are under way. The visit of the first one confirms the client at 150, another
    invocation cannot fetch its keys at 160, and then the first request reads the row again: it is
    let through with the row that the visit without keys has left, stale as it is.
    */
  lemma AuthorizedInFlight(p: L.Params) returns (before: seq<Move>, during: seq<Move>)
    requires p.Covers()
    ensures p.Ok()
    ensures var run := [SIGNUP, Visited(RENEWING, 1), Visited(Without(160, "id3"), 1)];
      && InFlight(p, before, during, run[..1], run, 150, Unkeyed(RENEWED, 160))
      && KeylessAt(run, 2, URL) && !ConfirmedAt(run, 2, URL)
  {
    assert p.Ok();
    var run := [SIGNUP, Visited(RENEWING, 1), Visited(Without(160, "id3"), 1)];
    RegisteringReaches();
    PlanOfRenewing();
    RenewingAnswers(RENEWING, KEYED, RENEWED);
    assert !KeysTooOld(RENEWED, Without(160, "id3"));
    WithoutReaches(RENEWED, 160, "id3");
    hide *;
    ThreeHeld(run, KEYED, RENEWED, Unkeyed(RENEWED, 160));
    WithoutIsKeyless(run, 2, RENEWED, 160, "id3");
    RowWhenHeld(KEYED);
    RowWhenHeld(Unkeyed(RENEWED, 160));
    var past, b, c := ThreeParts(run);
    before, during := RequestUnderWay(p, past, b, c, run, KEYED, Unkeyed(RENEWED, 160), 150);
  }

  // ---- an app client that no row names

  const ROTATED := ORIGINAL.(jwks := Some("other keys"))
  const CUT_OFF := Visited(VisitWith(ROTATED), 1)
  const SUCCESSOR := FreshRow(VisitWith(ROTATED), ROTATED, TAGGED, "id2")

  lemma PlanOfRotated()
    ensures React(Some(ROW), true, VisitWith(ROTATED)).effects ==
      [Create("id2", ROTATED.redirectUris)] + [Put(URL, SUCCESSOR, Some(Retirement("id1", Some(3700))))]
  {
    UrlIsAccepted();
    hide CimdUrl.AcceptableUrl;
    assert UrisOk(CFG, ROTATED.redirectUris);
    assert ROW.fingerprint == Some(Fingerprint(None, None, None));
    assert FreshRow(VisitWith(ROTATED), ROTATED, TAGGED,
                    "").fingerprint == Some(Fingerprint(Some("other keys"), None, None));
  }

  lemma CutOffReaches()
    ensures Valid(REGISTERED, CUT_OFF)
    ensures Do(REGISTERED, CUT_OFF) == Apply(Apply(REGISTERED, Create("id2", ROTATED.redirectUris)), Abandon)
  {
    PlanOfRotated();
    RegisteredIsStored();
    hide FreshRow, React, Stored, Alive, Effects, Valid, Do, Apply;
    EffectsOfVisit(REGISTERED, VisitWith(ROTATED), 1, ROW);
    DoFirst(REGISTERED, CUT_OFF, Create("id2", ROTATED.redirectUris),
            [Put(URL, SUCCESSOR, Some(Retirement("id1", Some(3700))))]);
  }

  /** A key rotation cut off between Cognito and the table leaves the new app client behind, named by no row. */
  lemma RotationLeavesAnOrphan()
    ensures ValidRun(EMPTY, [REGISTER, CUT_OFF])
    ensures var s := DoAll(EMPTY, [REGISTER, CUT_OFF]);
      && "id2" in s.apps && s.orphans == {"id2"}
      && forall u | u in s.table.clients :: s.table.clients[u].id != "id2"
  {
    hide FreshRow, Do, Valid;
    RegisterReaches();
    CutOffReaches();
    RunOf(REGISTER, CUT_OFF, CUT_OFF, CUT_OFF);
    AppendStep(EMPTY, [REGISTER], CUT_OFF);
    assert [REGISTER] + [CUT_OFF] == [REGISTER, CUT_OFF];
    RegisteredIsStored();
  }

  // ---- keys rotated behind an unchanged document

  /** The very same document at 100, with other keys behind its jwks_uri. */
  const ROLLING := Seen(100, REGISTERING.doc, Reply(200, TAGGED, true, Some("other keys")), "id2")
  const ROLL := Visited(ROLLING, 2)
  const ROLLED := FreshRow(ROLLING, DOC, TAGGED, "id2")
  const ROLL_EFFECTS := [Create("id2", ROLLED.redirectUris), Put(URL, ROLLED, Some(Retirement("id1", Some(3700))))]

  lemma PlanOfRolling()
    ensures React(Some(KEYED), true, ROLLING).effects == ROLL_EFFECTS
    ensures KEYED.id == "id1" && ROLLED.id == "id2" && ROLLED.enabled
  {
    UrlIsAccepted();
    hide CimdUrl.AcceptableUrl;
    assert UrisOk(CFG, DOC.redirectUris);
    assert KEYED.fingerprint == Some(Fingerprint(None, DOC.jwksUri, Some("keys")));
    assert FreshRow(ROLLING, DOC, TAGGED, "").fingerprint == Some(Fingerprint(None, DOC.jwksUri, Some("other keys")));
  }

  lemma RollReaches(s: State, v: Visit, row: Row, next: Row, effects: seq<Effect>)
    requires s == Holding(row, DOC.redirectUris) && row.id == "id1" && v.url == URL && v.newId == next.id == "id2"
    requires effects == [Create("id2", next.redirectUris), Put(URL, next, Some(Retirement("id1", Some(3700))))]
    requires React(Some(row), true, v).effects == effects && next.enabled
    ensures Valid(s, Visited(v, 2))
    ensures var m := Do(s, Visited(v, 2));
      && m.table.clients.Keys == {URL, "retired://id1"} && m.table.clients[URL] == next
      && m.apps.Keys == {"id1", "id2"} && Rt.RetiredAs(m, "id1", 3700)
  {
    hide React;
    RowWhenHeld(row);
    AliveWhenHeld(row);
    EffectsOfVisit(s, v, 2, row);
    DoBoth(s, Visited(v, 2), effects[0], effects[1]);
    UrlIsWeb();
    RetiredIsNotWeb("id1");
    Rt.PairRetires(s, URL, effects[0], effects[1], "id1", 3700);
    assert RetiredUrl("id1") == "retired://id1";
    hide CimdUrl.IsWeb, Effects, Do, Valid, Rt.RetiredAs;
  }

  lemma PurgedFormer(m: State, due: int, now: int)
    requires Settled(m) && Rt.RetiredAs(m, "id1", due) && due <= now
    ensures Valid(m, Purge("retired://id1", now, 2))
    ensures var after := Do(m, Purge("retired://id1", now, 2));
      after.table.clients == m.table.clients - {"retired://id1"} && after.apps == m.apps - {"id1"}
  {
    assert "retired://" + "id1" == "retired://id1";
    hide Settled;
    Lc.PurgeIteration(m, "retired://id1", now, 2);
    Lc.DeleteIteration(m, "retired://id1");
    hide Do, Valid;
  }

  lemma RolledAndPurged(a: Step, b: Step, c: Step, s: State, m: State, next: Row)
    requires Valid(EMPTY, a) && Do(EMPTY, a) == s && Valid(s, b) && Do(s, b) == m
    requires c == Purge("retired://id1", 4000, 2)
    requires m.table.clients.Keys == {URL, "retired://id1"} && m.table.clients[URL] == next
    requires m.apps.Keys == {"id1", "id2"} && Rt.RetiredAs(m, "id1", 3700)
    ensures var steps := [a, b, c]; var after := DoAll(EMPTY, steps);
      && ValidRun(EMPTY, steps) && DoAll(EMPTY, steps[..2]) == m && Stored(m, URL) == Some(next)
      && Stored(after, URL) == Some(next) && after.apps.Keys == {"id2"} && after.table.clients.Keys == {URL}
  {
    hide Valid, Do, Rt.RetiredAs, DoAll, ValidRun;
    RunOf(a, b, c, c);
    AppendStep(EMPTY, [a], b);
    assert [a] + [b] == [a, b] && [a, b, c][..2] == [a, b];
    ReachableIsSettled([a, b]);
    PurgedFormer(m, 3700, 4000);
    assert URL[0] != "retired://id1"[0];
  }

  /**
    Registered with one set of keys, visited with others behind the same jwks_uri: the client gets a
    new app client at once, and the former one leaves Cognito with the first purge after one token
    lifetime.
    */
  lemma RotationBehindUrl()
    ensures var steps := [SIGNUP, ROLL, Purge("retired://id1", 4000, 2)];
      && ValidRun(EMPTY, steps) && REGISTERING.doc == ROLLING.doc
      && var before, after := DoAll(EMPTY, steps[..2]), DoAll(EMPTY, steps);
         && Usable(Stored(before, URL)) && Stored(before, URL).value.id == "id2"
         && Rt.RetiredAs(before, "id1", 3700) && "id1" in before.apps
         && Stored(after, URL) == Stored(before, URL) && after.apps.Keys == {"id2"}
         && after.table.clients.Keys == {URL}
  {
    RegisteringReaches();
    PlanOfRolling();
    hide FreshRow, React, Valid, Do, Rt.RetiredAs;
    RollReaches(Holding(KEYED, DOC.redirectUris), ROLLING, KEYED, ROLLED, ROLL_EFFECTS);
    RolledAndPurged(SIGNUP, ROLL, Purge("retired://id1", 4000, 2), Holding(KEYED, DOC.redirectUris),
                    Do(Holding(KEYED, DOC.redirectUris), ROLL), ROLLED);
  }
}
