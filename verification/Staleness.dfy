/** How old the confirmation behind a served row can be. */
module Staleness {
  import opened Wrappers
  import opened Registry
  import opened Reaction
  import opened Steps
  import opened Runs
  import opened Visits
  import opened History
  import opened Fetcher
  import opened Keys
  import CimdUrl

  /** A complete visit that raised nothing leaves an enabled row only with a recent time of confirmation. */
  lemma VisitBoundsFetched(s: State, step: Step)
    requires Settled(s) && Valid(s, step) && step.Visited? && Complete(s, step)
    requires PlanOf(s, step.v).verdict != Raised && CimdUrl.IsWeb(step.v.url)
    requires Stored(s, step.v.url).Some? ==>
      Stored(s, step.v.url).value.cacheUntil - Stored(s, step.v.url).value.fetchedAt <= step.v.cfg.maxStale
    ensures var after := Stored(Do(s, step), step.v.url);
      after.Some? && after.value.enabled ==> step.v.now - after.value.fetchedAt <= step.v.cfg.maxStale
  {
    hide React, KeysValidated, Settled, Do, CimdUrl.IsWeb, UrisOk, DocumentOk, KeysAnswered, Answer, Valid, Lifetime;
    var stored, v := Stored(s, step.v.url), step.v;
    StepRows(s, step, v.url);
    PlanRow(stored, Alive(s, v.url), v);
    assert Committed(s, step) <==> PlanOf(s, v).effects != [];
    if Committed(s, step) {
      var row := Last(Effects(s, step)).row;
      assert RowAfter(s, step) == Some(row);
      assert row.enabled ==> row.fetchedAt == v.now;
    }
  }

  // ---- whole runs

  /** No client row is cacheable for more than `cap` seconds after its last confirmation. */
  predicate Capped(s: State, cap: int) {
    forall u | u in s.table.clients && CimdUrl.IsWeb(u) ::
      s.table.clients[u].cacheUntil - s.table.clients[u].fetchedAt <= cap
  }

  /** Every visit worked with ordered cache bounds, none above `cap`. */
  predicate Tempered(steps: seq<Step>, cap: int) {
    forall i | 0 <= i < |steps| && steps[i].Visited? ::
      steps[i].v.cfg.cacheMin <= steps[i].v.cfg.cacheMax <= cap
  }

  /** A sweep makes no visits. */
  predicate Idle(steps: seq<Step>) { forall i | 0 <= i < |steps| :: !steps[i].Visited? }

  lemma TemperedAppend(a: seq<Step>, b: seq<Step>, cap: int)
    ensures Tempered(a, cap) && Tempered(b, cap) ==> Tempered(a + b, cap)
    ensures Idle(a) ==> Tempered(a, cap)
    ensures Idle(a) && Idle(b) ==> Idle(a + b)
  {}

  lemma StepKeepsCapped(s: State, step: Step, cap: int)
    requires Settled(s) && Valid(s, step) && Capped(s, cap)
    requires step.Visited? ==> step.v.cfg.cacheMin <= step.v.cfg.cacheMax <= cap
    ensures Capped(Do(s, step), cap)
  {
    hide Settled, Valid, Do, CimdUrl.IsWeb, WritesTimes;
    forall u | u in Do(s, step).table.clients && CimdUrl.IsWeb(u)
      ensures Do(s, step).table.clients[u].cacheUntil - Do(s, step).table.clients[u].fetchedAt <= cap
    {
      var row := Stored(Do(s, step), u).value;
      var rewritten := RowSource(s, step, u);
      if rewritten {
        WrittenTimes(Stored(s, u), step.v, row);
      }
    }
  }

  /** The cap holds of every state that a run with such bounds can reach. */
  lemma {:induction false} RunsKeepCapped(s: State, steps: seq<Step>, cap: int)
    requires Settled(s) && ValidRun(s, steps) && Tempered(steps, cap) && Capped(s, cap)
    ensures Capped(DoAll(s, steps), cap)
  {
    hide Settled, Valid, Do, Capped;
    if steps != [] {
      var n := |steps| - 1;
      RunsKeepCapped(s, steps[..n], cap);
      RunsKeepSettled(s, steps[..n]);
      StepKeepsCapped(DoAll(s, steps[..n]), steps[n], cap);
    }
  }

  lemma ReachableIsCapped(steps: seq<Step>, cap: int)
    requires ValidRun(EMPTY, steps) && Tempered(steps, cap)
    ensures Capped(DoAll(EMPTY, steps), cap)
  {
    RunsKeepCapped(EMPTY, steps, cap);
  }

  lemma TemperedIsOrdered(steps: seq<Step>, cap: int)
    requires Tempered(steps, cap)
    ensures BoundsOrdered(steps)
  {}

  /**
    A row that is still cacheable at time `t` has its times from the visit `k`, less than the cache
    maximum before `t`; and unless the clock ran backwards that visit confirmed the client, keys included.
    */
  lemma CacheableMeansConfirmed(steps: seq<Step>, url: string, t: int, cacheMax: nat) returns (k: nat)
    requires ValidRun(EMPTY, steps) && Tempered(steps, cacheMax) && CimdUrl.IsWeb(url)
    requires Stored(DoAll(EMPTY, steps), url).Some? && t < Stored(DoAll(EMPTY, steps), url).value.cacheUntil
    ensures var row := Stored(DoAll(EMPTY, steps), url).value;
      && TimedBy(steps, k, url, row) && t < steps[k].v.now + cacheMax
      && (t >= steps[k].v.now ==> ConfirmedAt(steps, k, url))
  {
    TemperedIsOrdered(steps, cacheMax);
    hide DoAll, CimdUrl.IsWeb, DocumentConfirmed, FullyConfirmed, Committed, BoundsOrdered;
    k := RowsAreTimed(steps, url);
  }

  // ---- confirmation in the full sense

  predicate AtMost(t: int, step: Step, bound: int) { step.Visited? && t - step.v.now <= bound }

  /** Some visit of the run confirmed the client, keys included, at most `bound` seconds before `t`. */
  ghost predicate Within(steps: seq<Step>, url: string, t: int, bound: int) {
    exists j: nat :: j < |steps| && ConfirmedAt(steps, j, url) && AtMost(t, steps[j], bound)
  }

  lemma WithinPrefix(steps: seq<Step>, step: Step, url: string, t: int, bound: int)
    requires Within(steps, url, t, bound)
    ensures Within(steps + [step], url, t, bound)
  {
    hide ConfirmedAt;
    var j: nat :| j < |steps| && ConfirmedAt(steps, j, url) && AtMost(t, steps[j], bound);
    assert (steps + [step])[..|steps|] == steps;
    ConfirmedPrefix(steps + [step], |steps|, j, url);
    assert (steps + [step])[j] == steps[j];
  }

  lemma WithinLater(steps: seq<Step>, url: string, t: int, bound: int, later: int, more: int)
    requires Within(steps, url, t, bound) && later - t <= more - bound
    ensures Within(steps, url, later, more)
  {
    hide ConfirmedAt;
    var j: nat :| j < |steps| && ConfirmedAt(steps, j, url) && AtMost(t, steps[j], bound);
    assert AtMost(later, steps[j], more);
  }

  function KeysTime(row: Row): int { if row.keysFetchedAt.Some? then row.keysFetchedAt.value else 0 }

  /**
    No visit without keys brings a disabled client back, no clock shows a time before zero, and no
    limit is above `m`.
    */
  ghost predicate Steady(steps: seq<Step>, url: string, m: int) {
    && (forall i | 0 <= i < |steps| && steps[i].Visited? && steps[i].v.url == url ::
          steps[i].v.now >= 0 && steps[i].v.cfg.maxStale <= m)
    && (forall k: nat | k < |steps| && KeylessAt(steps, k, url) ::
          var stored := Stored(DoAll(EMPTY, steps[..k]), url); stored.Some? && stored.value.enabled)
  }

  /**
    The client was confirmed after its keys were fetched, and at most `m` before its row was last
    timed if that is enabled.
    */
  ghost predicate Keyed(steps: seq<Step>, url: string, row: Row, m: int) {
    && Within(steps, url, KeysTime(row), 0)
    && (row.enabled ==> Within(steps, url, row.fetchedAt, m))
  }

  lemma SteadyPrefix(steps: seq<Step>, step: Step, url: string, m: int)
    requires Steady(steps + [step], url, m)
    ensures Steady(steps, url, m)
  {
    hide KeylessAt, DoAll, Stored;
    var more := steps + [step];
    forall i | 0 <= i < |steps| ensures steps[i] == more[i] {}
    forall k: nat | k < |steps| && KeylessAt(steps, k, url)
      ensures var stored := Stored(DoAll(EMPTY, steps[..k]), url); stored.Some? && stored.value.enabled
    {
      KeylessPrefix(steps, step, k, url);
    }
  }

  lemma KeylessPrefix(steps: seq<Step>, step: Step, k: nat, url: string)
    requires KeylessAt(steps, k, url)
    ensures KeylessAt(steps + [step], k, url) && (steps + [step])[..k] == steps[..k]
  {
    hide DoAll, Committed, Keyless;
    assert (steps + [step])[..k] == steps[..k];
  }

  /** What the row a visit writes has to do with the time of its keys. */
  lemma WrittenKeys(stored: Option<Row>, v: Visit, row: Row)
    ensures Disables(stored, v, row) ==> stored.Some? && !row.enabled && KeysTime(row) == KeysTime(stored.value)
    ensures Extends(stored, v, row) ==>
      stored.Some? && FullyConfirmed(stored, v) && row.fetchedAt == v.now && KeysTime(row) == KeysTime(stored.value)
    ensures Renews(stored, v, row) ==>
      FullyConfirmed(stored, v) && row.fetchedAt == v.now && KeysTime(row) in {0, v.now}
    ensures Stales(stored, v, row) ==>
      stored.Some? && row.fetchedAt == v.now && KeysTime(row) == KeysTime(stored.value)
      && (stored.value.enabled ==> v.now - KeysTime(stored.value) <= v.cfg.maxStale)
      && (Asks(stored, v) ==> Keyless(stored, v))
  {
    SameDocument(stored, v);
    hide DocumentOk, UrisOk, FingerprintOf, KeysContent, Answer, Interpret, KeysAnswered, Lifetime,
      CimdUrl.AcceptableUrl, Skipped;
  }

  /** One more step of a steady run. */
  lemma KeyedVisit(steps: seq<Step>, step: Step, m: int, row: Row)
    requires step.Visited? && Committed(DoAll(EMPTY, steps), step) && Steady(steps + [step], step.v.url, m)
    requires var stored := Stored(DoAll(EMPTY, steps), step.v.url);
      && WritesKnownRow(stored, step.v, Put(step.v.url, row, None)) && Asks(stored, step.v)
      && (stored.Some? ==> Keyed(steps, step.v.url, stored.value, m))
    ensures Keyed(steps + [step], step.v.url, row, m)
  {
    var stored, v, n, url := Stored(DoAll(EMPTY, steps), step.v.url), step.v, |steps|, step.v.url;
    var more := steps + [step];
    assert more[..n] == steps && more[n] == step;
    WrittenKeys(stored, v, row);
    hide DoAll, Committed, FullyConfirmed, Keyless, Asks, Stored, Disables, Extends, Renews, Stales;
    if stored.Some? { WithinPrefix(steps, step, url, KeysTime(stored.value), 0); }
    assert FullyConfirmed(stored, v) ==> ConfirmedAt(more, n, url);
    if Extends(stored, v, row) || Renews(stored, v, row) {
      assert ConfirmedAt(more, n, url) && v.now >= 0;
    } else if Stales(stored, v, row) {
      assert KeylessAt(more, n, url);
      WithinLater(more, url, KeysTime(stored.value), 0, v.now, m);
    }
  }

  lemma {:induction false} SteadyRowsAreKeyed(steps: seq<Step>, url: string, m: int)
    requires ValidRun(EMPTY, steps) && CimdUrl.IsWeb(url) && Steady(steps, url, m)
    ensures var row := Stored(DoAll(EMPTY, steps), url); row.Some? ==> Keyed(steps, url, row.value, m)
  {
    hide Valid, Do, CimdUrl.IsWeb, Settled, Keyed, Steady, React, Asks, WritesKnownRow;
    if steps != [] {
      var n := |steps| - 1;
      var s, step := DoAll(EMPTY, steps[..n]), steps[n];
      assert steps == steps[..n] + [step];
      SteadyPrefix(steps[..n], step, url, m);
      SteadyRowsAreKeyed(steps[..n], url, m);
      ReachableIsSettled(steps[..n]);
      StepRows(s, step, url);
      var row := Stored(Do(s, step), url);
      if row.Some? {
        if step.Visited? && step.v.url == url && Committed(s, step) {
          PlanRow(Stored(s, url), Alive(s, url), step.v);
          EffectsMeanAsking(Stored(s, url), Alive(s, url), step.v);
          KnownRow(Stored(s, url), step.v, Last(Effects(s, step)));
          KeyedVisit(steps[..n], step, m, row.value);
        } else {
          KeyedLater(steps[..n], step, url, m, Stored(s, url).value, row.value);
        }
      }
    }
  }

  lemma KnownRow(stored: Option<Row>, v: Visit, e: Effect)
    requires WritesKnownRow(stored, v, e)
    ensures e.Put? && WritesKnownRow(stored, v, Put(v.url, e.row, None))
  {
    hide Disables, Extends, Renews, Stales;
  }

  lemma KeyedLater(steps: seq<Step>, step: Step, url: string, m: int, before: Row, row: Row)
    requires Keyed(steps, url, before, m)
    requires KeysTime(row) == KeysTime(before) && row.fetchedAt == before.fetchedAt && (row.enabled ==> before.enabled)
    ensures Keyed(steps + [step], url, row, m)
  {
    hide Within;
    WithinPrefix(steps, step, url, KeysTime(before), 0);
    if before.enabled { WithinPrefix(steps, step, url, before.fetchedAt, m); }
  }

  /**
    Over any run: what a complete visit that raised nothing leaves enabled has its times from a visit
    at most maxStale before. That visit confirmed the client unless it could not fetch the keys; and
    if no such visit ever brought back a disabled client, the client was confirmed at most twice
    maxStale before in any case. No cache bound may exceed maxStale.
    */
  lemma VisitBoundsStaleness(steps: seq<Step>, step: Step) returns (k: nat)
    requires ValidRun(EMPTY, steps + [step]) && step.Visited? && CimdUrl.IsWeb(step.v.url)
    requires Tempered(steps + [step], step.v.cfg.maxStale)
    requires var s := DoAll(EMPTY, steps); Complete(s, step) && PlanOf(s, step.v).verdict != Raised
    requires Stored(DoAll(EMPTY, steps + [step]), step.v.url).Some?
    requires Stored(DoAll(EMPTY, steps + [step]), step.v.url).value.enabled
    ensures var run, url, m := steps + [step], step.v.url, step.v.cfg.maxStale;
      && TimedBy(run, k, url, Stored(DoAll(EMPTY, run), url).value) && step.v.now - run[k].v.now <= m
      && (ConfirmedAt(run, k, url) <==> !KeylessAt(run, k, url))
      && (!KeylessAt(run, k, url) ==> Within(run, url, step.v.now, m))
      && (Steady(run, url, m) ==> Within(run, url, step.v.now, 2 * m))
  {
    AppendStep(EMPTY, steps, step);
    hide Settled, Valid, Do, DoAll, ValidRun, CimdUrl.IsWeb, Complete, PlanOf, DocumentConfirmed, FullyConfirmed,
      Committed, ConfirmedAt, KeylessAt, Steady;
    assert Tempered(steps, step.v.cfg.maxStale) by {
      forall i | 0 <= i < |steps| ensures steps[i] == (steps + [step])[i] {}
    }
    ReachableIsSettled(steps);
    ReachableIsCapped(steps, step.v.cfg.maxStale);
    VisitBoundsFetched(DoAll(EMPTY, steps), step);
    var run := steps + [step];
    k := RowsAreTimed(run, step.v.url);
    Bounded(run, k, step.v.url, step.v.now, step.v.cfg.maxStale);
  }

  /** What a recent time in a reachable row says about confirmation. */
  lemma Bounded(steps: seq<Step>, k: nat, url: string, t: int, m: int)
    requires ValidRun(EMPTY, steps) && CimdUrl.IsWeb(url)
    requires var row := Stored(DoAll(EMPTY, steps), url);
      row.Some? && row.value.enabled && TimedBy(steps, k, url, row.value) && t - row.value.fetchedAt <= m
    ensures ConfirmedAt(steps, k, url) <==> !KeylessAt(steps, k, url)
    ensures !KeylessAt(steps, k, url) ==> Within(steps, url, t, m)
    ensures Steady(steps, url, m) ==> Within(steps, url, t, 2 * m)
  {
    var row := Stored(DoAll(EMPTY, steps), url).value;
    TimedByConfirmedIff(steps, k, url, row);
    if Steady(steps, url, m) { SteadyRowsAreKeyed(steps, url, m); }
    hide DoAll, ValidRun, CimdUrl.IsWeb, DocumentConfirmed, FullyConfirmed, Committed, ConfirmedAt, KeylessAt, Steady;
    if Keyed(steps, url, row, m) { WithinLater(steps, url, row.fetchedAt, m, t, 2 * m); }
  }

  // ---- exactly when the bound holds

  /** A forced visit at time `t` that gets no answer. */
  function Outage(cfg: Settings, url: string, t: int, newId: Id): Step {
    Visited(Visit(cfg, url, true, t, Broken, Broken, newId), 0)
  }

  /** The client is still enabled after it. */
  predicate Survives(s: State, step: Step) {
    step.Visited? && Complete(s, step) && PlanOf(s, step.v).verdict != Raised
    && Stored(Do(s, step), step.v.url).Some? && Stored(Do(s, step), step.v.url).value.enabled
  }

  /** An outage asks only how old the times in the row are. */
  lemma SurvivesIff(s: State, cfg: Settings, url: string, t: int, newId: Id)
    requires Settled(s) && CimdUrl.AcceptableUrl(url, cfg.hostRule) && newId != "" && newId !in s.issued
    requires Stored(s, url).Some? && Stored(s, url).value.enabled
    ensures Valid(s, Outage(cfg, url, t, newId))
    ensures Survives(s, Outage(cfg, url, t, newId)) <==> t - Stored(s, url).value.fetchedAt <= cfg.maxStale
  {
    var step := Outage(cfg, url, t, newId);
    var plan := if TooStale(Stored(s, url), step.v) then Disable(url, Stored(s, url)) else Plan([], Unconfirmed);
    assert PlanOf(s, step.v) == plan by { hide CimdUrl.AcceptableUrl; }
    assert CimdUrl.IsWeb(url) by { hide CimdUrl.PathAccepted, CimdUrl.IsWeb; }
    hide React, CimdUrl.AcceptableUrl, CimdUrl.IsWeb, Settled, Do;
    if t - Stored(s, url).value.fetchedAt <= cfg.maxStale { StepRows(s, step, url); }
  }

  /** The visits of a URL come at later and later times. */
  predicate InOrder(steps: seq<Step>, url: string) {
    forall i, j | 0 <= i < j < |steps| && steps[i].Visited? && steps[j].Visited?
                  && steps[i].v.url == url && steps[j].v.url == url :: steps[i].v.now < steps[j].v.now
  }

  /** After max_stale seconds without a successful revalidation the client is disabled, whenever the outage comes. */
  ghost predicate OutagesKeepBound(steps: seq<Step>, url: string, cfg: Settings, newId: Id) {
    forall t: int | Survives(DoAll(EMPTY, steps), Outage(cfg, url, t, newId)) :: Within(steps, url, t, cfg.maxStale)
  }

  /**
    That promise holds of a reachable enabled row exactly if the client was confirmed no earlier than
    the times in the row: always if the visit they come from was not without keys, and never, with a
    clock that advances, if it was.
    */
  lemma OutagesKeepBoundIff(steps: seq<Step>, url: string, cfg: Settings, newId: Id) returns (k: nat)
    requires ValidRun(EMPTY, steps) && BoundsOrdered(steps) && CimdUrl.AcceptableUrl(url, cfg.hostRule)
    requires Stored(DoAll(EMPTY, steps), url).Some? && Stored(DoAll(EMPTY, steps), url).value.enabled
    requires newId != "" && newId !in DoAll(EMPTY, steps).issued
    ensures var row := Stored(DoAll(EMPTY, steps), url).value;
      && TimedBy(steps, k, url, row)
      && (OutagesKeepBound(steps, url, cfg, newId) <==> Within(steps, url, row.fetchedAt, 0))
      && (!KeylessAt(steps, k, url) ==> OutagesKeepBound(steps, url, cfg, newId))
      && (KeylessAt(steps, k, url) && InOrder(steps, url) ==> !OutagesKeepBound(steps, url, cfg, newId))
  {
    var s := DoAll(EMPTY, steps);
    var row := Stored(s, url).value;
    assert CimdUrl.IsWeb(url) by { hide CimdUrl.PathAccepted, CimdUrl.IsWeb; }
    ReachableIsSettled(steps);
    k := RowsAreTimed(steps, url);
    TimedByConfirmedIff(steps, k, url, row);
    hide DoAll, ValidRun, CimdUrl.AcceptableUrl, CimdUrl.IsWeb, Settled, Survives, Outage, ConfirmedAt, KeylessAt,
      DocumentConfirmed, FullyConfirmed, Committed, BoundsOrdered, Stored;
    forall t: int ensures Survives(s, Outage(cfg, url, t, newId)) <==> t - row.fetchedAt <= cfg.maxStale {
      SurvivesIff(s, cfg, url, t, newId);
    }
    if OutagesKeepBound(steps, url, cfg, newId) {
      var t := row.fetchedAt + cfg.maxStale;
      assert Survives(s, Outage(cfg, url, t, newId));
      WithinLater(steps, url, t, cfg.maxStale, row.fetchedAt, 0);
    }
    if Within(steps, url, row.fetchedAt, 0) {
      forall t: int | Survives(s, Outage(cfg, url, t, newId)) ensures Within(steps, url, t, cfg.maxStale) {
        WithinLater(steps, url, row.fetchedAt, 0, t, cfg.maxStale);
      }
    }
    if KeylessAt(steps, k, url) && InOrder(steps, url) && Within(steps, url, row.fetchedAt, 0) {
      NotBefore(steps, url, k, row);
    }
  }

  /** In order, nothing confirmed the client as late as a visit without keys that came last. */
  lemma NotBefore(steps: seq<Step>, url: string, k: nat, row: Row)
    requires TimedBy(steps, k, url, row) && !ConfirmedAt(steps, k, url) && InOrder(steps, url)
    requires forall j: nat | k < j :: !ConfirmedAt(steps, j, url)
    ensures !Within(steps, url, row.fetchedAt, 0)
  {
    forall j: nat | j < |steps| && ConfirmedAt(steps, j, url) ensures !AtMost(row.fetchedAt, steps[j], 0) {
      assert j < k;
    }
    hide ConfirmedAt;
  }

  ghost predicate VisitedRecently(visits: seq<(string, int)>, url: string, row: Row, maxStale: int) {
    exists j :: 0 <= j < |visits| && visits[j].0 == url && visits[j].1 - row.fetchedAt <= maxStale
  }

  /**
    Every enabled row of these URLs has its times from at most maxStale seconds before one of the
    visits of its URL.
    */
  ghost predicate Served(s: State, urls: set<string>, visits: seq<(string, int)>, maxStale: int) {
    forall u | u in s.table.clients && s.table.clients[u].enabled && CimdUrl.IsWeb(u) && u in urls ::
      VisitedRecently(visits, u, s.table.clients[u], maxStale)
  }

  lemma NothingVisited(s: State, maxStale: int)
    ensures Served(s, {}, [], maxStale)
  {}

  lemma RecentlyVisitedStill(visits: seq<(string, int)>, more: (string, int), url: string, row: Row, maxStale: int)
    requires VisitedRecently(visits, url, row, maxStale)
    ensures VisitedRecently(visits + [more], url, row, maxStale)
  {
    var i :| 0 <= i < |visits| && visits[i].0 == url && visits[i].1 - row.fetchedAt <= maxStale;
    assert (visits + [more])[i] == visits[i];
  }

  /** A visit leaves an enabled row of its URL as it was, or with its own time. */
  lemma VisitedRow(s: State, step: Step)
    requires Settled(s) && Valid(s, step) && step.Visited? && CimdUrl.IsWeb(step.v.url)
    ensures var after := Stored(Do(s, step), step.v.url);
      after.Some? && after.value.enabled ==> after.value.fetchedAt == step.v.now || after == Stored(s, step.v.url)
  {
    hide React, KeysValidated, Settled, Do, CimdUrl.IsWeb, UrisOk, DocumentOk, KeysAnswered, Answer, Valid, Lifetime;
    StepRows(s, step, step.v.url);
    PlanRow(Stored(s, step.v.url), Alive(s, step.v.url), step.v);
  }

  /**
    One more visit, whether or not it raises: it extends the bound to its URL if it does not, and
    keeps it for the others.
    */
  lemma VisitKeepsServed(s: State, step: Step, urls: set<string>, visits: seq<(string, int)>, ended: bool)
    requires Settled(s) && Valid(s, step) && step.Visited? && Capped(s, step.v.cfg.maxStale)
    requires ended ==> Complete(s, step) && PlanOf(s, step.v).verdict != Raised
    requires Served(s, urls, visits, step.v.cfg.maxStale)
    ensures Served(Do(s, step), urls + (if ended then {step.v.url} else {}), visits + [(step.v.url, step.v.now)],
                   step.v.cfg.maxStale)
  {
    hide Settled, Valid, Do, CimdUrl.IsWeb, React, RowAfter, VisitedRecently, Complete;
    var t, url, maxStale := Do(s, step).table, step.v.url, step.v.cfg.maxStale;
    var more := visits + [(url, step.v.now)];
    forall u | u in t.clients && t.clients[u].enabled && CimdUrl.IsWeb(u) && u in urls + (if ended then {url} else {})
      ensures VisitedRecently(more, u, t.clients[u], maxStale)
    {
      if u == url {
        VisitedRow(s, step);
        if ended { VisitBoundsFetched(s, step); }
      } else {
        StepRows(s, step, u);
      }
      if Stored(s, u) == Some(t.clients[u]) && u in urls {
        RecentlyVisitedStill(visits, (url, step.v.now), u, t.clients[u], maxStale);
      } else {
        LastIsRecent(visits, url, step.v.now, t.clients[u], maxStale);
      }
    }
  }

  lemma LastIsRecent(visits: seq<(string, int)>, url: string, now: int, row: Row, maxStale: int)
    requires now - row.fetchedAt <= maxStale
    ensures VisitedRecently(visits + [(url, now)], url, row, maxStale)
  {
    assert (visits + [(url, now)])[|visits|] == (url, now);
  }

  /** What is known of an enabled row after a run that visited its URL. */
  ghost predicate ConfirmedRecently(steps: seq<Step>, visits: seq<(string, int)>, url: string, row: Row, maxStale: int)
  {
    exists j, k: nat :: ConfirmedBefore(steps, visits, j, k, url, row, maxStale)
  }

  /**
    The row's times are at most maxStale older than one of the given visits of its URL; they come
    from visit `k`, which confirmed the client unless it could not fetch the keys; and twice maxStale
    bounds the confirmation if no such visit brought the client back.
    */
  ghost predicate ConfirmedBefore(steps: seq<Step>, visits: seq<(string, int)>, j: int, k: nat, url: string, row: Row,
                                  maxStale: int)
  {
    && 0 <= j < |visits| && visits[j].0 == url
    && TimedBy(steps, k, url, row) && visits[j].1 - steps[k].v.now <= maxStale
    && (ConfirmedAt(steps, k, url) <==> !KeylessAt(steps, k, url))
    && (!KeylessAt(steps, k, url) ==> Within(steps, url, visits[j].1, maxStale))
    && (Steady(steps, url, maxStale) ==> Within(steps, url, visits[j].1, 2 * maxStale))
  }

  /** A recent time in a reachable row is the time of a visit of the run. */
  lemma RecentlyConfirmed(steps: seq<Step>, visits: seq<(string, int)>, url: string, maxStale: int)
    requires ValidRun(EMPTY, steps) && BoundsOrdered(steps) && CimdUrl.IsWeb(url)
    requires Stored(DoAll(EMPTY, steps), url).Some? && Stored(DoAll(EMPTY, steps), url).value.enabled
    requires VisitedRecently(visits, url, Stored(DoAll(EMPTY, steps), url).value, maxStale)
    ensures ConfirmedRecently(steps, visits, url, Stored(DoAll(EMPTY, steps), url).value, maxStale)
  {
    hide DoAll, ValidRun, CimdUrl.IsWeb, DocumentConfirmed, FullyConfirmed, Committed, BoundsOrdered, ConfirmedAt,
      KeylessAt, Steady, Within;
    var row := Stored(DoAll(EMPTY, steps), url).value;
    var k := RowsAreTimed(steps, url);
    var j :| 0 <= j < |visits| && visits[j].0 == url && visits[j].1 - row.fetchedAt <= maxStale;
    Bounded(steps, k, url, visits[j].1, maxStale);
    assert ConfirmedBefore(steps, visits, j, k, url, row, maxStale);
  }
}
