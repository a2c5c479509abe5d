/** The way out: disabled when the URL leaves the allow-list, deleted one token lifetime later. */
module Lifecycle {
  import opened Wrappers
  import opened Registry
  import opened Reaction
  import opened Steps
  import opened Runs
  import opened Visits
  import opened Fetcher
  import CimdUrl

  // ---- the two sweeps as functions of the table

  predicate Leaves(cfg: Settings, url: string, row: Row) { Unlisted(cfg, url) && row.enabled }

  /** The sweep of _retire_removed over some of the rows. */
  function RetireSome(t: Table, cfg: Settings, now: int, urls: set<string>): Table {
    Table(map u | u in t.clients ::
            if u in urls && Leaves(cfg, u, t.clients[u])
            then Disabled(t.clients[u], Some(now + cfg.accessSeconds))
            else t.clients[u],
          map i | i in t.index ::
            if t.index[i].url in urls && Unlisted(cfg, t.index[i].url)
            then Entry(t.index[i].url, false)
            else t.index[i])
  }

  predicate Goes(t: Table, now: int, urls: set<string>, u: string) {
    u in urls && u in t.clients && Expired(t.clients[u], now)
  }

  /** The sweep of _purge_expired over some of the rows. */
  function PurgeSome(t: Table, now: int, urls: set<string>): Table {
    Table(map u | u in t.clients && !Goes(t, now, urls, u) :: t.clients[u],
          map i | i in t.index && !Goes(t, now, urls, t.index[i].url) :: t.index[i])
  }

  lemma RetireNone(t: Table, cfg: Settings, now: int)
    ensures RetireSome(t, cfg, now, {}) == t
  {}

  lemma RetireNext(t: Table, cfg: Settings, now: int, urls: set<string>, u: string)
    requires Bijection(t) && u in t.clients && u !in urls
    ensures var m := RetireSome(t, cfg, now, urls); var next := RetireSome(t, cfg, now, urls + {u});
      && u in m.clients && m.clients[u] == t.clients[u]
      && next == (if Leaves(cfg, u, t.clients[u])
                  then PutRows(m, u, Disabled(t.clients[u], Some(now + cfg.accessSeconds)), None)
                  else m)
  {
    hide Unlisted;
    var m, next := RetireSome(t, cfg, now, urls), RetireSome(t, cfg, now, urls + {u});
    forall i | i in t.index && t.index[i].url == u ensures i == t.clients[u].id {}
    assert next.clients.Keys == m.clients.Keys && next.index.Keys == m.index.Keys;
  }

  lemma PurgeNone(t: Table, now: int)
    ensures PurgeSome(t, now, {}) == t
  {}

  lemma PurgeNext(t: Table, now: int, urls: set<string>, u: string)
    requires Bijection(t) && u in t.clients && u !in urls
    ensures var m := PurgeSome(t, now, urls); var next := PurgeSome(t, now, urls + {u});
      && u in m.clients && m.clients[u] == t.clients[u]
      && next == if Expired(t.clients[u], now) then DeleteRows(m, u, t.clients[u].id) else m
  {
    hide Expired;
    var m, next := PurgeSome(t, now, urls), PurgeSome(t, now, urls + {u});
    forall i | i in t.index && t.index[i].url == u ensures i == t.clients[u].id {}
    assert next.clients == if Expired(t.clients[u], now) then m.clients - {u} else m.clients;
    assert next.index == if Expired(t.clients[u], now) then m.index - {t.clients[u].id} else m.index;
  }

  /** The sweep of _purge_expired with its app clients. */
  function Purged(s: State, now: int, urls: set<string>): State {
    s.(table := PurgeSome(s.table, now, urls),
       apps := s.apps - set u | u in s.table.clients && Goes(s.table, now, urls, u) :: s.table.clients[u].id)
  }

  function PurgedRow(s: State, url: string, now: int): State
    requires url in s.table.clients
  {
    var row := s.table.clients[url];
    if Expired(row, now) then s.(table := DeleteRows(s.table, url, row.id), apps := s.apps - {row.id}) else s
  }

  lemma PurgedNone(s: State, now: int)
    ensures Purged(s, now, {}) == s
  {
    PurgeNone(s.table, now);
    assert (set u | u in s.table.clients && Goes(s.table, now, {}, u) :: s.table.clients[u].id) == {};
  }

  lemma PurgedNext(s: State, now: int, urls: set<string>, u: string)
    requires Bijection(s.table) && u in s.table.clients && u !in urls
    ensures var m := Purged(s, now, urls);
      && u in m.table.clients && m.table.clients[u] == s.table.clients[u]
      && Purged(s, now, urls + {u}) == PurgedRow(m, u, now)
  {
    PurgeNext(s.table, now, urls, u);
    hide PurgeSome, DeleteRows, Bijection, Expired;
    var ids := set w | w in s.table.clients && Goes(s.table, now, urls, w) :: s.table.clients[w].id;
    var more := set w | w in s.table.clients && Goes(s.table, now, urls + {u}, w) :: s.table.clients[w].id;
    assert more == ids + if Expired(s.table.clients[u], now) then {s.table.clients[u].id} else {};
  }

  // ---- single iterations as steps

  lemma RetireIteration(s: State, cfg: Settings, url: string, now: int)
    requires Settled(s) && url in s.table.clients && Leaves(cfg, url, s.table.clients[url])
    ensures forall k: nat | k <= 1 :: Valid(s, Retire(cfg, url, now, k))
    ensures Do(s, Retire(cfg, url, now, 0)) == s
    ensures Do(s, Retire(cfg, url, now, 1)) ==
      s.(table := PutRows(s.table, url, Disabled(s.table.clients[url], Some(now + cfg.accessSeconds)), None))
  {
    hide Inv, PutRows, Unlisted;
    var e := Put(url, Disabled(s.table.clients[url], Some(now + cfg.accessSeconds)), None);
    assert Effects(s, Retire(cfg, url, now, 0)) == [e] && [e][..0] == [];
    Run0(s);
    Run1(s, e);
  }

  lemma DeleteIteration(s: State, url: string)
    requires Settled(s) && url in s.table.clients
    ensures var id := s.table.clients[url].id;
      var cut := s.(apps := s.apps - {id});
      && Do(s, Erase(url, 0)) == s && Do(s, Erase(url, 1)) == cut
      && Do(s, Erase(url, 2)) == cut.(table := DeleteRows(s.table, url, id))
    ensures forall k: nat | k <= 2 :: Valid(s, Erase(url, k))
  {
    hide Inv, DeleteRows;
    var id := s.table.clients[url].id;
    assert Cut([Remove(id), Drop(url, id)], 0) == [];
    assert Cut([Remove(id), Drop(url, id)], 1) == [Remove(id)];
    Run0(s);
    Run1(s, Remove(id));
    Run2(s, Remove(id), Drop(url, id));
  }

  lemma PurgeIteration(s: State, url: string, now: int, k: nat)
    requires Settled(s) && url in s.table.clients && Expired(s.table.clients[url], now) && k <= 2
    ensures Do(s, Purge(url, now, k)) == Do(s, Erase(url, k)) && Valid(s, Purge(url, now, k))
  {
    hide Inv;
  }

  // ---- what waits, what goes, and what never does

  ghost predicate Unattended(steps: seq<Step>, url: string) {
    forall i | 0 <= i < |steps| && Subject(steps[i]) == url :: steps[i].Retire? || steps[i].Purge?
  }

  /** Step `k` purged the row, app client and all, at or after its deletion time. */
  predicate PurgedAt(steps: seq<Step>, k: nat, url: string, row: Row) {
    k < |steps| && Purges(steps[k], url, row)
  }

  predicate Purges(step: Step, url: string, row: Row) {
    step.Purge? && step.url == url && Expired(row, step.now) && step.done == 2
  }

  /** A disabled row nobody visits stays as it is, and is gone exactly once a purge found its deletion time passed. */
  lemma {:induction false} DisabledRowWaits(s: State, steps: seq<Step>, url: string)
    requires Settled(s) && ValidRun(s, steps) && CimdUrl.IsWeb(url) && Unattended(steps, url)
    requires Stored(s, url).Some? && !Stored(s, url).value.enabled
    ensures var after := Stored(DoAll(s, steps), url);
      && (after == Stored(s, url) || after.None?)
      && (after.None? <==> exists k: nat :: PurgedAt(steps, k, url, Stored(s, url).value))
  {
    hide Valid, Do, CimdUrl.IsWeb, Settled, Purges, Stored;
    if steps != [] {
      var n := |steps| - 1;
      DisabledRowWaits(s, steps[..n], url);
      RunsKeepSettled(s, steps[..n]);
      var m, row := DoAll(s, steps[..n]), Stored(s, url).value;
      forall k: nat ensures PurgedAt(steps, k, url, row) <==>
        PurgedAt(steps[..n], k, url, row) || (k == n && Purges(steps[n], url, row)) {}
      if Stored(m, url).Some? {
        IdleStep(m, steps[n], url);
        assert Purges(steps[n], url, row) ==> PurgedAt(steps, n, url, row);
      } else {
        GoneStaysGone(m, steps[n], url);
      }
    }
  }

  lemma IdleStep(s: State, step: Step, url: string)
    requires Settled(s) && Valid(s, step) && CimdUrl.IsWeb(url)
    requires Subject(step) == url ==> step.Retire? || step.Purge?
    requires Stored(s, url).Some? && !Stored(s, url).value.enabled
    ensures Stored(Do(s, step), url) == if Purges(step, url, Stored(s, url).value) then None else Stored(s, url)
  {
    hide React, CimdUrl.IsWeb, Settled, Do;
    StepRows(s, step, url);
  }

  lemma GoneStaysGone(s: State, step: Step, url: string)
    requires Settled(s) && Valid(s, step) && CimdUrl.IsWeb(url)
    requires Subject(step) == url ==> step.Retire? || step.Purge?
    requires Stored(s, url).None?
    ensures Stored(Do(s, step), url).None?
  {
    hide React, CimdUrl.IsWeb, Settled, Valid, Do;
    StepRows(s, step, url);
  }

  /**
    A row that was already disabled when its URL left the allow-list has no deletion time, and no
    run ever removes it.
    */
  lemma DisabledBeforeRemovalIsKept(s: State, steps: seq<Step>, url: string)
    requires Settled(s) && ValidRun(s, steps) && CimdUrl.IsWeb(url) && Unattended(steps, url)
    requires Stored(s, url).Some? && !Stored(s, url).value.enabled
    requires Stored(s, url).value.deleteAfter.None?
    ensures Stored(DoAll(s, steps), url) == Stored(s, url)
  {
    DisabledRowWaits(s, steps, url);
  }

  /** The sweep of an unlisted row schedules its deletion one access-token lifetime ahead if it is still enabled. */
  function Scheduled(cfg: Settings, row: Row, now: int): Row {
    if row.enabled then Disabled(row, Some(now + cfg.accessSeconds)) else row
  }

  lemma RetiringSchedules(s: State, retire: Step)
    requires Settled(s) && Valid(s, retire) && retire.Retire? && Complete(s, retire)
    requires CimdUrl.IsWeb(retire.url) && Unlisted(retire.cfg, retire.url) && Stored(s, retire.url).Some?
    ensures Stored(Do(s, retire), retire.url) == Some(Scheduled(retire.cfg, Stored(s, retire.url).value, retire.now))
  {
    hide CimdUrl.IsWeb, Settled, Valid, Do, Unlisted;
    StepRows(s, retire, retire.url);
  }

  lemma PurgingDeletes(s: State, purge: Step)
    requires Settled(s) && Valid(s, purge) && purge.Purge? && Complete(s, purge) && CimdUrl.IsWeb(purge.url)
    ensures Stored(Do(s, purge), purge.url) ==
      if Stored(s, purge.url).Some? && Expired(Stored(s, purge.url).value, purge.now) then None
      else Stored(s, purge.url)
  {
    hide CimdUrl.IsWeb, Settled, Valid, Do, Expired;
    StepRows(s, purge, purge.url);
  }

  /**
    The promise that a removed client is disabled, kept for one access-token lifetime and then
    deleted: after a purge the row is gone exactly if its deletion time has come for this purge or an
    earlier one. A row that was enabled has that time one token lifetime after the sweep that removed
    it, so it goes then and no sooner; one that was disabled without a time never goes.
    */
  lemma RemovalDeletesIff(s: State, retire: Step, steps: seq<Step>, purge: Step)
    requires Settled(s) && Valid(s, retire) && retire.Retire? && Complete(s, retire)
    requires CimdUrl.IsWeb(retire.url) && Unlisted(retire.cfg, retire.url)
    requires Stored(s, retire.url).Some? && Unattended(steps, retire.url)
    requires ValidRun(Do(s, retire), steps)
    requires var m := DoAll(Do(s, retire), steps);
      Valid(m, purge) && purge.Purge? && Complete(m, purge) && purge.url == retire.url
    ensures var before := Stored(s, retire.url).value; var row := Scheduled(retire.cfg, before, retire.now);
      var gone := Stored(Do(DoAll(Do(s, retire), steps), purge), retire.url).None?;
      && (gone <==> Expired(row, purge.now) || exists k: nat :: PurgedAt(steps, k, retire.url, row))
      && (before.enabled && purge.now >= retire.now + retire.cfg.accessSeconds ==> gone)
      && (before.enabled && gone ==>
            purge.now >= retire.now + retire.cfg.accessSeconds
            || exists k: nat :: PurgedAt(steps, k, retire.url, row)
                                && steps[k].now >= retire.now + retire.cfg.accessSeconds)
      && (!before.enabled && before.deleteAfter.None? ==> !gone)
  {
    var url := retire.url;
    var row := Scheduled(retire.cfg, Stored(s, url).value, retire.now);
    RetiringSchedules(s, retire);
    StepKeepsSettled(s, retire);
    RunsKeepSettled(Do(s, retire), steps);
    DisabledRowWaits(Do(s, retire), steps, url);
    hide CimdUrl.IsWeb, Settled, Valid, Do, DoAll, ValidRun, Unattended, Unlisted, Complete, Stored;
    PurgingDeletes(DoAll(Do(s, retire), steps), purge);
  }

  function Sweep(t: Table, cfg: Settings, now: int, later: int): Table {
    var retired := RetireSome(t, cfg, now, t.clients.Keys);
    PurgeSome(retired, later, retired.clients.Keys)
  }

  /** What the two sweeps at the end of a run make of a row. */
  function Swept(cfg: Settings, url: string, row: Row, now: int, later: int): Option<Row> {
    var row' := if Leaves(cfg, url, row) then Disabled(row, Some(now + cfg.accessSeconds)) else row;
    if Expired(row', later) then None else Some(row')
  }

  lemma SweepIsPerRow(t: Table, cfg: Settings, now: int, later: int, u: string)
    ensures var t' := Sweep(t, cfg, now, later);
      && (u in t'.clients <==> u in t.clients && Swept(cfg, u, t.clients[u], now, later).Some?)
      && (u in t'.clients ==> t'.clients[u] == Swept(cfg, u, t.clients[u], now, later).value)
  {
    hide Unlisted, Expired;
  }

  /**
    After the sweeps no row is past its deletion time and every enabled row is listed. A row that
    leaves is disabled at once and survives at least one access-token lifetime; a row that was
    enabled and stays listed is untouched.
    */
  lemma SweptCases(cfg: Settings, url: string, row: Row, now: int, later: int)
    requires RowOk(url, row)
    ensures var after := Swept(cfg, url, row, now, later);
      && (Leaves(cfg, url, row) && later < now + cfg.accessSeconds ==>
            after == Some(Disabled(row, Some(now + cfg.accessSeconds))))
      && (Leaves(cfg, url, row) && after.Some? ==> !after.value.enabled)
      && (row.enabled && !Unlisted(cfg, url) ==> after == Some(row))
      && (!row.enabled ==> after == if Expired(row, later) then None else Some(row))
      && (after.Some? ==> !Expired(after.value, later))
  {
    hide Unlisted, CimdUrl.IsWeb;
  }

  // ---- a URL that comes back to the allow-list

  predicate ReadsDocument(stored: Option<Row>, v: Visit) {
    var a := Answer(stored, v); a.Loaded? && DocumentOk(v.cfg, a.document, v.url)
  }

  lemma DisabledDocument(row: Row, alive: bool, v: Visit)
    requires !row.enabled && Answer(Some(row), v).Loaded? && DocumentOk(v.cfg, Answer(Some(row), v).document, v.url)
    ensures var a := Answer(Some(row), v); var e := OnDocument(Some(row), alive, v, a.document, a.headers).effects;
      e != [] && Last(e).Put? && Last(e).row.enabled
  {
    var a := Answer(Some(row), v);
    CommitRow(Some(row), alive, v, FreshRow(v, a.document, a.headers, ""), Validated);
    CommitRow(Some(row), alive, v, StaleRow(row, v, a.document, a.headers, ""), Unconfirmed);
    hide Commit, DocumentOk, KeysAnswered, Answer, FingerprintOf, KeysContent;
  }

  lemma SpoiledDocument(row: Row, alive: bool, v: Visit)
    requires !row.enabled && Answer(Some(row), v).Loaded? && !DocumentOk(v.cfg, Answer(Some(row), v).document, v.url)
    ensures var a := Answer(Some(row), v);
      OnDocument(Some(row), alive, v, a.document, a.headers) == Plan([], Unconfirmed)
  {
    hide Commit, DocumentOk, KeysAnswered, Answer, FingerprintOf, KeysContent;
  }

  /**
    Contact alone does not bring a client back: only a valid document enables it, and nothing else
    lifts its deletion time.
    */
  lemma DisabledVisitEnablesIff(row: Row, alive: bool, v: Visit)
    requires !row.enabled && CimdUrl.AcceptableUrl(v.url, v.cfg.hostRule)
    ensures var left := RowLeft(Some(row), alive, v);
      && left.Some? && (left.value.enabled <==> ReadsDocument(Some(row), v))
      && (!left.value.enabled ==> left.value.deleteAfter == row.deleteAfter)
  {
    if ReadsDocument(Some(row), v) {
      DisabledDocument(row, alive, v);
    } else if Answer(Some(row), v).Loaded? {
      SpoiledDocument(row, alive, v);
    }
    hide CimdUrl.AcceptableUrl, OnDocument, DocumentOk, UrisOk, Answer;
  }

  /** A committed visit of the URL that reads a valid document. */
  predicate ReadsAt(steps: seq<Step>, j: nat, url: string) {
    j < |steps| && Brings(DoAll(EMPTY, steps[..j]), steps[j], url)
  }

  predicate Brings(s: State, step: Step, url: string) {
    step.Visited? && step.v.url == url && Committed(s, step) && ReadsDocument(Stored(s, url), step.v)
  }

  lemma OutOfServiceVisit(stored: Option<Row>, alive: bool, v: Visit)
    requires !Usable(stored) && React(stored, alive, v).effects != []
    ensures Last(React(stored, alive, v).effects).Put?
    ensures Last(React(stored, alive, v).effects).row.enabled <==> ReadsDocument(stored, v)
  {
    PlanRow(stored, alive, v);
    hide React, DocumentOk, KeysAnswered, UrisOk, Answer, Lifetime, FingerprintOf, KeysContent, KeysTooOld;
  }

  /** Only such a visit puts a client into service that is unknown or disabled. */
  lemma EntersServiceIff(s: State, step: Step, url: string)
    requires Settled(s) && Valid(s, step) && CimdUrl.IsWeb(url) && !Usable(Stored(s, url))
    ensures Usable(Stored(Do(s, step), url)) <==> Brings(s, step, url)
  {
    hide Settled, Valid, Do, CimdUrl.IsWeb, React, ReadsDocument;
    StepRows(s, step, url);
    if step.Visited? && step.v.url == url && Committed(s, step) {
      OutOfServiceVisit(Stored(s, url), Alive(s, url), step.v);
    }
  }

  ghost predicate StaysOut(steps: seq<Step>, k: nat, n: nat, url: string) {
    forall m: nat | k <= m <= n :: OutAt(steps, m, url)
  }

  predicate OutAt(steps: seq<Step>, m: nat, url: string) {
    m <= |steps| ==> !Usable(Stored(DoAll(EMPTY, steps[..m]), url))
  }

  lemma NextOut(steps: seq<Step>, j: nat, url: string)
    requires ValidRun(EMPTY, steps) && CimdUrl.IsWeb(url) && j < |steps| && OutAt(steps, j, url)
    ensures OutAt(steps, j + 1, url) <==> !ReadsAt(steps, j, url)
  {
    hide Settled, Valid, Do, DoAll, ValidRun, CimdUrl.IsWeb, Usable, Brings, Stored;
    PrefixStep(steps, j);
    EntersServiceIff(DoAll(EMPTY, steps[..j]), steps[j], url);
  }

  /**
    Over any run: a client that is unknown or disabled, for keys that are too old or any other
    reason, stays so exactly until a committed visit reads a valid document.
    */
  lemma {:induction false} StaysOutIff(steps: seq<Step>, k: nat, n: nat, url: string)
    requires ValidRun(EMPTY, steps) && CimdUrl.IsWeb(url) && k <= n <= |steps| && OutAt(steps, k, url)
    ensures StaysOut(steps, k, n, url) <==> forall j: nat | k <= j < n :: !ReadsAt(steps, j, url)
    decreases n
  {
    hide ValidRun, CimdUrl.IsWeb, OutAt, ReadsAt;
    if n > k {
      StaysOutIff(steps, k, n - 1, url);
      assert StaysOut(steps, k, n, url) <==> StaysOut(steps, k, n - 1, url) && OutAt(steps, n, url);
      if OutAt(steps, n - 1, url) { NextOut(steps, n - 1, url); }
    }
  }

  ghost predicate VisitsOfOthers(steps: seq<Step>, url: string) {
    forall i | 0 <= i < |steps| :: steps[i].Visited? && steps[i].v.url != url
  }

  lemma {:induction false} OthersLeaveRow(s: State, steps: seq<Step>, url: string)
    requires Settled(s) && ValidRun(s, steps) && VisitsOfOthers(steps, url) && CimdUrl.IsWeb(url)
    ensures Stored(DoAll(s, steps), url) == Stored(s, url)
  {
    hide Settled, Valid, Do, CimdUrl.IsWeb, RowAfter;
    if steps != [] {
      var n := |steps| - 1;
      OthersLeaveRow(s, steps[..n], url);
      RunsKeepSettled(s, steps[..n]);
      StepRows(DoAll(s, steps[..n]), steps[n], url);
    }
  }

  lemma CompleteVisitRow(s: State, visit: Step, row: Row)
    requires Settled(s) && Valid(s, visit) && visit.Visited? && Complete(s, visit) && CimdUrl.IsWeb(visit.v.url)
    requires Stored(s, visit.v.url) == Some(row)
    ensures Stored(Do(s, visit), visit.v.url) == RowLeft(Some(row), Alive(s, visit.v.url), visit.v)
  {
    hide React, Settled, Valid, Do, CimdUrl.IsWeb;
    StepRows(s, visit, visit.v.url);
    PlanRow(Some(row), Alive(s, visit.v.url), visit.v);
    hide Disables, Extends, Renews, Stales;
  }

  /**
    A disabled client that is listed again survives the run that visits it, through the visits of
    the others and both closing sweeps, exactly if the visit reads a valid document or its deletion
    time has not come: after a 304 or a failed fetch it is purged although it is listed.
    */
  lemma RelistedSurvivesIff(s: State, visit: Step, others: seq<Step>, cfg: Settings, retireAt: int, purgeAt: int)
    requires Settled(s) && Valid(s, visit) && visit.Visited? && Complete(s, visit) && visit.v.url in cfg.allowed
    requires CimdUrl.AcceptableUrl(visit.v.url, visit.v.cfg.hostRule)
    requires Stored(s, visit.v.url).Some? && !Stored(s, visit.v.url).value.enabled
    requires ValidRun(Do(s, visit), others) && VisitsOfOthers(others, visit.v.url)
    ensures var row := Stored(s, visit.v.url).value; var m := DoAll(Do(s, visit), others);
      visit.v.url in Sweep(m.table, cfg, retireAt, purgeAt).clients <==>
      ReadsDocument(Some(row), visit.v) || !Expired(row, purgeAt)
  {
    var row, url := Stored(s, visit.v.url).value, visit.v.url;
    assert CimdUrl.IsWeb(url) by { hide CimdUrl.PathAccepted, CimdUrl.IsWeb; }
    DisabledVisitEnablesIff(row, Alive(s, url), visit.v);
    hide CimdUrl.AcceptableUrl, CimdUrl.IsWeb, ReadsDocument, RowLeft, Settled, Valid, Do, Complete, Sweep, React;
    CompleteVisitRow(s, visit, row);
    StepKeepsSettled(s, visit);
    OthersLeaveRow(Do(s, visit), others, url);
    RunsKeepSettled(Do(s, visit), others);
    var m := DoAll(Do(s, visit), others);
    SettledRow(m, url);
    SweepIsPerRow(m.table, cfg, retireAt, purgeAt, url);
    SweptCases(cfg, url, m.table.clients[url], retireAt, purgeAt);
  }

  lemma SettledRow(s: State, url: string)
    requires Settled(s)
    ensures Stored(s, url).Some? <==> url in s.table.clients
    ensures url in s.table.clients ==>
      Stored(s, url).value == s.table.clients[url] && RowOk(url, s.table.clients[url])
      && (s.table.clients[url].enabled ==> s.table.clients[url].deleteAfter.None?)
  {
    hide Bijection, AppsAccounted;
  }
}
