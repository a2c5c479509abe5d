/** The reconciler, imperatively, against the plans and steps it is proved to follow. */
module Reconcile {
  import opened Wrappers
  import opened Registry
  import opened Reaction
  import opened Steps
  import opened Runs
  import opened Visits
  import opened Fetcher
  import CimdUrl
  import L = Lifecycle
  import St = Staleness
  import H = History
  import Store
  import Cognito

  /** `after` is `before` with the first `done` effects of the plan. */
  ghost predicate Executed(before: State, after: State, effects: seq<Effect>, done: nat) {
    done <= |effects| && after == ApplyAll(before, Cut(effects, done))
  }

  lemma ExecutedNone(s: State, effects: seq<Effect>)
    ensures Executed(s, s, effects, 0)
  {
    Run0(s);
  }

  lemma ExecutedOne(s: State, e: Effect)
    ensures Executed(s, Apply(s, e), [e], 1)
  {
    Run1(s, e);
  }

  lemma ExecutedFirst(s: State, e: Effect, f: Effect)
    ensures Executed(s, Apply(s, e), [e, f], 1)
  {
    Run1(s, e);
    assert [e, f][..1] == [e];
  }

  lemma ExecutedBoth(s: State, e: Effect, f: Effect)
    ensures Executed(s, Apply(Apply(s, e), f), [e, f], 2)
  {
    Run2(s, e, f);
  }

  /** What validate_document complains about. */
  datatype Problem = WrongClientId | NoRedirectUris | TooManyRedirectUris | BadRedirectUri(uri: string) | BadJwksUri
    | OtherRule

  /** validate_document: every problem there is, in the order of the checks. */
  method ValidateDocument(cfg: Settings, doc: Document, url: string) returns (problems: seq<Problem>)
    ensures problems == [] <==> DocumentOk(cfg, doc, url)
    ensures WrongClientId in problems <==> doc.clientId != url
    ensures NoRedirectUris in problems <==> doc.redirectUris == []
    ensures TooManyRedirectUris in problems <==> |doc.redirectUris| > cfg.maxRedirectUris && doc.redirectUris != []
    ensures forall r :: BadRedirectUri(r) in problems <==> r in doc.redirectUris && !cfg.uriRule(r)
    ensures BadJwksUri in problems <==> doc.jwksUri.Some? && !("https://" <= doc.jwksUri.value)
    ensures OtherRule in problems <==> !doc.otherRules
  {
    problems := if doc.clientId != url then [WrongClientId] else [];
    if doc.redirectUris == [] {
      problems := problems + [NoRedirectUris];
    } else {
      if |doc.redirectUris| > cfg.maxRedirectUris { problems := problems + [TooManyRedirectUris]; }
      var before := problems;
      for i := 0 to |doc.redirectUris|
        invariant forall r :: BadRedirectUri(r) in problems <==> r in doc.redirectUris[..i] && !cfg.uriRule(r)
        invariant forall p: Problem | !p.BadRedirectUri? :: p in problems <==> p in before
        invariant problems == [] <==> before == [] && forall r | r in doc.redirectUris[..i] :: cfg.uriRule(r)
      {
        assert doc.redirectUris[..i + 1] == doc.redirectUris[..i] + [doc.redirectUris[i]];
        if !cfg.uriRule(doc.redirectUris[i]) { problems := problems + [BadRedirectUri(doc.redirectUris[i])]; }
      }
      assert doc.redirectUris[..|doc.redirectUris|] == doc.redirectUris;
    }
    if doc.jwksUri.Some? && !("https://" <= doc.jwksUri.value) { problems := problems + [BadJwksUri]; }
    if !doc.otherRules { problems := problems + [OtherRule]; }
  }

  /** What the outside world answers during one visit of a run. */
  datatype Answers = Answers(now: int, doc: Response<Document>, jwks: Response<string>)

  class Reconciler {
    const cfg: Settings
    const store: Store.Store
    const cognito: Cognito.CognitoOps

    constructor (cfg: Settings, store: Store.Store, cognito: Cognito.CognitoOps)
      ensures this.cfg == cfg && this.store == store && this.cognito == cognito
    {
      this.cfg, this.store, this.cognito := cfg, store, cognito;
    }

    ghost function World(): State
      reads store, cognito
    {
      State(store.Rows(), cognito.apps, cognito.issued, cognito.pending, cognito.orphans)
    }

    /** How many external calls have raised. */
    ghost function Failures(): nat
      reads store`failures, cognito`failures
    {
      store.failures + cognito.failures
    }

    /** What failed did so because a call raised, and what did not fail met no call that raised. */
    twostate predicate Blamed(ok: bool)
      reads store`failures, cognito`failures
    {
      Failures() >= old(Failures()) && (ok <==> Failures() == old(Failures()))
    }

    // ---- external calls as effects

    method WriteRow(url: string, row: Row, retire: Option<Retirement>) returns (ok: bool, ghost done: nat)
      modifies store`failures, cognito`failures
      modifies store`clients, store`index, cognito`pending
      ensures Executed(old(World()), World(), [Effect.Put(url, row, retire)], done)
      ensures Blamed(ok) && (ok ==> done == 1)
    {
      ghost var s, e := World(), Effect.Put(url, row, retire);
      ghost var applied;
      ok, applied := store.PutClient(url, row, retire);
      if applied && cognito.pending == Some(row.id) {
        cognito.pending := None;
      }
      done := if applied then 1 else 0;
      ExecutedNone(s, [e]);
      ExecutedOne(s, e);
    }

    /** A new app client with its branding, then the row that names it. */
    method CreateAndWrite(url: string, row: Row, retire: Option<Retirement>)
      returns (ok: bool, newId: Id, ghost done: nat)
      modifies store`failures, cognito`failures, cognito`branded
      modifies store`clients, store`index, cognito`apps, cognito`issued, cognito`pending
      ensures newId !in old(cognito.issued) && newId != ""
      ensures ok ==> newId in cognito.branded
      ensures Executed(old(World()), World(),
                       [Effect.Create(newId, row.redirectUris), Effect.Put(url, row.(id := newId), retire)], done)
      ensures Blamed(ok) && (ok ==> done == 2)
    {
      ghost var s := World();
      ghost var applied;
      var id;
      ok, id, applied := cognito.CreateClient(row.redirectUris);
      newId := id;
      ghost var e, f := Effect.Create(id, row.redirectUris), Effect.Put(url, row.(id := id), retire);
      done := if applied then 1 else 0;
      ExecutedNone(s, [e, f]);
      ExecutedFirst(s, e, f);
      ExecutedBoth(s, e, f);
      if !ok { return; }
      ok := cognito.EnsureBranding(id);
      if !ok { return; }
      ghost var wrote;
      assert World() == Apply(s, e);
      ok, wrote := WriteRow(url, row.(id := id), retire);
      Run0(Apply(s, e));
      Run1(Apply(s, e), f);
      done := if wrote == 1 then 2 else 1;
    }

    /** New callbacks in Cognito, then the row that records them. */
    method UpdateAndWrite(url: string, row: Row) returns (ok: bool, ghost done: nat)
      modifies store`failures, cognito`failures, cognito`branded
      modifies store`clients, store`index, cognito`apps, cognito`pending
      ensures Executed(old(World()), World(), [Effect.Update(row.id, row.redirectUris), Effect.Put(url, row, None)],
                       done)
      ensures Blamed(ok) && (ok ==> done == 2)
    {
      ghost var s := World();
      ghost var e, f := Effect.Update(row.id, row.redirectUris), Effect.Put(url, row, None);
      ghost var applied;
      ok, applied := cognito.UpdateCallbacks(row.id, row.redirectUris);
      done := if applied then 1 else 0;
      ExecutedNone(s, [e, f]);
      ExecutedFirst(s, e, f);
      ExecutedBoth(s, e, f);
      if !ok { return; }
      ghost var wrote;
      ok, wrote := WriteRow(url, row, None);
      Run0(Apply(s, e));
      Run1(Apply(s, e), f);
      done := if wrote == 1 then 2 else 1;
    }

    // ---- per URL

    function VisitOf(url: string, force: bool, now: int, doc: Response<Document>, jwks: Response<string>,
                     newId: Id): Visit
    {
      Visit(cfg, url, force, now, doc, jwks, newId)
    }

    /**
      The outcome of part of a visit: the effects of the plan up to the cut, and the plan's verdict
      if nothing raised.
      */
    twostate predicate Follows(plan: Plan, verdict: Verdict, done: nat)
      reads store, cognito
    {
      && Executed(old(World()), World(), plan.effects, done)
      && (verdict != Raised ==> done == |plan.effects| && verdict == plan.verdict && HasPage(plan))
      && RaisedFor(plan, verdict)
    }

    /** The app client of a row that is written to be served has a login page. */
    predicate HasPage(plan: Plan)
      reads cognito`branded
    {
      plan.effects != [] && Last(plan.effects).Put? && Last(plan.effects).row.enabled ==>
        Last(plan.effects).row.id in cognito.branded
    }

    /** A visit raises exactly if a call did, or the plan itself raises. */
    twostate predicate RaisedFor(plan: Plan, verdict: Verdict)
      reads store`failures, cognito`failures
    {
      && Failures() >= old(Failures())
      && (verdict == Raised <==> Failures() > old(Failures()) || plan.verdict == Raised)
    }

    method DisableIfEnabled(url: string, stored: Option<Row>) returns (verdict: Verdict, ghost done: nat)
      modifies store`failures, cognito`failures
      modifies store`clients, store`index, cognito`pending
      ensures Follows(Disable(url, stored), verdict, done)
    {
      verdict, done := Unconfirmed, 0;
      Run0(World());
      if stored.Some? && stored.value.enabled {
        var ok;
        ok, done := WriteRow(url, stored.value.(enabled := false, deleteAfter := None), None);
        if !ok { verdict := Raised; }
      }
    }

    /** A 304 for a stored row: re-check its redirect URIs, then extend the cache. */
    method NotModified(url: string, force: bool, now: int, response: Response<Document>, jwks: Response<string>,
                       ghost newId: Id,
                       stored: Row, h: Headers)
      returns (verdict: Verdict, ghost done: nat)
      modifies store`failures, cognito`failures, cognito`branded
      modifies store`clients, store`index, cognito`pending
      ensures Follows(OnUnmodified(stored, VisitOf(url, force, now, response, jwks, newId), h), verdict, done)
    {
      var i, acceptable := 0, true;
      while i < |stored.redirectUris|
        invariant i <= |stored.redirectUris|
        invariant acceptable <==> forall j | 0 <= j < i :: cfg.uriRule(stored.redirectUris[j])
      {
        acceptable := acceptable && cfg.uriRule(stored.redirectUris[i]);
        i := i + 1;
      }
      assert acceptable <==> UrisOk(cfg, stored.redirectUris);
      if !acceptable {
        verdict, done := DisableIfEnabled(url, Some(stored));
        return;
      }
      var ttl := CacheSeconds(h, cfg.cacheMin, cfg.cacheMax);
      var row := stored.(cacheUntil := now + ttl, fetchedAt := now);
      var ok;
      ok, done := WriteRow(url, row, None);
      if ok { ok := cognito.EnsureBranding(row.id); }
      verdict := if !ok then Raised else if row.enabled then Validated else Unconfirmed;
    }

    /** Returns (content, fetched_at, validated_now), or None when registration is refused. */
    method JwksContent(doc: Document, stored: Option<Row>, now: int, jwks: Response<string>)
      returns (keys: Option<(Option<string>, Option<int>, bool)>)
      ensures KeysAnswered(doc, jwks) ==>
        keys == Some((KeysContent(doc, jwks), if doc.jwksUri.Some? then Some(now) else None, true))
      ensures !KeysAnswered(doc, jwks) ==>
        keys == if stored.None? then None else Some((stored.value.keys, stored.value.keysFetchedAt, false))
    {
      if doc.jwksUri.None? { return Some((None, None, true)); }
      match Interpret(jwks, None)
      case Loaded(content, _) => return Some((Some(content), Some(now), true));
      case _ =>
        if stored.None? { return None; }
        return Some((stored.value.keys, stored.value.keysFetchedAt, false));
    }

    /** The app client stays: update its callbacks if the redirect URIs changed, then write the row. */
    method RefreshClient(url: string, before: Row, row: Row, verdictIfDone: Verdict)
      returns (verdict: Verdict, ghost done: nat)
      modifies store`failures, cognito`failures, cognito`branded
      modifies store`clients, store`index, cognito`apps, cognito`pending
      ensures Follows(Plan((if multiset(before.redirectUris) != multiset(row.redirectUris)
                            then [Effect.Update(row.id, row.redirectUris)] else []) + [Effect.Put(url, row, None)],
                           verdictIfDone), verdict, done)
    {
      var ok;
      if multiset(before.redirectUris) != multiset(row.redirectUris) {
        ok, done := UpdateAndWrite(url, row);
        assert [Effect.Update(row.id, row.redirectUris)] + [Effect.Put(url, row, None)]
            == [Effect.Update(row.id, row.redirectUris), Effect.Put(url, row, None)];
      } else {
        ok, done := WriteRow(url, row, None);
        assert [] + [Effect.Put(url, row, None)] == [Effect.Put(url, row, None)];
      }
      if ok { ok := cognito.EnsureBranding(row.id); }
      verdict := if ok then verdictIfDone else Raised;
    }

    /** The keys are the same: keep the app client if Cognito still has it, else put a new one in its place. */
    method KeepOrRecreate(url: string, force: bool, now: int, response: Response<Document>, jwks: Response<string>,
                          before: Row, row: Row, outcome: Verdict)
      returns (verdict: Verdict, ghost newId: Id, ghost done: nat)
      requires Stored(World(), url) == Some(before) && before.id != ""
      requires before.fingerprint.Some? ==> before.fingerprint == row.fingerprint
      modifies store`failures, cognito`failures, cognito`branded
      modifies store`clients, store`index, cognito`apps, cognito`issued, cognito`pending
      ensures newId !in old(cognito.issued) && newId != ""
      ensures Follows(Reaction.Commit(Some(before), Alive(old(World()), url),
                                      VisitOf(url, force, now, response, jwks, newId), row, outcome),
                      verdict, done)
    {
      hide Executed;
      newId := Cognito.FreshIdExists(cognito.issued);
      var ok, found := cognito.DescribeClient(before.id);
      if !ok {
        ExecutedNone(World(), Reaction.Commit(Some(before), Alive(World(), url),
                                              VisitOf(url, force, now, response, jwks, newId), row, outcome).effects);
        return Raised, newId, 0;
      }
      if found {
        verdict, done := RefreshClient(url, before, row.(id := before.id), outcome);
      } else {
        var id;
        ok, id, done := CreateAndWrite(url, row, Some(Retirement(before.id, Some(now + cfg.accessSeconds))));
        if ok { ok := cognito.EnsureBranding(id); }
        return if ok then outcome else Raised, id, done;
      }
    }

    /** Register, rotate, re-create or refresh, in the order the source asks. */
    method Commit(url: string, force: bool, now: int, response: Response<Document>, jwks: Response<string>,
                  stored: Option<Row>, row: Row, outcome: Verdict)
      returns (verdict: Verdict, ghost newId: Id, ghost done: nat)
      requires stored == Stored(World(), url)
      modifies store`failures, cognito`failures, cognito`branded
      modifies store`clients, store`index, cognito`apps, cognito`issued, cognito`pending
      ensures newId !in old(cognito.issued) && newId != ""
      ensures Follows(Reaction.Commit(stored, Alive(old(World()), url),
                                      VisitOf(url, force, now, response, jwks, newId), row, outcome),
                      verdict, done)
    {
      hide Executed;
      var ok, id;
      newId := Cognito.FreshIdExists(cognito.issued);
      if stored.None? || stored.value.id == "" {
        ok, id, done := CreateAndWrite(url, row, None);
        return if ok then outcome else Raised, id, done;
      }
      var before := stored.value;
      var retire := Some(Retirement(before.id, Some(now + cfg.accessSeconds)));
      if before.fingerprint.Some? && before.fingerprint != row.fingerprint {
        ok, id, done := CreateAndWrite(url, row, retire);
        return if ok then Validated else Raised, id, done;
      }
      verdict, newId, done := KeepOrRecreate(url, force, now, response, jwks, before, row, outcome);
    }

    /** A 200 with a document: validate it and its keys, then write the row they make. */
    method OnDocument(url: string, force: bool, now: int, response: Response<Document>, jwks: Response<string>,
                      stored: Option<Row>, doc: Document, h: Headers)
      returns (verdict: Verdict, ghost newId: Id, ghost done: nat)
      requires stored == Stored(World(), url)
      modifies store`failures, cognito`failures, cognito`branded
      modifies store`clients, store`index, cognito`apps, cognito`issued, cognito`pending
      ensures newId !in old(cognito.issued) && newId != ""
      ensures Follows(Reaction.OnDocument(stored, Alive(old(World()), url),
                                          VisitOf(url, force, now, response, jwks, newId), doc, h),
                      verdict, done)
    {
      hide Reaction.Commit, Executed, Disable, Stored, Alive, DocumentOk, ForbidsStorage, Interpret, Lifetime;
      newId := Cognito.FreshIdExists(cognito.issued);
      var problems := ValidateDocument(cfg, doc, url);
      if problems != [] {
        verdict, done := DisableIfEnabled(url, stored);
        return;
      }
      var keys := JwksContent(doc, stored, now, jwks);
      if keys.None? {
        ExecutedNone(World(), []);
        return Raised, newId, 0;
      }
      var (content, keysFetchedAt, validated) := keys.value;
      var ttl := CacheSeconds(h, cfg.cacheMin, cfg.cacheMax);
      var fingerprint: Option<Fingerprint>;
      if doc.jwksUri.Some? && !validated {
        fingerprint, ttl := stored.value.fingerprint, 0;
        if stored.value.enabled && now - (if keysFetchedAt.Some? then keysFetchedAt.value else 0) > cfg.maxStale {
          verdict, done := DisableIfEnabled(url, stored);
          return;
        }
      } else {
        fingerprint := Some(Fingerprint(doc.jwks, doc.jwksUri, content));
      }
      var noStore := ForbidsStorage(h);
      var row := Row("", doc.clientName, doc.redirectUris, if noStore then None else h.etag,
                     now, now + ttl, fingerprint,
                     if noStore then None else content, keysFetchedAt, true, None);
      verdict, newId, done := Commit(url, force, now, response, jwks, stored, row,
                                     if validated then Validated else Unconfirmed);
    }

    /** _reconcile_url: one visit, cut off wherever a call raised. */
    method ReconcileUrl(url: string, force: bool, now: int, response: Response<Document>, jwks: Response<string>)
      returns (verdict: Verdict, ghost step: Step)
      requires Settled(World())
      modifies store`failures, cognito`failures, cognito`branded
      modifies store`clients, store`index, cognito`apps, cognito`issued, cognito`pending, cognito`orphans
      ensures step.Visited? && step.v == VisitOf(url, force, now, response, jwks, step.v.newId)
      ensures Valid(old(World()), step) && World() == Do(old(World()), step)
      ensures verdict != Raised ==> Complete(old(World()), step) && verdict == PlanOf(old(World()), step.v).verdict
      ensures RaisedFor(PlanOf(old(World()), step.v), verdict)
      ensures verdict != Raised ==> HasPage(PlanOf(old(World()), step.v))
      ensures verdict != Raised && Skipped(Stored(old(World()), url), step.v) ==>
        Stored(old(World()), url).value.id in cognito.branded
    {
      ghost var newId, done;
      verdict, newId, done := VisitUrl(url, force, now, response, jwks);
      step := Visited(VisitOf(url, force, now, response, jwks, newId), done);
      Forget();
    }

    /** The invocation forgets an app client it could not write down. */
    ghost method Forget()
      modifies cognito`pending, cognito`orphans
      ensures World() == Apply(old(World()), Abandon)
    {
      cognito.orphans := cognito.orphans + if cognito.pending.Some? then {cognito.pending.value} else {};
      cognito.pending := None;
    }

    method VisitUrl(url: string, force: bool, now: int, response: Response<Document>, jwks: Response<string>)
      returns (verdict: Verdict, ghost newId: Id, ghost done: nat)
      modifies store`failures, cognito`failures, cognito`branded
      modifies store`clients, store`index, cognito`apps, cognito`issued, cognito`pending
      ensures newId !in old(cognito.issued) && newId != ""
      ensures Follows(React(Stored(old(World()), url), Alive(old(World()), url),
                            VisitOf(url, force, now, response, jwks, newId)),
                      verdict, done)
      ensures Skipped(Stored(old(World()), url), VisitOf(url, force, now, response, jwks, newId)) ==>
        verdict != Raised ==> Stored(old(World()), url).value.id in cognito.branded
    {
      hide Reaction.OnDocument, OnUnmodified, Disable, CimdUrl.AcceptableUrl, Executed;
      newId := Cognito.FreshIdExists(cognito.issued);
      done := 0;
      ExecutedNone(World(), React(Stored(World(), url), Alive(World(), url),
                                  VisitOf(url, force, now, response, jwks, newId)).effects);
      if !CimdUrl.AcceptableUrl(url, cfg.hostRule) { return Raised, newId, 0; }
      var ok, stored := store.GetClient(url);
      if !ok { return Raised, newId, 0; }
      if stored.Some? && stored.value.enabled && !force && now < stored.value.cacheUntil {
        ok := cognito.EnsureBranding(stored.value.id);
        return if ok then Unconfirmed else Raised, newId, 0;
      }
      match Interpret(response, if stored.Some? then stored.value.etag else None)
      case Failed =>
        if stored.Some? && now - stored.value.fetchedAt > cfg.maxStale {
          verdict, done := DisableIfEnabled(url, stored);
        } else {
          verdict := Unconfirmed;
        }
      case Unmodified(h) =>
        verdict, done := NotModified(url, force, now, response, jwks, newId, stored.value, h);
      case Loaded(doc, h) =>
        verdict, newId, done := OnDocument(url, force, now, response, jwks, stored, doc, h);
    }

    // ---- the sweeps at the end of a run

    ghost predicate Retires(steps: seq<Step>, now: int) {
      forall i | 0 <= i < |steps| :: steps[i].Retire? && steps[i].cfg == cfg && steps[i].now == now
    }

    ghost predicate Purges(steps: seq<Step>, now: int) {
      forall i | 0 <= i < |steps| :: steps[i].Purge? && steps[i].now == now
    }

    /** One row of _retire_removed. */
    method RetireRow(url: string, row: Row, now: int) returns (ok: bool, ghost steps: seq<Step>)
      requires Settled(World()) && url in store.clients && store.clients[url] == row
      modifies store`failures, cognito`failures
      modifies store`clients, store`index
      ensures ValidRun(old(World()), steps) && World() == DoAll(old(World()), steps)
      ensures Retires(steps, now)
      ensures Blamed(ok)
      ensures ok ==> World() == RetiredRow(old(World()), url, now)
    {
      hide Inv, PutRows;
      ok, steps := true, [];
      ghost var s := World();
      if url in cfg.allowed || RETIRED <= url || FIXTURE <= url { return; }
      if row.enabled {
        ghost var applied;
        ok, applied := store.SetEnabled(url, row, false, Some(now + cfg.accessSeconds));
        ghost var step := Retire(cfg, url, now, if applied then 1 else 0);
        L.RetireIteration(s, cfg, url, now);
        AppendStep(s, [], step);
        steps := [step];
        assert [] + [step] == [step];
      }
    }

    ghost function RetiredRow(s: State, url: string, now: int): State
      requires url in s.table.clients
    {
      if L.Leaves(cfg, url, s.table.clients[url])
      then s.(table := PutRows(s.table, url, Disabled(s.table.clients[url], Some(now + cfg.accessSeconds)), None))
      else s
    }

    ghost function Retired(s: State, now: int, urls: set<string>): State {
      s.(table := L.RetireSome(s.table, cfg, now, urls))
    }

    /** _retire_removed: a cut-off sweep is some steps; a finished one is RetireSome over the whole table. */
    method RetireRemoved(now: int) returns (ok: bool, ghost steps: seq<Step>)
      requires Settled(World())
      modifies store`failures, cognito`failures
      modifies store`clients, store`index
      ensures ValidRun(old(World()), steps) && World() == DoAll(old(World()), steps)
      ensures Retires(steps, now)
      ensures Blamed(ok)
      ensures ok ==> World() == Retired(old(World()), now, old(store.clients).Keys)
    {
      hide Settled, DoAll, ValidRun, L.RetireSome, PutRows, L.Leaves;
      ghost var s := World();
      steps := [];
      EmptyRun(s);
      var rows;
      ok, rows := store.ListClients();
      if !ok { return; }
      L.RetireNone(s.table, cfg, now);
      assert Store.Urls(rows[..0]) == {};
      for i := 0 to |rows|
        invariant ok && Failures() == old(Failures())
        invariant ValidRun(s, steps) && World() == DoAll(s, steps) && Retires(steps, now)
        invariant World() == Retired(s, now, Store.Urls(rows[..i]))
      {
        var (url, row) := rows[i];
        ghost var more;
        RetireOne(s, now, rows, i);
        RunsKeepSettled(s, steps);
        ok, more := RetireRow(url, row, now);
        AppendRun(s, steps, more);
        steps := steps + more;
        if !ok { return; }
      }
      assert rows[..|rows|] == rows;
    }

    lemma RetireOne(s: State, now: int, rows: seq<(string, Row)>, i: nat)
      requires Settled(s) && i < |rows| && Store.Listing(s.table.clients, s.table.clients.Keys, rows)
      ensures var (url, row) := rows[i]; var m := Retired(s, now, Store.Urls(rows[..i]));
        && url in m.table.clients && m.table.clients[url] == row
        && RetiredRow(m, url, now) == Retired(s, now, Store.Urls(rows[..i + 1]))
    {
      hide L.RetireSome, PutRows, L.Leaves, RowOk, AppsAccounted, Bijection;
      assert rows[..i + 1] == rows[..i] + [rows[i]];
      Store.UrlsAppend(rows[..i], rows[i]);
      L.RetireNext(s.table, cfg, now, Store.Urls(rows[..i]), rows[i].0);
    }

    /** Branding, then the app client itself. */
    method DeleteApp(id: Id) returns (ok: bool, ghost applied: bool)
      modifies cognito`failures, cognito`branded, cognito`apps
      ensures Blamed(ok) && (ok ==> applied && id !in cognito.branded)
      ensures cognito.apps == if applied then old(cognito.apps) - {id} else old(cognito.apps)
    {
      ok := cognito.DeleteBranding(id);
      applied := false;
      if ok { ok, applied := cognito.DeleteClient(id); }
    }

    /** _hard_delete: branding and app client first, then both rows. */
    method HardDelete(url: string, row: Row) returns (ok: bool, ghost done: nat)
      requires Settled(World()) && url in store.clients && store.clients[url] == row
      modifies store`failures, cognito`failures, cognito`branded
      modifies store`clients, store`index, cognito`apps
      ensures Blamed(ok) && done <= 2 && (ok ==> done == 2 && row.id !in cognito.branded)
      ensures World() == Do(old(World()), Erase(url, done))
    {
      ghost var s := World();
      L.DeleteIteration(s, url);
      RowIsNoFixture(s, url);
      hide Settled, Inv, DeleteRows, Do, Valid;
      done := 0;
      if row.id != "" && !(FIXTURE <= url) {
        ghost var applied;
        ok, applied := DeleteApp(row.id);
        done := if applied then 1 else 0;
        if !ok { return; }
      }
      ghost var applied;
      ok, applied := store.DeleteClientRows(url, row.id);
      done := if applied then 2 else 1;
    }

    /** One row of _purge_expired. */
    method PurgeRow(url: string, row: Row, now: int) returns (ok: bool, ghost steps: seq<Step>)
      requires Settled(World()) && url in store.clients && store.clients[url] == row
      modifies store`failures, cognito`failures, cognito`branded
      modifies store`clients, store`index, cognito`apps
      ensures ValidRun(old(World()), steps) && World() == DoAll(old(World()), steps)
      ensures Purges(steps, now)
      ensures Blamed(ok)
      ensures ok ==> World() == L.PurgedRow(old(World()), url, now)
    {
      hide Inv, DeleteRows, Do, RetiredUrl;
      ok, steps := true, [];
      ghost var s := World();
      if !row.enabled && row.deleteAfter.Some? && row.deleteAfter.value <= now {
        ghost var done;
        ok, done := HardDelete(url, row);
        L.DeleteIteration(s, url);
        L.PurgeIteration(s, url, now, done);
        AppendStep(s, [], Purge(url, now, done));
        steps := [Purge(url, now, done)];
        assert [] + [Purge(url, now, done)] == steps;
      }
    }

    /**
      _purge_expired: a cut-off sweep is some steps; a finished one deletes exactly the expired rows
      and their app clients.
      */
    method PurgeExpired(now: int) returns (ok: bool, ghost steps: seq<Step>)
      requires Settled(World())
      modifies store`failures, cognito`failures, cognito`branded
      modifies store`clients, store`index, cognito`apps
      ensures ValidRun(old(World()), steps) && World() == DoAll(old(World()), steps)
      ensures Purges(steps, now)
      ensures Blamed(ok)
      ensures ok ==> World() == L.Purged(old(World()), now, old(store.clients).Keys)
    {
      hide Settled, DoAll, ValidRun, L.Purged, L.PurgedRow;
      ghost var s := World();
      steps := [];
      EmptyRun(s);
      var rows;
      ok, rows := store.ListClients();
      if !ok { return; }
      L.PurgedNone(s, now);
      assert Store.Urls(rows[..0]) == {};
      for i := 0 to |rows|
        invariant ok && Failures() == old(Failures())
        invariant ValidRun(s, steps) && World() == DoAll(s, steps) && Purges(steps, now)
        invariant World() == L.Purged(s, now, Store.Urls(rows[..i]))
      {
        var (url, row) := rows[i];
        ghost var more;
        PurgeOne(s, now, rows, i);
        RunsKeepSettled(s, steps);
        ok, more := PurgeRow(url, row, now);
        AppendRun(s, steps, more);
        steps := steps + more;
        if !ok { return; }
      }
      assert rows[..|rows|] == rows;
    }

    lemma PurgeOne(s: State, now: int, rows: seq<(string, Row)>, i: nat)
      requires Settled(s) && i < |rows| && Store.Listing(s.table.clients, s.table.clients.Keys, rows)
      ensures var (url, row) := rows[i]; var m := L.Purged(s, now, Store.Urls(rows[..i]));
        && url in m.table.clients && m.table.clients[url] == row
        && L.PurgedRow(m, url, now) == L.Purged(s, now, Store.Urls(rows[..i + 1]))
    {
      hide L.Purged, L.PurgedRow, RowOk, AppsAccounted, Bijection;
      assert rows[..i + 1] == rows[..i] + [rows[i]];
      Store.UrlsAppend(rows[..i], rows[i]);
      L.PurgedNext(s, now, Store.Urls(rows[..i]), rows[i].0);
    }

    // ---- public operations

    /** One answer of the outside world per listed URL: the clock and the two fetches. */
    ghost function Times(answers: seq<Answers>): seq<(string, int)>
      requires |answers| <= |cfg.allowed|
    {
      seq(|answers|, i requires 0 <= i < |answers| => (cfg.allowed[i], answers[i].now))
    }

    ghost predicate BoundsOk() { cfg.cacheMin <= cfg.cacheMax <= cfg.maxStale }

    /** The step is the visit of the URL with these answers; it is complete and as planned unless it raised. */
    ghost predicate VisitOk(s: State, step: Step, url: string, force: bool, a: Answers, verdict: Verdict) {
      && step.Visited? && step.v == VisitOf(url, force, a.now, a.doc, a.jwks, step.v.newId)
      && (verdict != Raised ==> Complete(s, step) && verdict == PlanOf(s, step.v).verdict)
    }

    /** One visit after another, in the order of the list. */
    ghost predicate LoopOk(s: State, steps: seq<Step>, force: bool, answers: seq<Answers>, verdicts: seq<Verdict>) {
      && |steps| == |verdicts| == |answers| <= |cfg.allowed|
      && forall i | 0 <= i < |steps| ::
           VisitOk(DoAll(s, steps[..i]), steps[i], cfg.allowed[i], force, answers[i], verdicts[i])
    }

    /** Some visit raised although its plan does not say so. */
    ghost predicate CutShort(s: State, steps: seq<Step>, verdicts: seq<Verdict>) {
      |steps| == |verdicts| &&
      exists i :: 0 <= i < |steps| && steps[i].Visited? && verdicts[i] == Raised
                  && PlanOf(DoAll(s, steps[..i]), steps[i].v).verdict != Raised
    }

    /** The listed URLs whose visit did not raise. */
    ghost function Ended(verdicts: seq<Verdict>): set<string>
      requires |verdicts| <= |cfg.allowed|
    {
      set i | 0 <= i < |verdicts| && verdicts[i] != Raised :: cfg.allowed[i]
    }

    /**
      The loop of run over the allow-list: every listed URL is visited, whether or not the visits
      before it raised, and every URL whose visit did not raise is served within the bound.
      */
    method ReconcileAll(force: bool, answers: seq<Answers>) returns (verdicts: seq<Verdict>, ghost steps: seq<Step>)
      requires Settled(World()) && |answers| == |cfg.allowed|
      modifies store`failures, cognito`failures, cognito`branded
      modifies store`clients, store`index, cognito`apps, cognito`issued, cognito`pending, cognito`orphans
      ensures ValidRun(old(World()), steps) && World() == DoAll(old(World()), steps)
      ensures LoopOk(old(World()), steps, force, answers, verdicts)
      ensures Failures() >= old(Failures())
      ensures CutShort(old(World()), steps, verdicts) ==> Failures() > old(Failures())
      ensures BoundsOk() ==> St.Tempered(steps, cfg.maxStale)
      ensures BoundsOk() && St.Capped(old(World()), cfg.maxStale) ==>
        St.Served(World(), Ended(verdicts), Times(answers), cfg.maxStale)
    {
      hide Settled, DoAll, ValidRun, St.Capped, St.Served, Valid, Do, PlanOf, Complete, CutShort, LoopOk;
      ghost var s := World();
      verdicts, steps := [], [];
      EmptyRun(s);
      St.NothingVisited(s, cfg.maxStale);
      NoVisits(s, force, answers);
      for i := 0 to |cfg.allowed|
        invariant ValidRun(s, steps) && World() == DoAll(s, steps) && |verdicts| == i
        invariant LoopOk(s, steps, force, answers[..i], verdicts)
        invariant Failures() >= old(Failures()) && (CutShort(s, steps, verdicts) ==> Failures() > old(Failures()))
        invariant BoundsOk() ==> St.Tempered(steps, cfg.maxStale)
        invariant BoundsOk() && St.Capped(s, cfg.maxStale) ==>
          St.Served(World(), Ended(verdicts), Times(answers[..i]), cfg.maxStale)
      {
        ghost var m := World();
        RunsKeepSettled(s, steps);
        var verdict;
        ghost var step;
        verdict, step := ReconcileUrl(cfg.allowed[i], force, answers[i].now, answers[i].doc, answers[i].jwks);
        if BoundsOk() && St.Capped(s, cfg.maxStale) {
          St.RunsKeepCapped(s, steps, cfg.maxStale);
          St.VisitKeepsServed(m, step, Ended(verdicts), Times(answers[..i]), verdict != Raised);
        }
        AppendStep(s, steps, step);
        OneMoreVisit(s, steps, step, force, answers, verdicts, verdict);
        steps, verdicts := steps + [step], verdicts + [verdict];
      }
      assert answers[..|answers|] == answers;
    }

    lemma LoopLength(s: State, steps: seq<Step>, force: bool, answers: seq<Answers>, verdicts: seq<Verdict>)
      requires LoopOk(s, steps, force, answers, verdicts)
      ensures |steps| == |verdicts| == |answers|
    {}

    lemma NoVisits(s: State, force: bool, answers: seq<Answers>)
      ensures LoopOk(s, [], force, answers[..0], []) && !CutShort(s, [], [])
      ensures Times(answers[..0]) == [] && Ended([]) == {}
    {}

    lemma OneMoreVisit(s: State, steps: seq<Step>, step: Step, force: bool, answers: seq<Answers>,
                       verdicts: seq<Verdict>, verdict: Verdict)
      requires |verdicts| < |answers| <= |cfg.allowed| && LoopOk(s, steps, force, answers[..|verdicts|], verdicts)
      requires var i := |verdicts|;
        VisitOk(DoAll(s, steps), step, cfg.allowed[i], force, answers[i], verdict)
      ensures var i := |verdicts|;
        && LoopOk(s, steps + [step], force, answers[..i + 1], verdicts + [verdict])
        && Times(answers[..i + 1]) == Times(answers[..i]) + [(step.v.url, step.v.now)]
        && Ended(verdicts + [verdict]) == Ended(verdicts) + if verdict != Raised then {step.v.url} else {}
      ensures CutShort(s, steps + [step], verdicts + [verdict]) <==>
        CutShort(s, steps, verdicts) || (verdict == Raised && PlanOf(DoAll(s, steps), step.v).verdict != Raised)
    {
      hide DoAll, PlanOf, Complete;
      var n, more, all := |verdicts|, steps + [step], verdicts + [verdict];
      forall i | 0 <= i < n ensures more[..i] == steps[..i] && more[i] == steps[i] && all[i] == verdicts[i] {}
      assert more[..n] == steps && more[n] == step && all[n] == verdict;
      assert forall u :: u in Ended(all) <==> u in Ended(verdicts) || (u == cfg.allowed[n] && verdict != Raised);
    }

    /** The record of a run: the visits of the listed URLs, then retirements, then purges. */
    ghost predicate RunRecord(s: State, steps: seq<Step>, force: bool, answers: seq<Answers>, verdicts: seq<Verdict>,
                              retireAt: int, purgeAt: int)
    {
      && |answers| == |cfg.allowed| <= |steps|
      && LoopOk(s, steps[..|cfg.allowed|], force, answers, verdicts)
      && Swept(steps[|cfg.allowed|..], retireAt, purgeAt)
    }

    ghost predicate Swept(steps: seq<Step>, retireAt: int, purgeAt: int) {
      exists k :: 0 <= k <= |steps| && Retires(steps[..k], retireAt) && Purges(steps[k..], purgeAt)
    }

    /** No row is past its deletion time, and every enabled one is listed. */
    ghost predicate Clean(purgeAt: int)
      reads store`clients
    {
      forall u | u in store.clients ::
        !Expired(store.clients[u], purgeAt) && (store.clients[u].enabled ==> u in cfg.allowed)
    }

    /** What is known of the enabled rows whose visit did not raise. */
    ghost predicate Confirmed(steps: seq<Step>, answers: seq<Answers>, verdicts: seq<Verdict>)
      requires |verdicts| == |answers| == |cfg.allowed|
      reads store`clients
    {
      forall u | u in store.clients && store.clients[u].enabled && u in Ended(verdicts) ::
        St.ConfirmedRecently(steps, Times(answers), u, store.clients[u], cfg.maxStale)
    }

    /**
      run, after any history. Its record begins with one visit of every listed URL, whatever raises.
      When the sweeps end, every enabled row is listed and no row is past its deletion time; and a
      row whose visit did not raise was confirmed, by a visit on record, as recently as the bound
      says. What it needs of earlier bounds holds of its own, so runs can follow each other.
      */
    method Run(force: bool, answers: seq<Answers>, retireAt: int, purgeAt: int, ghost past: seq<Step>)
      returns (ok: bool, verdicts: seq<Verdict>, ghost steps: seq<Step>)
      requires ValidRun(EMPTY, past) && World() == DoAll(EMPTY, past) && |answers| == |cfg.allowed|
      modifies store`failures, cognito`failures, cognito`branded
      modifies store`clients, store`index, cognito`apps, cognito`issued, cognito`pending, cognito`orphans
      ensures ValidRun(EMPTY, past + steps) && World() == DoAll(EMPTY, past + steps)
      ensures RunRecord(DoAll(EMPTY, past), steps, force, answers, verdicts, retireAt, purgeAt)
      ensures Failures() >= old(Failures())
      ensures !ok || CutShort(DoAll(EMPTY, past), steps[..|answers|], verdicts) ==> Failures() > old(Failures())
      ensures BoundsOk() && St.Tempered(past, cfg.maxStale) ==>
        St.Tempered(past + steps, cfg.maxStale) && St.Capped(World(), cfg.maxStale)
      ensures ok ==> Clean(purgeAt)
      ensures ok && BoundsOk() && St.Tempered(past, cfg.maxStale) ==> Confirmed(past + steps, answers, verdicts)
    {
      hide Settled, DoAll, ValidRun, St.Capped, St.Tempered, L.Purged, Expired, St.VisitedRecently,
        St.ConfirmedRecently, LoopOk, CutShort, Retires, Purges, Swept, Ended;
      ghost var s := World();
      ghost var visits, more, last;
      ReachableIsSettled(past);
      verdicts, visits := ReconcileAll(force, answers);
      LoopLength(s, visits, force, answers, verdicts);
      RunsKeepSettled(s, visits);
      ghost var m := World();
      ok, more := RetireRemoved(retireAt);
      AppendRun(s, visits, more);
      steps := visits + more;
      RunsKeepSettled(s, steps);
      NoSweep(steps, purgeAt);
      Recorded(past, s, visits, more, [], retireAt, purgeAt);
      if !ok { return; }
      ok, last := PurgeExpired(purgeAt);
      AppendRun(s, steps, last);
      Recorded(past, s, visits, more, last, retireAt, purgeAt);
      steps := visits + (more + last);
      if ok {
        AfterSweeps(m, retireAt, purgeAt);
        if BoundsOk() && St.Tempered(past, cfg.maxStale) {
          St.ReachableIsCapped(past, cfg.maxStale);
          forall u | u in store.clients && store.clients[u].enabled && u in Ended(verdicts)
            ensures St.ConfirmedRecently(past + steps, Times(answers), u, store.clients[u], cfg.maxStale)
          {
            ServedIsVisited(m, answers, verdicts, u);
            St.TemperedIsOrdered(past + steps, cfg.maxStale);
            St.RecentlyConfirmed(past + steps, Times(answers), u, cfg.maxStale);
          }
        }
      }
    }

    lemma NoSweep(steps: seq<Step>, now: int)
      ensures steps + [] == steps && Purges([], now)
    {}

    /** The record after a loop of visits and the sweeps. */
    lemma Recorded(past: seq<Step>, s: State, visits: seq<Step>, more: seq<Step>, last: seq<Step>,
                   retireAt: int, purgeAt: int)
      requires ValidRun(EMPTY, past) && s == DoAll(EMPTY, past) && ValidRun(s, visits + more + last)
      requires Retires(more, retireAt) && Purges(last, purgeAt)
      ensures visits + more + last == visits + (more + last) && (last == [] ==> more + last == more)
      ensures ValidRun(EMPTY, past + (visits + (more + last)))
      ensures DoAll(EMPTY, past + (visits + (more + last))) == DoAll(s, visits + (more + last))
      ensures var steps := visits + (more + last);
        steps[..|visits|] == visits && steps[|visits|..] == more + last && Swept(more + last, retireAt, purgeAt)
      ensures St.Tempered(past, cfg.maxStale) && St.Tempered(visits, cfg.maxStale) ==>
        St.Tempered(past + (visits + (more + last)), cfg.maxStale)
        && St.Capped(DoAll(EMPTY, past + (visits + (more + last))), cfg.maxStale)
    {
      var sweeps := more + last;
      assert visits + more + last == visits + sweeps;
      assert sweeps[..|more|] == more && sweeps[|more|..] == last;
      AppendRun(EMPTY, past, visits + sweeps);
      assert St.Idle(sweeps);
      hide St.Tempered, St.Capped, St.Idle, DoAll, ValidRun, Retires, Purges;
      St.TemperedAppend(sweeps, [], cfg.maxStale);
      St.TemperedAppend(visits, sweeps, cfg.maxStale);
      St.TemperedAppend(past, visits + sweeps, cfg.maxStale);
      if St.Tempered(past + (visits + sweeps), cfg.maxStale) {
        St.ReachableIsCapped(past + (visits + sweeps), cfg.maxStale);
      }
    }

    /** What is served is recent. */
    lemma ServedIsVisited(m: State, answers: seq<Answers>, verdicts: seq<Verdict>, u: string)
      requires |verdicts| == |answers| == |cfg.allowed|
      requires St.Served(m, Ended(verdicts), Times(answers), cfg.maxStale)
      requires u in Ended(verdicts) && u in m.table.clients && m.table.clients[u].enabled && CimdUrl.IsWeb(u)
      ensures St.VisitedRecently(Times(answers), u, m.table.clients[u], cfg.maxStale)
    {
      hide CimdUrl.IsWeb, St.VisitedRecently;
    }

    lemma AfterSweeps(m: State, retireAt: int, purgeAt: int)
      requires Settled(m)
      ensures
        var r := Retired(m, retireAt, m.table.clients.Keys);
        var t := L.Purged(r, purgeAt, r.table.clients.Keys).table;
        && (forall u | u in t.clients :: !Expired(t.clients[u], purgeAt))
        && (forall u | u in t.clients && t.clients[u].enabled ::
              u in cfg.allowed && u in m.table.clients && t.clients[u] == m.table.clients[u] && CimdUrl.IsWeb(u))
    {
      var r := Retired(m, retireAt, m.table.clients.Keys);
      var t := L.Purged(r, purgeAt, r.table.clients.Keys).table;
      assert t == L.Sweep(m.table, cfg, retireAt, purgeAt);
      hide L.Sweep, CimdUrl.IsWeb, Expired, Bijection, AppsAccounted, L.Swept;
      forall u | u in t.clients
        ensures !Expired(t.clients[u], purgeAt)
        ensures t.clients[u].enabled ==>
          u in cfg.allowed && u in m.table.clients && t.clients[u] == m.table.clients[u] && CimdUrl.IsWeb(u)
      {
        L.SweepIsPerRow(m.table, cfg, retireAt, purgeAt, u);
        var row := m.table.clients[u];
        assert RowOk(u, row);
        L.SweptCases(cfg, u, row, retireAt, purgeAt);
        RowIsListable(m, u);
      }
    }

    lemma EraseOne(clients: map<string, Row>, rows: seq<(string, Row)>, i: nat)
      requires i < |rows| && Store.Listing(clients, clients.Keys, rows)
      ensures var (url, row) := rows[i]; var left := clients - Store.Urls(rows[..i]);
        url in left && left[url] == row && left - {url} == clients - Store.Urls(rows[..i + 1])
    {
      assert rows[..i + 1] == rows[..i] + [rows[i]];
      Store.UrlsAppend(rows[..i], rows[i]);
    }

    lemma ListedAll(clients: map<string, Row>, rows: seq<(string, Row)>)
      requires Store.Listing(clients, clients.Keys, rows)
      ensures Store.Urls(rows[..0]) == {} && clients - Store.Urls(rows[..0]) == clients
        && clients - Store.Urls(rows[..|rows|]) == map[]
    {
      assert rows[..|rows|] == rows;
    }

    ghost predicate Erases(steps: seq<Step>) { forall i | 0 <= i < |steps| :: steps[i].Erase? }

    /** delete_all: when nothing raised, no row is left. */
    method DeleteAll() returns (ok: bool, ghost steps: seq<Step>)
      requires Settled(World())
      modifies store`failures, cognito`failures, cognito`branded
      modifies store`clients, store`index, cognito`apps
      ensures ValidRun(old(World()), steps) && World() == DoAll(old(World()), steps)
      ensures Blamed(ok)
      ensures Erases(steps) && (ok ==> store.Rows() == EMPTY.table)
      ensures St.Capped(old(World()), cfg.maxStale) ==> St.Capped(World(), cfg.maxStale)
    {
      hide Settled, DoAll, ValidRun, Do, Valid, St.Capped;
      ghost var s := World();
      steps := [];
      EmptyRun(s);
      var rows;
      ok, rows := store.ListClients();
      if !ok { return; }
      ListedAll(s.table.clients, rows);
      hide Store.Urls, Store.Listing;
      for i := 0 to |rows|
        invariant ok && Failures() == old(Failures()) && Erases(steps)
        invariant ValidRun(s, steps) && World() == DoAll(s, steps)
        invariant St.Capped(s, cfg.maxStale) ==> St.Capped(World(), cfg.maxStale)
        invariant store.clients == s.table.clients - Store.Urls(rows[..i])
      {
        var (url, row) := rows[i];
        ghost var done;
        ghost var m := World();
        EraseOne(s.table.clients, rows, i);
        RunsKeepSettled(s, steps);
        ok, done := HardDelete(url, row);
        L.DeleteIteration(m, url);
        if St.Capped(m, cfg.maxStale) { St.StepKeepsCapped(m, Erase(url, done), cfg.maxStale); }
        AppendStep(s, steps, Erase(url, done));
        steps := steps + [Erase(url, done)];
        if !ok { return; }
      }
      RunsKeepSettled(s, steps);
      NoRowsNoIndex(World());
    }

    /** revalidate_one: fresh only if this very visit confirmed the document and the row is enabled afterwards. */
    method RevalidateOne(url: string, answers: Answers)
      returns (reply: Option<Revalidation>, ghost step: Option<Step>, ghost raised: bool)
      requires Settled(World())
      modifies store`failures, cognito`failures, cognito`branded
      modifies store`clients, store`index, cognito`apps, cognito`issued, cognito`pending, cognito`orphans
      ensures url !in cfg.allowed ==> reply == Some(NotAllowed) && step.None? && World() == old(World())
      ensures url in cfg.allowed ==>
        && step.Some? && step.value.Visited? && Valid(old(World()), step.value)
        && World() == Do(old(World()), step.value)
        && step.value.v == VisitOf(url, true, answers.now, answers.doc, answers.jwks, step.value.v.newId)
      ensures Failures() >= old(Failures()) && (reply.None? ==> Failures() > old(Failures()))
      ensures url in cfg.allowed && raised ==>
        Failures() > old(Failures()) || PlanOf(old(World()), step.value.v).verdict == Raised
      ensures url in cfg.allowed && reply.Some? ==>
        reply.value.Reconciled? && RevalidationOk(old(World()), step.value, raised, reply.value)
      ensures BoundsOk() && St.Capped(old(World()), cfg.maxStale) ==> St.Capped(World(), cfg.maxStale)
    {
      hide Settled, Valid, Do, PlanOf, Complete, St.Capped;
      ghost var s := World();
      if url !in cfg.allowed { return Some(NotAllowed), None, false; }
      var verdict;
      ghost var visit;
      verdict, visit := ReconcileUrl(url, true, answers.now, answers.doc, answers.jwks);
      step, raised := Some(visit), verdict == Raised;
      if BoundsOk() && St.Capped(s, cfg.maxStale) { St.StepKeepsCapped(s, visit, cfg.maxStale); }
      var ok, row := store.GetClient(url);
      if !ok { return None, step, true; }
      var enabled := row.Some? && row.value.enabled;
      reply := Some(Reconciled(verdict == Validated && enabled, enabled));
    }
  }

  datatype Revalidation = NotAllowed | Reconciled(confirmed: bool, enabled: bool)

  /** What a completed revalidation may report about the step it made. */
  predicate RevalidationOk(s: State, step: Step, raised: bool, reply: Revalidation) {
    step.Visited? && reply.Reconciled? &&
    var row := Stored(Do(s, step), step.v.url);
    && (reply.enabled <==> row.Some? && row.value.enabled)
    && (reply.confirmed ==> !raised)
    && (!raised ==> Complete(s, step) && (reply.confirmed <==> reply.enabled && PlanOf(s, step.v).verdict == Validated))
  }

  lemma NoRowsNoIndex(s: State)
    requires Settled(s) && s.table.clients == map[]
    ensures s.table == EMPTY.table
  {
    assert s.table.index == map[];
  }

  lemma RowIsListable(s: State, url: string)
    requires Inv(s) && url in s.table.clients
    ensures s.table.clients[url].enabled ==> CimdUrl.IsWeb(url) && !(RETIRED <= url) && !(FIXTURE <= url)
  {
    assert RowOk(url, s.table.clients[url]);
  }

  lemma RowIsNoFixture(s: State, url: string)
    requires Inv(s) && url in s.table.clients
    ensures s.table.clients[url].id != "" && !(FIXTURE <= url)
  {
    assert RowOk(url, s.table.clients[url]);
    RetiredIsNotWeb(s.table.clients[url].id);
  }

  lemma EmptyRun(s: State)
    ensures ValidRun(s, []) && DoAll(s, []) == s
  {}
}
