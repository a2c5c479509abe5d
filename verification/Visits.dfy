/** What one step does to the table, row by row. */
module Visits {
  import opened Wrappers
  import opened Registry
  import opened Reaction
  import opened Steps
  import opened Runs
  import CimdUrl
  import Fetcher

  // ---- the row a visit writes

  /** The answers of a visit carry a valid document and all the key material it declares. */
  predicate KeysValidated(v: Visit) {
    var f := Fetcher.Interpret(v.doc, None);
    f.Loaded? && DocumentOk(v.cfg, f.document, v.url) && KeysAnswered(f.document, v.jwks)
  }

  predicate Disables(stored: Option<Row>, v: Visit, row: Row) {
    stored.Some? && stored.value.enabled && row == Disabled(stored.value, None) && !KeysValidated(v)
  }

  /** 304, and the stored redirect URIs still satisfy the current rules. */
  predicate Extends(stored: Option<Row>, v: Visit, row: Row) {
    var a := Answer(stored, v);
    stored.Some? && a.Unmodified? && UrisOk(v.cfg, stored.value.redirectUris)
      && row == Extended(stored.value, v, a.headers)
  }

  /** 200 with a valid document and its key material validated. */
  predicate Renews(stored: Option<Row>, v: Visit, row: Row) {
    var a := Answer(stored, v);
    a.Loaded? && DocumentOk(v.cfg, a.document, v.url) && KeysAnswered(a.document, v.jwks)
    && row == FreshRow(v, a.document, a.headers, row.id)
  }

  /** 200 with a valid document whose declared keys could not be fetched. */
  predicate Stales(stored: Option<Row>, v: Visit, row: Row) {
    var a := Answer(stored, v);
    stored.Some? && a.Loaded? && DocumentOk(v.cfg, a.document, v.url) && !KeysAnswered(a.document, v.jwks)
    && !KeysTooOld(stored.value, v) && row == StaleRow(stored.value, v, a.document, a.headers, row.id)
  }

  function Last(effects: seq<Effect>): Effect
    requires effects != []
  {
    effects[|effects| - 1]
  }

  /** The two kinds of row after which a client may be authorized at once. */
  predicate Confirms(stored: Option<Row>, v: Visit, row: Row) {
    (Extends(stored, v, row) && row.enabled) || Renews(stored, v, row)
  }

  predicate WritesKnownRow(stored: Option<Row>, v: Visit, e: Effect) {
    && e.Put? && e.url == v.url
    && (Disables(stored, v, e.row) || Extends(stored, v, e.row) || Renews(stored, v, e.row) || Stales(stored, v, e.row))
  }

  lemma SameDocument(stored: Option<Row>, v: Visit)
    ensures var f := Fetcher.Interpret(v.doc, None); var a := Answer(stored, v);
      (f.Loaded? <==> a.Loaded?) && (f.Loaded? ==> f.document == a.document && f.headers == a.headers)
  {}

  /** Whichever app client it gets, the row is committed as it was made. */
  lemma CommitRow(stored: Option<Row>, alive: bool, v: Visit, row: Row, verdict: Verdict)
    ensures var p := Commit(stored, alive, v, row, verdict);
      && p.effects != [] && Last(p.effects).Put? && Last(p.effects).url == v.url
      && Last(p.effects).row == row.(id := Last(p.effects).row.id)
      && (p.verdict == verdict
          || (p.verdict == Validated && stored.Some? && stored.value.fingerprint.Some?
              && stored.value.fingerprint != row.fingerprint))
  {}

  lemma DocumentRow(stored: Option<Row>, alive: bool, v: Visit)
    requires Answer(stored, v).Loaded?
    ensures var a := Answer(stored, v); var p := OnDocument(stored, alive, v, a.document, a.headers);
      && (p.effects != [] ==> WritesKnownRow(stored, v, Last(p.effects)))
      && (p.verdict == Validated <==> p.effects != [] && Renews(stored, v, Last(p.effects).row))
      && (p.effects == [] ==> stored.None? || !stored.value.enabled)
  {
    SameDocument(stored, v);
    var a := Answer(stored, v);
    CommitRow(stored, alive, v, FreshRow(v, a.document, a.headers, ""), Validated);
    if stored.Some? { CommitRow(stored, alive, v, StaleRow(stored.value, v, a.document, a.headers, ""), Unconfirmed); }
    hide DocumentOk, KeysAnswered, KeysTooOld, FingerprintOf, Answer, Fetcher.Lifetime, Fetcher.Interpret,
      KeysContent, Commit;
  }

  /** Every row a visit writes is one of four kinds, and only two of them confirm the client. */
  lemma PlanRow(stored: Option<Row>, alive: bool, v: Visit)
    ensures var p := React(stored, alive, v);
      && (p.effects != [] ==> WritesKnownRow(stored, v, Last(p.effects)))
      && (p.verdict == Validated <==> p.effects != [] && Confirms(stored, v, Last(p.effects).row))
      && (p.effects == [] && p.verdict != Raised && stored.Some? && stored.value.enabled ==>
            Skipped(stored, v) || !TooStale(stored, v))
  {
    SameDocument(stored, v);
    hide OnDocument, Answer, UrisOk, Renews, Stales, CimdUrl.AcceptableUrl, DocumentOk, Fetcher.Lifetime,
      Fetcher.Interpret;
    var a := Answer(stored, v);
    UnmodifiedNeedsARow(stored, v);
    if a.Loaded? {
      DocumentRow(stored, alive, v);
      NeverExtends(stored, v);
    } else {
      NeverRenews(stored, v);
    }
  }

  lemma UnmodifiedNeedsARow(stored: Option<Row>, v: Visit)
    ensures Answer(stored, v).Unmodified? ==> stored.Some?
  {}

  lemma NeverExtends(stored: Option<Row>, v: Visit)
    requires Answer(stored, v).Loaded?
    ensures forall row :: !Extends(stored, v, row)
  {}

  lemma NeverRenews(stored: Option<Row>, v: Visit)
    requires !Answer(stored, v).Loaded?
    ensures forall row :: !Renews(stored, v, row)
  {}

  /** The row a visit leaves behind when none of its effects is lost. */
  function RowLeft(stored: Option<Row>, alive: bool, v: Visit): Option<Row> {
    var e := React(stored, alive, v).effects;
    if e != [] && Last(e).Put? then Some(Last(e).row) else stored
  }

  // ---- the table after a step

  predicate Committed(s: State, step: Step) { Complete(s, step) && Effects(s, step) != [] }

  function Subject(step: Step): string {
    match step
    case Visited(v, _) => v.url
    case Lost(_, _) => ""
    case _ => step.url
  }

  /** Only the last effect of a step touches the table: a step that is cut off leaves it as it was. */
  function TableAfter(s: State, step: Step): Table {
    if !Committed(s, step) then s.table
    else match Last(Effects(s, step))
      case Put(url, row, retire) => PutRows(s.table, url, row, retire)
      case Drop(url, id) => DeleteRows(s.table, url, id)
      case _ => s.table
  }

  predicate TableLast(e: seq<Effect>) {
    |e| <= 2 && (|e| == 2 ==> !e[0].Put? && !e[0].Drop?)
  }

  lemma EffectsTouchTableLast(s: State, step: Step)
    requires Settled(s)
    ensures TableLast(Effects(s, step))
  {
    hide React, Bijection, AppsAccounted, CimdUrl.IsWeb;
    if step.Visited? {
      PlanShape(Stored(s, step.v.url), Alive(s, step.v.url), step.v);
    }
  }

  lemma CutTable(s: State, e: seq<Effect>, k: nat)
    requires TableLast(e) && k <= |e|
    ensures ApplyAll(s, Cut(e, k)).table == if e == [] || k < |e| then s.table else Apply(s, Last(e)).table
  {
    hide PutRows, DeleteRows, ApplyAll;
    if k == 0 {
      assert Cut(e, 0) == [];
      Run0(s);
    } else if k == 1 {
      Run1(s, e[0]);
      assert Cut(e, 1) == [e[0]];
    } else {
      Run2(s, e[0], e[1]);
      assert Cut(e, 2) == [e[0], e[1]];
    }
  }

  lemma StepTable(s: State, step: Step)
    requires Settled(s) && Valid(s, step)
    ensures Do(s, step).table == TableAfter(s, step)
  {
    hide React, PutRows, DeleteRows, Inv;
    StepIsRun(s, step);
    EffectsTouchTableLast(s, step);
    hide Effects, ApplyAll, Cut;
    CutTable(s, Effects(s, step), step.done);
  }

  /** The row of the step's subject afterwards. */
  function RowAfter(s: State, step: Step): Option<Row> {
    if !Committed(s, step) then Stored(s, Subject(step))
    else match Last(Effects(s, step))
      case Put(_, row, _) => Some(row)
      case Drop(_, _) => None
      case _ => Stored(s, Subject(step))
  }

  /** The stored row's app client is not the one a visit may create. */
  lemma StoredIsOwn(s: State, step: Step)
    requires Settled(s) && Valid(s, step) && step.Visited? && Stored(s, step.v.url).Some?
    ensures var row := Stored(s, step.v.url).value;
      row.id != "" && row.id != step.v.newId && (row.enabled ==> row.deleteAfter.None?) && row.id in s.issued
  {
    var row := Stored(s, step.v.url).value;
    assert RowOk(step.v.url, row) && row.id in s.issued;
    hide Inv, Effects;
  }

  /** The visit read a valid document and wrote its row. */
  predicate WritesDocument(s: State, step: Step) {
    && step.Visited? && Committed(s, step) && RowAfter(s, step).Some?
    && (Renews(Stored(s, step.v.url), step.v, RowAfter(s, step).value)
        || Stales(Stored(s, step.v.url), step.v, RowAfter(s, step).value))
  }

  /** The table write of a step concerns its subject, and the retired:// key of the app client it replaces. */
  predicate WritesSubject(step: Step, e: Effect) {
    match e
    case Put(url, _, _) => url == Subject(step)
    case Drop(url, _) => url == Subject(step)
    case _ => true
  }

  lemma StepWritesSubject(s: State, step: Step)
    ensures Committed(s, step) ==> WritesSubject(step, Last(Effects(s, step)))
  {
    hide React, Disables, Extends, Renews, Stales;
    if step.Visited? {
      PlanRow(Stored(s, step.v.url), Alive(s, step.v.url), step.v);
    }
  }

  /** A step changes no client row but its subject's, and rows under retired:// keys. */
  lemma StepRows(s: State, step: Step, u: string)
    requires Settled(s) && Valid(s, step) && CimdUrl.IsWeb(u)
    ensures Stored(Do(s, step), u) == if u == Subject(step) then RowAfter(s, step) else Stored(s, u)
  {
    hide Valid, Settled, Do, CimdUrl.IsWeb, Effects, Complete;
    StepTable(s, step);
    StepWritesSubject(s, step);
    if Committed(s, step) {
      var e := Last(Effects(s, step));
      if e.Put? && e.retire.Some? { RetiredIsNotWeb(e.retire.value.id); }
    }
  }
}
