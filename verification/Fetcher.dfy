/** What the guarded fetch reports, how long an answer may be cached, and the capped read loop. */
module Fetcher {
  import opened Wrappers

  // ---- Cache-Control

  /** One comma-separated directive, stripped and lower-cased; a malformed max-age carries no number. */
  datatype Directive = NoStore | NoCache | MaxAge(seconds: Option<int>) | Other(mentionsNoStore: bool)

  datatype Headers = Headers(cacheControl: seq<Directive>, etag: Option<string>)

  function LastMaxAge(directives: seq<Directive>, otherwise: int): int {
    if directives == [] then otherwise
    else
      var n := |directives| - 1;
      if directives[n].MaxAge? && directives[n].seconds.Some? then directives[n].seconds.value
      else LastMaxAge(directives[..n], otherwise)
  }

  function Clamp(low: int, x: int, high: int): int {
    var capped := if x < high then x else high;
    if capped < low then low else capped
  }

  /** The lifetime of an answer: nothing under no-store or no-cache, else the last max-age within the bounds. */
  function Lifetime(h: Headers, min: int, max: int): (ttl: int)
    ensures min <= max ==> ttl == 0 || min <= ttl <= max
    ensures NoStore in h.cacheControl || NoCache in h.cacheControl ==> ttl == 0
  {
    if NoStore in h.cacheControl || NoCache in h.cacheControl then 0
    else Clamp(min, LastMaxAge(h.cacheControl, min), max)
  }

  predicate IsAge(d: Directive) { d.MaxAge? && d.seconds.Some? }

  /** The last well-formed max-age is the one that counts. */
  lemma {:induction false} LastMaxAgeIs(directives: seq<Directive>, otherwise: int, i: int)
    requires -1 <= i < |directives| && forall j | i < j < |directives| :: !IsAge(directives[j])
    requires i >= 0 ==> IsAge(directives[i])
    ensures LastMaxAge(directives, otherwise) == if i >= 0 then directives[i].seconds.value else otherwise
    decreases |directives|
  {
    if directives != [] && i < |directives| - 1 { LastMaxAgeIs(directives[..|directives| - 1], otherwise, i); }
  }

  /**
    Without no-store and no-cache an answer may be kept for the seconds of its last well-formed
    max-age, raised to the minimum and cut to the maximum; and for the minimum if it has none.
    */
  lemma LifetimeIs(h: Headers, min: int, max: int, i: int)
    requires min <= max && NoStore !in h.cacheControl && NoCache !in h.cacheControl
    requires -1 <= i < |h.cacheControl| && forall j | i < j < |h.cacheControl| :: !IsAge(h.cacheControl[j])
    requires i >= 0 ==> IsAge(h.cacheControl[i])
    ensures var ttl := Lifetime(h, min, max);
      if i < 0 then ttl == min
      else
        var n := h.cacheControl[i].seconds.value;
        (n < min ==> ttl == min) && (min <= n <= max ==> ttl == n) && (n > max ==> ttl == max)
  {
    LastMaxAgeIs(h.cacheControl, min, i);
  }

  method CacheSeconds(h: Headers, min: int, max: int) returns (ttl: int)
    ensures ttl == Lifetime(h, min, max)
  {
    var directives := h.cacheControl;
    if NoStore in directives || NoCache in directives { return 0; }
    var seconds := min;
    for i := 0 to |directives|
      invariant seconds == LastMaxAge(directives[..i], min)
    {
      assert directives[..i + 1][..i] == directives[..i];
      if directives[i].MaxAge? && directives[i].seconds.Some? {
        seconds := directives[i].seconds.value;
      }
    }
    assert directives[..|directives|] == directives;
    return Clamp(min, seconds, max);
  }

  /** The substring test on the whole header, which also fires on unknown directives containing "no-store". */
  predicate ForbidsStorage(h: Headers) {
    exists d | d in h.cacheControl :: d == NoStore || d == Other(true)
  }

  // ---- the exchange as a whole

  /** What the network did: nothing usable in time, or a status with headers and perhaps a JSON object. */
  datatype Response<+D> = Broken | Reply(status: int, headers: Headers, isJson: bool, document: Option<D>)

  datatype Fetched<+D> = Failed | Unmodified(headers: Headers) | Loaded(document: D, headers: Headers)

  /** The result of fetch_document: 304 only counts when an ETag was sent, everything but a 200 JSON object fails. */
  function Interpret<D>(r: Response<D>, etag: Option<string>): (f: Fetched<D>)
    ensures f.Unmodified? ==> etag.Some?
  {
    if r.Broken? then Failed
    else if r.status == 304 && etag.Some? && etag.value != "" then Unmodified(r.headers)
    else if r.status != 200 || !r.isJson || r.document.None? then Failed
    else Loaded(r.document.value, r.headers)
  }

  /**
    A fetch yields a document exactly from a 200 with a JSON object, and "not modified" exactly from
    a 304 to an ETag that was sent. Anything else is a failure.
    */
  lemma InterpretIff<D>(r: Response<D>, etag: Option<string>)
    ensures Interpret(r, etag).Loaded? <==> r.Reply? && r.status == 200 && r.isJson && r.document.Some?
    ensures Interpret(r, etag).Loaded? ==> Interpret(r, etag) == Loaded(r.document.value, r.headers)
    ensures Interpret(r, etag).Unmodified? <==> r.Reply? && r.status == 304 && etag.Some? && etag.value != ""
    ensures Interpret(r, etag).Unmodified? ==> Interpret(r, etag) == Unmodified(r.headers)
  {}

  // ---- the body

  datatype ReadError = Deadline | TooLarge | Stalled

  const CHUNK: nat := 4096

  /**
    The read loop over a peer's byte stream. The environment picks how many bytes each read
    returns, when a read stalls, and what the clock says at every check.
    */
  method ReadBody<T>(stream: seq<T>, maxBytes: nat, budget: real,
                     sizes: nat -> nat, stalls: nat -> bool, clock: nat -> real)
    returns (body: Result<seq<T>, ReadError>, requests: seq<nat>, taken: nat, checks: nat)
    ensures forall q | q in requests :: 1 <= q <= CHUNK
    ensures taken <= maxBytes + 1 && taken <= |stream|
    ensures body.Ok? ==> body.value == stream && |stream| <= maxBytes
    ensures body.Ok? ==> checks == |requests| + 1 && forall i | 0 <= i < checks :: clock(i) < budget
    ensures body.Ok? ==> forall i | 0 <= i < |requests| :: !stalls(i)
    ensures body == Err(TooLarge) ==> |stream| > maxBytes
    ensures body == Err(Deadline) ==> checks > 0 && clock(checks - 1) >= budget
    ensures body == Err(Stalled) ==> exists i :: 0 <= i < checks && stalls(i)
  {
    var read: seq<T> := [];
    requests, taken, checks := [], 0, 0;
    while true
      invariant taken == |read| <= maxBytes && taken <= |stream| && read == stream[..taken]
      invariant checks == |requests|
      invariant forall i | 0 <= i < checks :: clock(i) < budget && !stalls(i)
      invariant forall q | q in requests :: 1 <= q <= CHUNK
      decreases maxBytes + 1 - taken
    {
      checks := checks + 1;
      if clock(checks - 1) >= budget { return Err(Deadline), requests, taken, checks; }
      var room := maxBytes + 1 - |read|;
      var request := if CHUNK < room then CHUNK else room;
      requests := requests + [request];
      if stalls(checks - 1) { return Err(Stalled), requests, taken, checks; }
      var left := |stream| - taken;
      if left == 0 { break; }
      var most := if left < request then left else request;
      var got := if sizes(checks) < 1 then 1 else if sizes(checks) > most then most else sizes(checks);
      read := read + stream[taken..taken + got];
      taken := taken + got;
      if |read| > maxBytes { return Err(TooLarge), requests, taken, checks; }
    }
    checks := checks + 1;
    if clock(checks - 1) >= budget { return Err(Deadline), requests, taken, checks; }
    return Ok(read), requests, taken, checks;
  }

  // ---- the budget of a whole fetch

  /** How long the two abandonable calls would take, and the time that passes before and between them. */
  datatype Timeline = Timeline(before: real, resolving: real, between: real, connecting: real, exchanging: real) {
    predicate Ok() { before >= 0.0 && resolving >= 0.0 && between >= 0.0 && connecting >= 0.0 && exchanging >= 0.0 }
  }

  /** call_with_deadline: whether the call was over in time, and how long it was waited for. */
  method CallWithDeadline(duration: real, seconds: real) returns (finished: bool, waited: real)
    requires duration >= 0.0 && seconds >= 0.0
    ensures finished <==> duration <= seconds
    ensures 0.0 <= waited <= seconds && (finished ==> waited == duration) && (!finished ==> waited == seconds)
  {
    finished := duration <= seconds;
    waited := if finished then duration else seconds;
  }

  /** Every step of the fetch is in time, and every resolved address may be connected to. */
  ghost predicate Succeeds<A>(urlOk: bool, addresses: Option<seq<A>>, routable: A -> bool, budget: real, t: Timeline) {
    var ready := t.before + t.resolving + t.between;
    && urlOk && t.before < budget && t.before + t.resolving <= budget
    && addresses.Some? && addresses.value != [] && (forall a | a in addresses.value :: routable(a))
    && ready < budget && ready + t.connecting < budget && ready + t.connecting + t.exchanging <= budget
  }

  /**
    fetch_document. The caller never waits longer than the budget in all, connects only once every
    resolved address has been checked, and reports the reply only if all of it came in time.
    */
  method FetchDocument<A, D>(urlOk: bool, addresses: Option<seq<A>>, routable: A -> bool, reply: Response<D>,
                             etag: Option<string>, budget: real, t: Timeline)
    returns (f: Fetched<D>, pinned: Option<A>, waited: real)
    requires t.Ok()
    ensures budget > 0.0 ==> waited <= budget
    ensures budget <= 0.0 ==> f == Failed && waited == 0.0
    ensures pinned.Some? ==>
      && urlOk && addresses.Some? && pinned.value in addresses.value
      && forall a | a in addresses.value :: routable(a)
    ensures pinned.Some? ==> pinned.value == addresses.value[0] && t.before + t.resolving + t.between < budget
    ensures f == if Succeeds(urlOk, addresses, routable, budget, t) then Interpret(reply, etag) else Failed
    ensures Succeeds(urlOk, addresses, routable, budget, t) ==> pinned.Some? && waited == t.resolving + t.exchanging
  {
    var elapsed := t.before;
    f, pinned, waited := Failed, None, 0.0;
    if !urlOk || elapsed >= budget { return; }
    var resolved, w := CallWithDeadline(t.resolving, budget - elapsed);
    waited, elapsed := w, elapsed + w + t.between;
    if !resolved || addresses.None? { return; }
    if addresses.value == [] { return; }
    for i := 0 to |addresses.value|
      invariant forall k | 0 <= k < i :: routable(addresses.value[k])
    {
      if !routable(addresses.value[i]) { return; }
    }
    if elapsed >= budget { return; }
    pinned, elapsed := Some(addresses.value[0]), elapsed + t.connecting;
    if elapsed >= budget { return; }
    var exchanged, v := CallWithDeadline(t.exchanging, budget - elapsed);
    waited := waited + v;
    if exchanged { f := Interpret(reply, etag); }
  }
}
