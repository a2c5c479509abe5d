/**
  The client identifier URL rules (lambdas/shared/cimd_url.py), and the part of them that
  lib/derive.ts mirrors. The rules on the host part are an abstract predicate.
  */
module CimdUrl {
  import opened Wrappers
  import opened Percent
  import Strings

  const MAX_DECODES: nat := 4

  datatype Verdict = Accepted | DotSegment | Separator | Malformed | TooDeep

  predicate Dot(s: string) { s == "." || s == ".." }

  predicate HasSeparator(s: string) { '/' in s || '\\' in s }

  /** The checks of one round and, while the text still changes, the rounds after it. */
  function Judge(decode: string -> Option<string>, seg: string, rounds: nat): Verdict
    decreases rounds
  {
    if rounds == 0 then TooDeep
    else if Dot(seg) then DotSegment
    else if HasSeparator(seg) then Separator
    else if !WellFormed(seg) then Malformed
    else match decode(seg)
      case None => Malformed
      case Some(decoded) => if decoded == seg then Accepted else Judge(decode, decoded, rounds - 1)
  }

  /** The loop both languages run, each with its own decoder. */
  method SegmentError(decode: string -> Option<string>, segment: string) returns (v: Verdict)
    ensures v == Judge(decode, segment, MAX_DECODES)
  {
    var seg := segment;
    for i := 0 to MAX_DECODES
      invariant Judge(decode, segment, MAX_DECODES) == Judge(decode, seg, MAX_DECODES - i)
    {
      if Dot(seg) { return DotSegment; }
      if HasSeparator(seg) { return Separator; }
      if !WellFormed(seg) { return Malformed; }
      var decoded := decode(seg);
      if decoded.None? { return Malformed; }
      if decoded.value == seg { return Accepted; }
      seg := decoded.value;
    }
    return TooDeep;
  }

  ghost predicate SameOnWellFormed(d1: string -> Option<string>, d2: string -> Option<string>) {
    forall s | WellFormed(s) :: d1(s) == d2(s)
  }

  lemma {:induction false} SameVerdicts(d1: string -> Option<string>, d2: string -> Option<string>, seg: string,
                                        rounds: nat)
    requires SameOnWellFormed(d1, d2)
    ensures Judge(d1, seg, rounds) == Judge(d2, seg, rounds)
    decreases rounds
  {
    if rounds > 0 && WellFormed(seg) && d1(seg).Some? {
      SameVerdicts(d1, d2, d1(seg).value, rounds - 1);
    }
  }

  /** segment_error and segmentError return the same verdict on every string. */
  lemma MirrorsAgree(seg: string)
    ensures Judge(Unquote, seg, MAX_DECODES) == Judge(DecodeURIComponent, seg, MAX_DECODES)
  {
    forall s | WellFormed(s) ensures Unquote(s) == DecodeURIComponent(s) { DecodersAgree(s); }
    SameVerdicts(Unquote, DecodeURIComponent, seg, MAX_DECODES);
  }

  // ---- what acceptance means

  function Iterate(decode: string -> Option<string>, s: string, k: nat): Option<string>
    decreases k
  {
    if k == 0 then Some(s)
    else match decode(s)
      case None => None
      case Some(d) => Iterate(decode, d, k - 1)
  }

  predicate Clean(decode: string -> Option<string>, s: string) {
    !Dot(s) && !HasSeparator(s) && WellFormed(s) && decode(s).Some?
  }

  predicate CleanAt(decode: string -> Option<string>, s: string, k: nat) {
    var t := Iterate(decode, s, k);
    t.Some? && Clean(decode, t.value)
  }

  /** `k` decodes, each strictly shortening, every text on the way clean, and the last one a fixed point. */
  predicate Settles(decode: string -> Option<string>, s: string, k: nat)
    decreases k
  {
    && Clean(decode, s)
    && var d := decode(s).value;
       if k == 0 then d == s else |d| < |s| && Settles(decode, d, k - 1)
  }

  ghost predicate Shortens(decode: string -> Option<string>) {
    forall s | WellFormed(s) && decode(s).Some? && decode(s).value != s :: |decode(s).value| < |s|
  }

  lemma {:induction false} AcceptedMeansSettled(decode: string -> Option<string>, s: string, rounds: nat)
    returns (k: nat)
    requires Shortens(decode) && Judge(decode, s, rounds) == Accepted
    ensures k < rounds && Settles(decode, s, k)
    decreases rounds
  {
    var d := decode(s).value;
    if d == s {
      k := 0;
    } else {
      var k' := AcceptedMeansSettled(decode, d, rounds - 1);
      k := k' + 1;
    }
  }

  lemma {:induction false} SettledMeansAccepted(decode: string -> Option<string>, s: string, rounds: nat, k: nat)
    requires k < rounds && Settles(decode, s, k)
    ensures Judge(decode, s, rounds) == Accepted
    decreases rounds
  {
    if k > 0 {
      SettledMeansAccepted(decode, decode(s).value, rounds - 1, k - 1);
    }
  }

  lemma AcceptedIff(decode: string -> Option<string>, s: string, rounds: nat)
    requires Shortens(decode)
    ensures Judge(decode, s, rounds) == Accepted ==> exists k: nat | k < rounds :: Settles(decode, s, k)
    ensures forall k: nat | k < rounds && Settles(decode, s, k) :: Judge(decode, s, rounds) == Accepted
  {
    hide Judge, Settles;
    if Judge(decode, s, rounds) == Accepted {
      var k := AcceptedMeansSettled(decode, s, rounds);
      assert Settles(decode, s, k);
    }
    forall k: nat | k < rounds && Settles(decode, s, k) { SettledMeansAccepted(decode, s, rounds, k); }
  }

  /** Accepted means: a fixed point is reached within three strictly shortening decodes, everything on the way clean. */
  lemma SegmentAcceptance(s: string, rounds: nat)
    requires rounds == MAX_DECODES
    ensures Judge(Unquote, s, rounds) == Accepted <==> exists k: nat | k <= 3 :: Settles(Unquote, s, k)
  {
    hide Judge, Settles;
    UnquoteShortens();
    AcceptedIff(Unquote, s, rounds);
  }

  /** One decode changes nothing when there is no escape, and shortens the text when there is one. */
  lemma DecodeShortens(s: string)
    requires WellFormed(s) && Unquote(s).Some?
    ensures if '%' in s then |Unquote(s).value| < |s| else Unquote(s).value == s
  {
    DecodersAgree(s);
    MirrorShortens(s);
  }

  lemma UnquoteShortens()
    ensures Shortens(Unquote)
  {
    forall s | WellFormed(s) && Unquote(s).Some? && Unquote(s).value != s ensures |Unquote(s).value| < |s| {
      DecodeShortens(s);
    }
  }

  lemma {:induction false} MirrorShortens(s: string)
    requires WellFormed(s) && DecodeURIComponent(s).Some?
    ensures if '%' in s then |DecodeURIComponent(s).value| < |s| else DecodeURIComponent(s).value == s
    decreases |s|
  {
    if s != [] {
      if s[0] != '%' {
        WellFormedSuffix(s, 1);
        MirrorShortens(s[1..]);
        assert s == s[..1] + s[1..];
      } else {
        assert EscapeAt(s, 0);
        var n := Utf8.LeadingOnes(Octet(s, 0));
        var k := if n == 0 then 3 else 3 * n;
        WellFormedSuffix(s, k);
        MirrorShortens(s[k..]);
      }
    }
  }

  /**
    However often an intermediary decodes an accepted segment, it never sees a dot segment, a
    separator or a bad escape.
    */
  lemma {:induction false} AcceptedIsSafeAtEveryDepth(decode: string -> Option<string>, s: string, rounds: nat, k: nat)
    requires Judge(decode, s, rounds) == Accepted
    ensures CleanAt(decode, s, k)
    decreases rounds, k
  {
    if k > 0 {
      var d := decode(s).value;
      if d == s {
        AcceptedIsSafeAtEveryDepth(decode, s, rounds, k - 1);
      } else {
        AcceptedIsSafeAtEveryDepth(decode, d, rounds - 1, k - 1);
      }
    }
  }

  // ---- raw path

  predicate Letter(c: char) { 'a' <= c <= 'z' || 'A' <= c <= 'Z' }

  predicate SchemeChar(c: char) { Letter(c) || '0' <= c <= '9' || c in "+.-" }

  function SchemeRun(s: string): (n: nat)
    ensures n <= |s|
  {
    if s == [] || !SchemeChar(s[0]) then 0 else 1 + SchemeRun(s[1..])
  }

  /** Length of the text before the first character out of `stops`. */
  function Until(s: string, stops: string): (n: nat)
    ensures n <= |s| && (forall i | 0 <= i < n :: s[i] !in stops) && (n < |s| ==> s[n] in stops)
  {
    if s == [] || s[0] in stops then 0 else 1 + Until(s[1..], stops)
  }

  /** How much of the front matches scheme, "://" and authority; 0 when the pattern does not match. */
  function AuthorityLength(s: string): (n: nat)
    ensures n <= |s|
  {
    var k := SchemeRun(s);
    if s == [] || !Letter(s[0]) || k + 3 > |s| || s[k..k + 3] != "://" then 0
    else k + 3 + Until(s[k + 3..], "/?#")
  }

  /** The Python form: cut once at the first '?' or '#'. */
  function RawPath(value: string): string {
    var rest := value[AuthorityLength(value)..];
    rest[..Until(rest, "?#")]
  }

  function SplitOnAny(s: string, stops: string): (parts: seq<string>)
    ensures parts != []
  {
    if s == [] then [""]
    else
      var rest := SplitOnAny(s[1..], stops);
      if s[0] in stops then [""] + rest else [s[..1] + rest[0]] + rest[1..]
  }

  /** The TypeScript form: split at every '?' and '#', keep the first piece. */
  function RawPathMirror(value: string): string {
    SplitOnAny(value[AuthorityLength(value)..], "?#")[0]
  }

  lemma FirstPiece(s: string, stops: string)
    ensures SplitOnAny(s, stops)[0] == s[..Until(s, stops)]
  {
    if s != [] && s[0] !in stops {
      FirstPiece(s[1..], stops);
      assert s[..1] + s[1..][..Until(s[1..], stops)] == s[..Until(s, stops)];
    }
  }

  lemma RawPathsAgree(value: string)
    ensures RawPath(value) == RawPathMirror(value)
  {
    FirstPiece(value[AuthorityLength(value)..], "?#");
  }

  // ---- the URL as a whole

  predicate ControlOrSpace(c: char) { c <= ' ' || c == '\U{007F}' }

  /** The scheme is https, in any case of letters, and an authority follows. */
  predicate IsWeb(url: string) {
    && |url| >= 8
    && url[0] in "hH" && url[1] in "tT" && url[2] in "tT" && url[3] in "pP" && url[4] in "sS"
    && url[5..8] == "://"
  }

  predicate PathAccepted(decode: string -> Option<string>, rounds: nat, path: string) {
    forall seg | seg in Strings.Split(path, '/') :: Judge(decode, seg, rounds) == Accepted
  }

  /** Text from the first `c` on, without it; empty when `c` does not occur. */
  function After(s: string, c: char): string {
    var n := Until(s, [c]);
    if n < |s| then s[n + 1..] else ""
  }

  function Before(s: string, c: char): string { s[..Until(s, [c])] }

  /** validate_client_id_url finds no problem. `hostRule` stands for the userinfo, host and port checks. */
  predicate AcceptableUrl(url: string, hostRule: string -> bool) {
    var rest := url[AuthorityLength(url)..];
    && (forall c | c in url :: !ControlOrSpace(c))
    && '\\' !in url
    && IsWeb(url)
    && hostRule(url)
    && RawPath(url) !in {"", "/"}
    && PathAccepted(Unquote, MAX_DECODES, RawPath(url))
    && After(Before(rest, '#'), '?') == ""
    && After(rest, '#') == ""
  }

  /** Splitting the TypeScript path and judging its segments the TypeScript way accepts exactly the same URLs. */
  lemma PathRulesAgree(url: string)
    ensures PathAccepted(Unquote, MAX_DECODES, RawPath(url)) <==>
            PathAccepted(DecodeURIComponent, MAX_DECODES, RawPathMirror(url))
  {
    RawPathsAgree(url);
    forall seg | seg in Strings.Split(RawPath(url), '/') { MirrorsAgree(seg); }
  }

  /** The segment loop of the URL validators: the first problem met, or None. */
  method PathError(decode: string -> Option<string>, path: string) returns (problem: Option<Verdict>)
    ensures problem.None? <==> PathAccepted(decode, MAX_DECODES, path)
    ensures problem.Some? ==> problem.value != Accepted
  {
    var segments, rounds := Strings.Split(path, '/'), MAX_DECODES;
    for i := 0 to |segments|
      invariant forall j | 0 <= j < i :: Judge(decode, segments[j], rounds) == Accepted
    {
      var v := SegmentError(decode, segments[i]);
      if v != Accepted { return Some(v); }
    }
    return None;
  }

  // ---- what an accepted URL looks like

  function Lower(c: char): char { if 'A' <= c <= 'Z' then (c as int + 32) as char else c }

  function Lowered(s: string): string { seq(|s|, i requires 0 <= i < |s| => Lower(s[i])) }

  /** The scheme is told from the text whatever the case of its letters. */
  lemma IsWebIff(url: string)
    ensures IsWeb(url) <==> |url| >= 8 && Lowered(url[..8]) == "https://"
  {
    if |url| >= 8 {
      var low := Lowered(url[..8]);
      assert |low| == 8 && forall i | 0 <= i < 8 :: low[i] == Lower(url[i]);
      assert url[5..8] == [url[5], url[6], url[7]];
      assert low == [low[0], low[1], low[2], low[3], low[4], low[5], low[6], low[7]];
    }
  }

  lemma {:induction false} SchemeRunIs(s: string, n: nat)
    requires n <= |s| && (forall i | 0 <= i < n :: SchemeChar(s[i])) && (n < |s| ==> !SchemeChar(s[n]))
    ensures SchemeRun(s) == n
  {
    if n > 0 { SchemeRunIs(s[1..], n - 1); }
  }

  lemma WebScheme(url: string)
    requires IsWeb(url)
    ensures SchemeRun(url) == 5 && Letter(url[0]) && url[5..8] == "://"
  {
    assert url[5] == url[5..8][0];
    SchemeRunIs(url, 5);
    hide SchemeRun;
  }

  lemma SchemeOfWeb(url: string)
    requires IsWeb(url)
    ensures 8 <= AuthorityLength(url) <= |url|
    ensures var rest := url[AuthorityLength(url)..]; rest == "" || rest[0] in "/?#"
  {
    WebScheme(url);
    hide SchemeRun, IsWeb, Until;
    var k := Until(url[8..], "/?#");
    assert url[8..][k..] == url[8 + k..];
  }

  lemma {:induction false} UntilIs(s: string, stops: string, n: nat)
    requires n <= |s| && (forall i | 0 <= i < n :: s[i] !in stops) && (n < |s| ==> s[n] in stops)
    ensures Until(s, stops) == n
  {
    if n > 0 { UntilIs(s[1..], stops, n - 1); }
  }

  lemma {:induction false} UntilMore(s: string)
    ensures Until(s, "?#") <= Until(s, "#")
  {
    if s != "" { UntilMore(s[1..]); }
  }

  lemma QueryIs(rest: string, n: nat, f: nat)
    requires n == Until(rest, "?#") && f == Until(rest, "#")
    ensures n <= f && After(Before(rest, '#'), '?') == if n < f then rest[n + 1..f] else ""
    ensures n < |rest| ==> rest[n] == (if n < f then '?' else '#')
  {
    UntilMore(rest);
    var before := Before(rest, '#');
    forall i | 0 <= i < n ensures i < |before| ==> before[i] !in "?" { assert rest[i] !in "?#"; }
    if n < f { assert rest[n] !in "#" && before[n] == '?'; }
    UntilIs(before, "?", n);
  }

  lemma TailIs(rest: string, n: nat)
    requires n <= |rest|
    ensures var tail := rest[n..];
      && (tail == "" <==> n == |rest|)
      && (tail == "?" <==> n + 1 == |rest| && rest[n] == '?') && (tail == "#" <==> n + 1 == |rest| && rest[n] == '#')
      && (tail == "?#" <==> n + 2 == |rest| && rest[n] == '?' && rest[n + 1] == '#')
  {}

  /** Neither query nor fragment: nothing follows the path but bare delimiters. */
  lemma NoQueryNoFragmentIff(rest: string)
    ensures After(Before(rest, '#'), '?') == "" && After(rest, '#') == "" <==>
      rest[Until(rest, "?#")..] in {"", "?", "#", "?#"}
  {
    var n, f := Until(rest, "?#"), Until(rest, "#");
    QueryIs(rest, n, f);
    TailIs(rest, n);
    assert f < |rest| ==> rest[f] == '#';
    assert n + 1 < |rest| && f > n + 1 ==> rest[n + 1] != '#' by {
      if n + 1 < |rest| && f > n + 1 { assert rest[n + 1] !in "#"; }
    }
    hide Before, Until;
  }

  /** No control characters, spaces or backslashes. */
  predicate PlainText(s: string) { forall c | c in s :: ' ' < c && c != '\U{007F}' && c != '\\' }

  lemma PlainTextIff(s: string)
    ensures PlainText(s) <==> (forall c | c in s :: !ControlOrSpace(c)) && '\\' !in s
  {}

  /** More than a slash, and every segment is accepted. */
  predicate PathOk(path: string) {
    |path| > 1 && path[0] == '/' && '?' !in path && '#' !in path
    && forall seg | seg in Strings.Split(path, '/') :: Judge(Unquote, seg, MAX_DECODES) == Accepted
  }

  /**
    An accepted client identifier URL, told by its text alone: https and an authority that passes the
    host rules, a path that is more than a slash and whose segments are all accepted, and then at
    most a bare '?' and a bare '#'; without control characters, spaces and backslashes.
    */
  lemma AcceptedUrlIff(url: string, hostRule: string -> bool)
    ensures var n := AuthorityLength(url); var path := RawPath(url);
      AcceptableUrl(url, hostRule) <==>
      && PlainText(url) && |url| >= 8 && Lowered(url[..8]) == "https://" && hostRule(url) && PathOk(path)
      && url in {url[..n] + path, url[..n] + path + "?", url[..n] + path + "#", url[..n] + path + "?#"}
  {
    UrlParts(url);
    var n, path := AuthorityLength(url), RawPath(url);
    var rest := url[n..];
    NoQueryNoFragmentIff(rest);
    SameTail(url[..n] + path, rest[|path|..], url);
    PlainTextIff(url);
    IsWebIff(url);
    hide Lowered, PlainText, ControlOrSpace, AuthorityLength, RawPath, Judge, IsWeb, Strings.Split, After, Before,
      Until;
  }

  lemma UrlParts(url: string)
    ensures var n, path := AuthorityLength(url), RawPath(url); var rest := url[n..];
      && |path| == Until(rest, "?#") && url == url[..n] + path + rest[|path|..]
      && '?' !in path && '#' !in path
      && (IsWeb(url) ==> (path !in {"", "/"} <==> |path| > 1 && path[0] == '/'))
  {
    hide AuthorityLength, IsWeb;
    var n := AuthorityLength(url);
    if IsWeb(url) { SchemeOfWeb(url); }
    PathParts(url[n..]);
    assert url == url[..n] + url[n..];
    hide Until;
  }

  lemma PathParts(rest: string)
    ensures var path := rest[..Until(rest, "?#")];
      && rest == path + rest[|path|..] && '?' !in path && '#' !in path
      && (rest == "" || rest[0] in "/?#" ==> (path !in {"", "/"} <==> |path| > 1 && path[0] == '/'))
  {
    var path := rest[..Until(rest, "?#")];
    forall c | c in path ensures c !in "?#" {}
    hide Until;
    if |path| == 1 && path[0] == '/' { assert path == "/"; }
    if path != "" { assert path[0] == rest[0] && path[0] in path; }
  }

  lemma SameTail(front: string, tail: string, url: string)
    requires url == front + tail
    ensures url in {front, front + "?", front + "#", front + "?#"} <==> tail in {"", "?", "#", "?#"}
  {
    assert tail == url[|front|..];
    if url == front { assert tail == ""; }
    if url == front + "?" { assert tail == "?"; }
    if url == front + "#" { assert tail == "#"; }
    if url == front + "?#" { assert tail == "?#"; }
    assert front + "" == front;
  }

  /**
    No decoding of any segment of an accepted URL, at any depth, is a dot segment or has a separator
    in it.
    */
  lemma AcceptedUrlNeverTraverses(url: string, hostRule: string -> bool, seg: string, k: nat)
    requires AcceptableUrl(url, hostRule) && seg in Strings.Split(RawPath(url), '/')
    ensures IsWeb(url) && CleanAt(Unquote, seg, k)
    ensures var text := Iterate(Unquote, seg, k).value; text !in {".", ".."} && '/' !in text && '\\' !in text
  {
    AcceptedIsSafeAtEveryDepth(Unquote, seg, MAX_DECODES, k);
  }
}
