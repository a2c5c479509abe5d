/**
  Percent-decoding as the two halves of the system do it: Python's `unquote(errors="strict")` over
  maximal ASCII runs, and ECMA-262's `decodeURIComponent` escape by escape. A string is a sequence
  of Unicode scalar values.
  */
module Percent {
  import opened Wrappers
  import opened Utf8

  // ---- percent escapes

  predicate HexDigit(c: char) { '0' <= c <= '9' || 'a' <= c <= 'f' || 'A' <= c <= 'F' }

  function HexValue(c: char): (v: nat)
    requires HexDigit(c)
    ensures v < 16
  {
    if c <= '9' then c as int - '0' as int
    else if c <= 'F' then c as int - 'A' as int + 10
    else c as int - 'a' as int + 10
  }

  predicate EscapeAt(s: string, i: nat) {
    i + 2 < |s| && s[i] == '%' && HexDigit(s[i + 1]) && HexDigit(s[i + 2])
  }

  function Octet(s: string, i: nat): Byte
    requires EscapeAt(s, i)
  {
    16 * HexValue(s[i + 1]) + HexValue(s[i + 2])
  }

  /** No '%' without two hexadecimal digits behind it. */
  predicate WellFormed(s: string) {
    forall i | 0 <= i < |s| && s[i] == '%' :: EscapeAt(s, i)
  }

  predicate Ascii(c: char) { c < '\U{0080}' }

  // ---- decoding in Python: bytes over maximal ASCII runs, then strict UTF-8

  function AsciiRun(s: string): (n: nat)
    ensures n <= |s| && (forall i | 0 <= i < n :: Ascii(s[i])) && (n < |s| ==> !Ascii(s[n]))
  {
    if s == [] || !Ascii(s[0]) then 0 else 1 + AsciiRun(s[1..])
  }

  /** Escapes become the byte they name; everything else, a stray '%' included, stands for itself. */
  function UnquoteToBytes(run: string): seq<Byte>
    requires forall i | 0 <= i < |run| :: Ascii(run[i])
  {
    if run == [] then []
    else if EscapeAt(run, 0) then [Octet(run, 0)] + UnquoteToBytes(run[3..])
    else
      assert Ascii(run[0]);
      [run[0] as Byte] + UnquoteToBytes(run[1..])
  }

  function Join(a: Option<string>, b: Option<string>): Option<string> {
    match a
    case None => None
    case Some(head) => Prepend(head, b)
  }

  function Unquote(s: string): Option<string> {
    if s == [] then Some("")
    else
      var n := AsciiRun(s);
      if n == 0 then Prepend(s[..1], Unquote(s[1..]))
      else Join(DecodeStrict(UnquoteToBytes(s[..n])), Unquote(s[n..]))
  }

  // ---- decoding in TypeScript: one escape group at a time

  /** The octets of the `n` consecutive escapes that `s` starts with, if there are that many. */
  function Octets(s: string, n: nat): (o: Option<seq<Byte>>)
    ensures o.Some? ==> |o.value| == n && 3 * n <= |s|
    decreases n
  {
    if n == 0 then Some([])
    else if !EscapeAt(s, 0) then None
    else match Octets(s[3..], n - 1)
      case None => None
      case Some(rest) => Some([Octet(s, 0)] + rest)
  }

  function DecodeURIComponent(s: string): Option<string> {
    if s == [] then Some("")
    else if s[0] != '%' then Prepend(s[..1], DecodeURIComponent(s[1..]))
    else if !EscapeAt(s, 0) then None
    else
      var n := LeadingOnes(Octet(s, 0));
      if n == 0 then Prepend([Octet(s, 0) as char], DecodeURIComponent(s[3..]))
      else if n == 1 || n > 4 then None
      else match Octets(s, n)
        case None => None
        case Some(o) =>
          if !ValidOctets(o) then None
          else Prepend([CodeValue(o) as char], DecodeURIComponent(s[3 * n..]))
  }

  // ---- the two decoders agree

  predicate High(b: seq<Byte>, n: nat) { n <= |b| && forall i | 0 <= i < n :: b[i] >= 0x80 }

  /** An escape in front of a run followed by non-ASCII text lies inside the run. */
  lemma EscapeInRun(r: string, t: string)
    requires t != [] ==> !Ascii(t[0])
    ensures EscapeAt(r + t, 0) <==> EscapeAt(r, 0)
    ensures EscapeAt(r, 0) ==> Octet(r + t, 0) == Octet(r, 0) && (r + t)[3..] == r[3..] + t
  {
    if |r| < 3 && |r + t| >= 3 {
      assert (r + t)[|r|] == t[0];
    }
  }

  lemma HighCons(x: Byte, b: seq<Byte>, n: nat)
    requires n > 0
    ensures High([x] + b, n) <==> x >= 0x80 && High(b, n - 1)
    ensures n - 1 <= |b| ==> ([x] + b)[..n] == [x] + b[..n - 1] && ([x] + b)[n..] == b[n - 1..]
  {
    var c := [x] + b;
    assert forall i | 0 <= i < |b| :: c[i + 1] == b[i];
    assert High(c, n) ==> c[0] >= 0x80;
  }

  /** A run's bytes start with `n` bytes above 0x7F exactly when its text starts with `n` escapes of such bytes. */
  lemma {:induction false} LeadingOctets(r: string, t: string, n: nat)
    requires (forall i | 0 <= i < |r| :: Ascii(r[i])) && (t != [] ==> !Ascii(t[0]))
    ensures var b := UnquoteToBytes(r); var o := Octets(r + t, n);
      && (High(b, n) <==> o.Some? && High(o.value, n))
      && (High(b, n) ==> 3 * n <= |r| && o.value == b[..n] && b[n..] == UnquoteToBytes(r[3 * n..]))
    decreases n
  {
    var b, o := UnquoteToBytes(r), Octets(r + t, n);
    if n > 0 {
      EscapeInRun(r, t);
      if EscapeAt(r, 0) {
        LeadingOctets(r[3..], t, n - 1);
        var x, b', o' := Octet(r, 0), UnquoteToBytes(r[3..]), Octets(r[3..] + t, n - 1);
        assert b == [x] + b';
        HighCons(x, b', n);
        if o'.Some? {
          assert o == Some([x] + o'.value);
          HighCons(x, o'.value, n);
        }
        assert 3 * n <= |r| ==> r[3..][3 * (n - 1)..] == r[3 * n..];
      } else if r != [] {
        assert b[0] == r[0] as Byte;
      }
    }
  }

  lemma WellFormedSuffix(s: string, k: nat)
    requires WellFormed(s) && k <= |s|
    ensures WellFormed(s[k..])
  {
    forall i | 0 <= i < |s[k..]| && s[k..][i] == '%' ensures EscapeAt(s[k..], i) {
      assert EscapeAt(s, k + i);
    }
  }

  /** A multi-byte character at the front of a run: both decoders read it, or both refuse. */
  lemma MultiByteFront(r: string, t: string, n: nat)
    requires (forall i | 0 <= i < |r| :: Ascii(r[i])) && (t != [] ==> !Ascii(t[0]))
    requires EscapeAt(r, 0) && n == LeadingOnes(Octet(r, 0)) && 2 <= n <= 4
    ensures var b := UnquoteToBytes(r); var o := Octets(r + t, n);
      && b != []
      && (FrontLength(b) == n <==> o.Some? && ValidOctets(o.value))
      && FrontLength(b) in {0, n}
      && (FrontLength(b) == n ==> 3 * n <= |r| && o.value == b[..n] && b[n..] == UnquoteToBytes(r[3 * n..]))
  {
    var b, o := UnquoteToBytes(r), Octets(r + t, n);
    EscapeInRun(r, t);
    LeadingOctets(r, t, n);
    GrammarMatchesShortestForm(b, n);
    if o.Some? && ValidOctets(o.value) {
      assert o.value[0] == Octet(r, 0);
      assert High(o.value, n);
    }
    if FrontLength(b) == n {
      assert forall i | 0 <= i < n :: b[..n][i] == b[i];
      assert High(b, n);
    }
  }

  /** What one run of ASCII characters contributes, whichever decoder reads it. */
  function RunDecodes(r: string, t: string): Option<string>
    requires forall i | 0 <= i < |r| :: Ascii(r[i])
  {
    Join(DecodeStrict(UnquoteToBytes(r)), DecodeURIComponent(t))
  }

  lemma {:induction false} RunAgrees(r: string, t: string)
    requires (forall i | 0 <= i < |r| :: Ascii(r[i])) && (t != [] ==> !Ascii(t[0]))
    requires WellFormed(r + t)
    ensures DecodeURIComponent(r + t) == RunDecodes(r, t)
    decreases |r|
  {
    var s := r + t;
    if r == [] {
      assert s == t;
      JoinEmpty(DecodeURIComponent(t));
    } else {
      EscapeInRun(r, t);
      var k := if !EscapeAt(r, 0) then 1 else FrontSize(r);
      if k > 0 {
        assert s[k..] == r[k..] + t;
        WellFormedSuffix(s, k);
        RunAgrees(r[k..], t);
      }
      if !EscapeAt(r, 0) {
        LiteralFront(r, t);
      } else {
        EscapeFront(r, t);
      }
    }
  }

  /** How much text the first character of an escape group takes; 0 when the group is no character. */
  function FrontSize(r: string): (k: nat)
    requires EscapeAt(r, 0) && forall i | 0 <= i < |r| :: Ascii(r[i])
    ensures k <= |r|
  {
    var n := FrontLength(UnquoteToBytes(r));
    if n <= 1 then 3 * n
    else
      LeadingOctetsOf(r, n);
      3 * n
  }

  lemma LeadingOctetsOf(r: string, n: nat)
    requires EscapeAt(r, 0) && forall i | 0 <= i < |r| :: Ascii(r[i])
    requires n == FrontLength(UnquoteToBytes(r))
    ensures 3 * n <= |r|
  {
    if n >= 2 {
      MultiByteFront(r, "", n);
    }
  }

  lemma LiteralByte(r: string)
    requires r != [] && (forall i | 0 <= i < |r| :: Ascii(r[i])) && !EscapeAt(r, 0)
    ensures var b := UnquoteToBytes(r);
      FrontLength(b) == 1 && b[1..] == UnquoteToBytes(r[1..]) && CodeValue(b[..1]) == r[0] as int
  {
    assert Ascii(r[0]);
  }

  lemma LiteralFront(r: string, t: string)
    requires r != [] && (forall i | 0 <= i < |r| :: Ascii(r[i])) && !EscapeAt(r, 0) && r[0] != '%'
    requires DecodeURIComponent(r[1..] + t) == RunDecodes(r[1..], t)
    ensures DecodeURIComponent(r + t) == RunDecodes(r, t)
  {
    hide DecodeStrict, UnquoteToBytes, FrontLength, CodeValue, Octets, Join;
    var s := r + t;
    assert s[1..] == r[1..] + t && s[..1] == [r[0]];
    LiteralByte(r);
    GroupByBytes(UnquoteToBytes(r), 1, DecodeURIComponent(t));
  }

  lemma SingleByteFront(r: string, t: string)
    requires EscapeAt(r, 0) && (forall i | 0 <= i < |r| :: Ascii(r[i])) && Octet(r, 0) < 0x80
    requires DecodeURIComponent(r[3..] + t) == RunDecodes(r[3..], t)
    ensures DecodeURIComponent(r + t) == RunDecodes(r, t)
  {
    var s, b := r + t, UnquoteToBytes(r);
    assert s[3..] == r[3..] + t && EscapeAt(s, 0) && Octet(s, 0) == Octet(r, 0);
    assert b[1..] == UnquoteToBytes(r[3..]);
    assert [CodeValue(b[..1]) as char] == [Octet(r, 0) as char];
    JoinPrepend([Octet(r, 0) as char], DecodeStrict(b[1..]), DecodeURIComponent(t));
  }

  /** A multi-byte group, as the escape-by-escape decoder reads it. */
  lemma GroupByEscapes(s: string, n: nat)
    requires EscapeAt(s, 0) && n == LeadingOnes(Octet(s, 0)) && 2 <= n <= 4
    ensures var o := Octets(s, n);
      DecodeURIComponent(s) ==
      if o.Some? && ValidOctets(o.value)
      then Prepend([CodeValue(o.value) as char], DecodeURIComponent(s[3 * n..]))
      else None
  {}

  /** The same group, as the byte-string decoder reads it. */
  lemma GroupByBytes(b: seq<Byte>, n: nat, rest: Option<string>)
    requires b != [] && FrontLength(b) in {0, n} && n > 0
    ensures FrontLength(b) == 0 ==> Join(DecodeStrict(b), rest) == None
    ensures FrontLength(b) == n ==> (ScalarValue(CodeValue(b[..n])) &&
      Join(DecodeStrict(b), rest) == Prepend([CodeValue(b[..n]) as char], Join(DecodeStrict(b[n..]), rest)))
  {
    if FrontLength(b) == n {
      FrontIsScalar(b);
      JoinPrepend([CodeValue(b[..n]) as char], DecodeStrict(b[n..]), rest);
    }
  }

  lemma GroupFront(r: string, t: string, n: nat)
    requires (forall i | 0 <= i < |r| :: Ascii(r[i])) && (t != [] ==> !Ascii(t[0]))
    requires EscapeAt(r, 0) && n == LeadingOnes(Octet(r, 0)) && 2 <= n <= 4
    requires FrontLength(UnquoteToBytes(r)) == n ==>
      3 * n <= |r| && DecodeURIComponent(r[3 * n..] + t) == RunDecodes(r[3 * n..], t)
    ensures DecodeURIComponent(r + t) == RunDecodes(r, t)
  {
    hide DecodeURIComponent, DecodeStrict, Octets, UnquoteToBytes, FrontLength, ValidOctets, CodeValue;
    var s, b := r + t, UnquoteToBytes(r);
    assert EscapeAt(s, 0) && Octet(s, 0) == Octet(r, 0);
    MultiByteFront(r, t, n);
    GroupByEscapes(s, n);
    GroupByBytes(b, n, DecodeURIComponent(t));
    if FrontLength(b) == n {
      assert s[3 * n..] == r[3 * n..] + t;
    }
  }

  lemma EscapeFront(r: string, t: string)
    requires (forall i | 0 <= i < |r| :: Ascii(r[i])) && (t != [] ==> !Ascii(t[0])) && EscapeAt(r, 0)
    requires var k := FrontSize(r); k > 0 ==> DecodeURIComponent(r[k..] + t) == RunDecodes(r[k..], t)
    ensures DecodeURIComponent(r + t) == RunDecodes(r, t)
  {
    var n := LeadingOnes(Octet(r, 0));
    EscapeInRun(r, t);
    if n == 0 {
      SingleByteFront(r, t);
    } else if 2 <= n <= 4 {
      MultiByteFront(r, t, n);
      GroupFront(r, t, n);
    }
  }

  lemma JoinEmpty(b: Option<string>)
    ensures Join(Some(""), b) == b
  {
    if b.Some? { assert "" + b.value == b.value; }
  }

  lemma JoinPrepend(head: string, a: Option<string>, b: Option<string>)
    ensures Join(Prepend(head, a), b) == Prepend(head, Join(a, b))
  {
    if a.Some? && b.Some? { assert (head + a.value) + b.value == head + (a.value + b.value); }
  }

  /**
    On every string without a stray '%', Python's `unquote` (strict) and ECMA-262's
    `decodeURIComponent` are the same partial function.
    */
  lemma {:induction false} DecodersAgree(s: string)
    requires WellFormed(s)
    ensures Unquote(s) == DecodeURIComponent(s)
    decreases |s|
  {
    if s != [] {
      var n := AsciiRun(s);
      if n == 0 {
        WellFormedSuffix(s, 1);
        DecodersAgree(s[1..]);
      } else {
        assert s == s[..n] + s[n..];
        WellFormedSuffix(s, n);
        DecodersAgree(s[n..]);
        RunAgrees(s[..n], s[n..]);
      }
    }
  }

  // ---- and both undo percent-encoding

  const UPPER := "0123456789ABCDEF"
  const LOWER := "0123456789abcdef"

  /** The hexadecimal digits, and what they stand for, in either case. */
  lemma HexDigits(c: char, i: nat)
    requires i < 16
    ensures HexDigit(c) <==> c in UPPER || c in LOWER
    ensures HexValue(UPPER[i]) == i == HexValue(LOWER[i])
  {
    if '0' <= c <= '9' { assert UPPER[c as int - '0' as int] == c; }
    if 'A' <= c <= 'F' { assert UPPER[c as int - 'A' as int + 10] == c; }
    if 'a' <= c <= 'f' { assert LOWER[c as int - 'a' as int + 10] == c; }
  }

  function Escape(b: Byte): string { ['%', UPPER[b / 16], UPPER[b % 16]] }

  function Escaped(bytes: seq<Byte>): string {
    if bytes == [] then "" else Escape(bytes[0]) + Escaped(bytes[1..])
  }

  lemma EscapeIsRead(b: Byte, rest: string)
    ensures EscapeAt(Escape(b) + rest, 0) && Octet(Escape(b) + rest, 0) == b && (Escape(b) + rest)[3..] == rest
    ensures forall c | c in Escape(b) :: Ascii(c)
  {
    HexDigits(UPPER[b / 16], b / 16);
    HexDigits(UPPER[b % 16], b % 16);
    var s := Escape(b) + rest;
    assert s[0] == '%' && s[1] == UPPER[b / 16] && s[2] == UPPER[b % 16];
    assert UPPER[b / 16] in UPPER && UPPER[b % 16] in UPPER;
    hide HexDigit, HexValue;
  }

  lemma {:induction false} EscapedBytes(bytes: seq<Byte>)
    ensures forall i | 0 <= i < |Escaped(bytes)| :: Ascii(Escaped(bytes)[i])
    ensures UnquoteToBytes(Escaped(bytes)) == bytes
    ensures WellFormed(Escaped(bytes))
  {
    if bytes != [] {
      EscapedBytes(bytes[1..]);
      EscapeIsRead(bytes[0], Escaped(bytes[1..]));
      EscapedCons(bytes[0], Escaped(bytes[1..]));
      hide EscapeAt, Octet, Escape, Ascii;
      assert [bytes[0]] + bytes[1..] == bytes;
    }
  }

  lemma EscapedCons(b: Byte, rest: string)
    requires WellFormed(rest) && forall i | 0 <= i < |rest| :: Ascii(rest[i])
    ensures var s := Escape(b) + rest; WellFormed(s) && forall i | 0 <= i < |s| :: Ascii(s[i])
  {
    EscapeIsRead(b, rest);
    var s := Escape(b) + rest;
    forall i | 0 <= i < |s| ensures Ascii(s[i]) && (s[i] == '%' ==> EscapeAt(s, i)) {
      if i >= 3 {
        assert s[i] == rest[i - 3];
        if s[i] == '%' { assert EscapeAt(rest, i - 3); }
      } else {
        assert s[i] == Escape(b)[i];
      }
    }
  }

  lemma {:induction false} AllAscii(s: string)
    requires forall i | 0 <= i < |s| :: Ascii(s[i])
    ensures AsciiRun(s) == |s|
  {
    if s != [] { AllAscii(s[1..]); }
  }

  /** In Python as in TypeScript, decoding undoes the percent-encoding of the UTF-8 of any text. */
  lemma PercentRoundTrip(text: string)
    ensures Unquote(Escaped(EncodeAll(text))) == Some(text) == DecodeURIComponent(Escaped(EncodeAll(text)))
  {
    var s := Escaped(EncodeAll(text));
    EscapedBytes(EncodeAll(text));
    DecodersAgree(s);
    StrictRoundTrip(text);
    AllAscii(s);
    if s != [] {
      assert s[..|s|] == s && s[|s|..] == [];
      assert Unquote(s) == Join(Some(text), Unquote(s[|s|..]));
      assert text + "" == text;
    }
    hide DecodeURIComponent, DecodeStrict, UnquoteToBytes;
  }
}
