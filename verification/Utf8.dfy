/**
  Strict UTF-8, twice: once by the byte-range grammar of section 4 of RFC 3629 (what a strict
  codec does with a whole byte string), once by leading ones, code value and shortest form
  (what ECMA-262 asks of one group of octets).
  */
module Utf8 {
  import opened Wrappers

  type Byte = b: int | 0 <= b < 256

  predicate Tail(b: Byte) { 0x80 <= b < 0xC0 }

  /** Length of the well-formed character encoding that `bytes` starts with; 0 when there is none. */
  function FrontLength(bytes: seq<Byte>): (n: nat)
    ensures n <= 4 && n <= |bytes|
  {
    if bytes == [] then 0
    else if bytes[0] < 0x80 then 1
    else if |bytes| >= 2 && 0xC2 <= bytes[0] <= 0xDF && Tail(bytes[1]) then 2
    else if |bytes| >= 3 && Front3(bytes[0], bytes[1]) && Tail(bytes[2]) then 3
    else if |bytes| >= 4 && Front4(bytes[0], bytes[1]) && Tail(bytes[2]) && Tail(bytes[3]) then 4
    else 0
  }

  predicate Front3(a: Byte, b: Byte) {
    || (a == 0xE0 && 0xA0 <= b <= 0xBF)
    || (0xE1 <= a <= 0xEC && Tail(b))
    || (a == 0xED && 0x80 <= b <= 0x9F)
    || (0xEE <= a <= 0xEF && Tail(b))
  }

  predicate Front4(a: Byte, b: Byte) {
    || (a == 0xF0 && 0x90 <= b <= 0xBF)
    || (0xF1 <= a <= 0xF3 && Tail(b))
    || (a == 0xF4 && 0x80 <= b <= 0x8F)
  }

  predicate ScalarValue(v: int) { 0 <= v < 0xD800 || 0xE000 <= v < 0x11_0000 }

  /** The number spelled by a group of octets whose first one announces the group's length. */
  function CodeValue(octets: seq<Byte>): int
    requires 1 <= |octets| <= 4
  {
    match |octets|
    case 1 => octets[0]
    case 2 => Bits(octets[0], 0xC0) * 0x40 + Bits(octets[1], 0x80)
    case 3 => Bits(octets[0], 0xE0) * 0x1000 + Bits(octets[1], 0x80) * 0x40 + Bits(octets[2], 0x80)
    case _ =>
      Bits(octets[0], 0xF0) * 0x4_0000 + Bits(octets[1], 0x80) * 0x1000
      + Bits(octets[2], 0x80) * 0x40 + Bits(octets[3], 0x80)
  }

  function Bits(octet: int, marker: int): int { octet - marker }

  /** Decode a whole byte string by the grammar; None as soon as some position starts no character. */
  function DecodeStrict(bytes: seq<Byte>): Option<string> {
    if bytes == [] then Some("")
    else
      var n := FrontLength(bytes);
      if n == 0 then None
      else
        FrontIsScalar(bytes);
        Prepend([CodeValue(bytes[..n]) as char], DecodeStrict(bytes[n..]))
  }

  function Prepend(head: string, rest: Option<string>): Option<string> {
    match rest
    case None => None
    case Some(text) => Some(head + text)
  }

  /** How many one-bits the byte starts with (5 stands for five or more). */
  function LeadingOnes(b: Byte): nat {
    if b < 0x80 then 0 else if b < 0xC0 then 1 else if b < 0xE0 then 2
    else if b < 0xF0 then 3 else if b < 0xF8 then 4 else 5
  }

  function Smallest(n: nat): int { if n == 2 then 0x80 else if n == 3 then 0x800 else 0x1_0000 }

  /**
    A group of two to four octets is a character when it is all tails after the first, in shortest
    form, and a scalar value.
    */
  predicate ValidOctets(octets: seq<Byte>)
    requires 2 <= |octets| <= 4
  {
    && (forall i | 1 <= i < |octets| :: Tail(octets[i]))
    && Smallest(|octets|) <= CodeValue(octets)
    && ScalarValue(CodeValue(octets))
  }

  lemma FrontIsScalar(bytes: seq<Byte>)
    ensures var n := FrontLength(bytes); n > 0 ==> ScalarValue(CodeValue(bytes[..n]))
  {}

  /** The two definitions of a multi-byte character pick out the same byte strings. */
  lemma GrammarMatchesShortestForm(bytes: seq<Byte>, n: nat)
    requires bytes != [] && n == LeadingOnes(bytes[0]) && 2 <= n <= 4
    ensures FrontLength(bytes) == n <==> n <= |bytes| && ValidOctets(bytes[..n])
    ensures FrontLength(bytes) in {0, n}
  {
    if n <= |bytes| {
      var o := bytes[..n];
      assert forall i | 0 <= i < n :: o[i] == bytes[i];
      assert ValidOctets(o) ==> Tail(o[1]);
      if n >= 3 { assert ValidOctets(o) ==> Tail(o[2]); }
      if n == 4 { assert ValidOctets(o) ==> Tail(o[3]); }
    }
  }

  // ---- and both undo the encoding

  /** The encoding of one scalar value, section 3 of RFC 3629. */
  function Encode(v: int): (bytes: seq<Byte>)
    requires ScalarValue(v)
    ensures 1 <= |bytes| <= 4
  {
    var a := v / 0x40;
    var b := a / 0x40;
    if v < 0x80 then [v]
    else if v < 0x800 then [0xC0 + a, 0x80 + v % 0x40]
    else if v < 0x1_0000 then [0xE0 + b, 0x80 + a % 0x40, 0x80 + v % 0x40]
    else [0xF0 + b / 0x40, 0x80 + b % 0x40, 0x80 + a % 0x40, 0x80 + v % 0x40]
  }

  /** The code value of an encoding is the scalar value it encodes. */
  lemma EncodedValue(v: int)
    requires ScalarValue(v)
    ensures CodeValue(Encode(v)) == v
  {}

  /** The grammar takes all of an encoding and nothing after it. */
  lemma EncodedIsRead(v: int, rest: seq<Byte>)
    requires ScalarValue(v)
    ensures FrontLength(Encode(v) + rest) == |Encode(v)|
  {
    var bytes := Encode(v);
    FrontOfEncoded(v);
    SameFront(bytes, rest);
  }

  lemma FrontOfEncoded(v: int)
    requires ScalarValue(v)
    ensures FrontLength(Encode(v)) == |Encode(v)|
  {}

  lemma SameFront(bytes: seq<Byte>, rest: seq<Byte>)
    requires FrontLength(bytes) == |bytes| > 0
    ensures FrontLength(bytes + rest) == |bytes|
  {
    assert forall i | 0 <= i < |bytes| :: (bytes + rest)[i] == bytes[i];
  }

  function EncodeAll(text: string): seq<Byte> {
    if text == [] then [] else Encode(text[0] as int) + EncodeAll(text[1..])
  }

  /** Strict decoding undoes the encoding of any text. */
  lemma {:induction false} StrictRoundTrip(text: string)
    ensures DecodeStrict(EncodeAll(text)) == Some(text)
  {
    if text != [] {
      var v := text[0] as int;
      var bytes, rest := Encode(v), EncodeAll(text[1..]);
      EncodedIsRead(v, rest);
      EncodedValue(v);
      StrictRoundTrip(text[1..]);
      assert (bytes + rest)[..|bytes|] == bytes && (bytes + rest)[|bytes|..] == rest;
      assert [text[0]] + text[1..] == text;
      hide Encode, CodeValue, FrontLength;
    }
  }
}
