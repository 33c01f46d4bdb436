/** Decoding one UTF-8 character, as the host name encoder does it. */
module Utf8 {
  import opened Util

  predicate Bytes(b: seq<nat>) {
    forall i :: 0 <= i < |b| ==> b[i] < 256
  }

  /** The two high bits of the exclusive or of three bytes. */
  function XorTop(b: nat, c: nat, d: nat): nat {
    (b / 128 + c / 128 + d / 128) % 2 * 2 + (b / 64 + c / 64 + d / 64) % 2
  }

  /** The end of a multi-byte sequence: continuation bytes, then the ranges. */
  function Finish(a: nat, b: nat, c: nat, d: nat, min: nat): Option<nat> {
    if XorTop(b, c, d) != 2 then None
    else
      var v := a * 0x40000 + b % 64 * 0x1000 + c % 64 * 0x40 + d % 64;
      if v < min || v > 0x10FFFF || 0xD800 <= v <= 0xDFFF then None else Some(v)
  }

  /** uv__utf8_decode1: the character at `p` and where the next one begins. A lead byte
      with too few bytes behind it is taken for a shorter one. */
  function Decode1(s: seq<nat>, p: nat, pe: nat): (r: Option<(nat, nat)>)
    requires p < pe <= |s|
    ensures r.Some? ==> p < r.value.1 <= pe && (r.value.0 <= 0x10FFFF || s[p] == r.value.0)
  {
    var a, rest := s[p], pe - p - 1;
    if a < 128 then Some((a, p + 1))
    else if a > 0xF7 then None
    else if rest >= 3 && a > 0xEF then
      match Finish(a % 8, s[p + 1], s[p + 2], s[p + 3], 0x10000)
      case None => None
      case Some(v) => Some((v, p + 4))
    else if rest >= 2 && a > 0xDF then
      match Finish(0, 0x80 + a % 16, s[p + 1], s[p + 2], 0x800)
      case None => None
      case Some(v) => Some((v, p + 3))
    else if rest >= 1 && a > 0xBF then
      match Finish(0, 0x80, 0x80 + a % 32, s[p + 1], 0x80)
      case None => None
      case Some(v) => Some((v, p + 2))
    else None
  }

  /** All the characters from `p` to `pe`, if every one of them is legal. */
  function Points(s: seq<nat>, p: nat, pe: nat): (r: Option<seq<nat>>)
    requires p <= pe <= |s|
    decreases pe - p
  {
    if p == pe then Some([])
    else
      match Decode1(s, p, pe)
      case None => None
      case Some((c, p1)) =>
        match Points(s, p1, pe)
        case None => None
        case Some(cs) => Some([c] + cs)
  }

  /** Characters a byte sequence can hold. */
  lemma {:induction false} PointsRange(s: seq<nat>, p: nat, pe: nat)
    requires p <= pe <= |s| && Bytes(s) && Points(s, p, pe).Some?
    ensures forall c :: c in Points(s, p, pe).value ==> c <= 0x10FFFF
    ensures |Points(s, p, pe).value| <= pe - p
    decreases pe - p
  {
    if p < pe {
      var p1 := Decode1(s, p, pe).value.1;
      PointsRange(s, p1, pe);
    }
  }

  /** The bytes of a Unicode scalar value, section 3 of RFC 3629. */
  function Encode(c: nat): seq<nat> {
    if c < 0x80 then [c]
    else if c < 0x800 then [0xC0 + c / 64, 0x80 + c % 64]
    else if c < 0x10000 then [0xE0 + c / 4096, 0x80 + c / 64 % 64, 0x80 + c % 64]
    else [0xF0 + c / 262144, 0x80 + c / 4096 % 64, 0x80 + c / 64 % 64, 0x80 + c % 64]
  }

  predicate Scalar(c: nat) {
    c <= 0x10FFFF && !(0xD800 <= c <= 0xDFFF)
  }

  function EncodeAll(cs: seq<nat>): seq<nat> {
    if cs == [] then [] else Encode(cs[0]) + EncodeAll(cs[1..])
  }

  /** A well-formed character is decoded to itself, whatever follows it. */
  lemma DecodeEncoded(s: seq<nat>, p: nat, c: nat)
    requires Scalar(c) && p + |Encode(c)| <= |s| && s[p..p + |Encode(c)|] == Encode(c)
    ensures Decode1(s, p, |s|) == Some((c, p + |Encode(c)|))
  {
    hide Finish;
    var e := Encode(c);
    forall i | 0 <= i < |e| ensures e[i] == s[p + i] {
      assert s[p..p + |e|][i] == s[p + i];
    }
    if c >= 0x10000 {
      FourBytes(c);
      assert s[p] == e[0] && s[p + 1] == e[1] && s[p + 2] == e[2] && s[p + 3] == e[3];
    } else if c >= 0x800 {
      ThreeBytes(c);
      assert s[p] == e[0] && s[p + 1] == e[1] && s[p + 2] == e[2];
    } else if c >= 0x80 {
      TwoBytes(c);
      assert s[p] == e[0] && s[p + 1] == e[1];
    }
  }

  lemma Tail(x: nat)
    requires x < 64
    ensures (0x80 + x) / 128 == 1 && (0x80 + x) / 64 == 2 && (0x80 + x) % 64 == x
  {
  }

  lemma FinishTails(a: nat, b: nat, c: nat, d: nat, min: nat)
    requires b < 64 && c < 64 && d < 64
    ensures var v := a * 0x40000 + b * 0x1000 + c * 0x40 + d;
      min <= v && Scalar(v) ==> Finish(a, 0x80 + b, 0x80 + c, 0x80 + d, min) == Some(v)
  {
    Tail(b);
    Tail(c);
    Tail(d);
  }

  lemma Split64(c: nat)
    ensures c == c / 64 * 64 + c % 64 && c % 64 < 64 && c / 4096 == c / 64 / 64 && c / 262144 == c / 64 / 64 / 64
  {
  }

  lemma FourBytes(c: nat)
    requires 0x10000 <= c && Scalar(c)
    ensures var a := 0xF0 + c / 262144; 0xEF < a <= 0xF7 && a % 8 == c / 262144
    ensures Finish(c / 262144, 0x80 + c / 4096 % 64, 0x80 + c / 64 % 64, 0x80 + c % 64, 0x10000) == Some(c)
  {
    Split64(c);
    Split64(c / 64);
    Split64(c / 64 / 64);
    FinishTails(c / 262144, c / 4096 % 64, c / 64 % 64, c % 64, 0x10000);
  }

  lemma ThreeBytes(c: nat)
    requires 0x800 <= c < 0x10000 && Scalar(c)
    ensures var a := 0xE0 + c / 4096; 0xDF < a <= 0xEF && a % 16 == c / 4096
    ensures Finish(0, 0x80 + c / 4096, 0x80 + c / 64 % 64, 0x80 + c % 64, 0x800) == Some(c)
  {
    Split64(c);
    Split64(c / 64);
    FinishTails(0, c / 4096, c / 64 % 64, c % 64, 0x800);
  }

  lemma TwoBytes(c: nat)
    requires 0x80 <= c < 0x800
    ensures var a := 0xC0 + c / 64; 0xBF < a <= 0xDF && a % 32 == c / 64
    ensures Finish(0, 0x80, 0x80 + c / 64, 0x80 + c % 64, 0x80) == Some(c)
  {
    Split64(c);
    FinishTails(0, 0, c / 64, c % 64, 0x80);
  }

  /** Well-formed text is decoded to its characters. */
  lemma {:induction false} PointsEncoded(s: seq<nat>, p: nat, cs: seq<nat>)
    requires (forall c :: c in cs ==> Scalar(c)) && p <= |s| && s[p..] == EncodeAll(cs)
    ensures Points(s, p, |s|) == Some(cs)
    decreases |cs|
  {
    hide Encode, Decode1;
    if cs != [] {
      var e, rest := Encode(cs[0]), EncodeAll(cs[1..]);
      EncodeSize(cs[0]);
      TakeDrop(s, p, e, rest);
      DecodeEncoded(s, p, cs[0]);
      PointsEncoded(s, p + |e|, cs[1..]);
      assert cs == [cs[0]] + cs[1..];
    }
  }

  lemma EncodeSize(c: nat)
    ensures 1 <= |Encode(c)| <= 4
  {
  }

  lemma TakeDrop(s: seq<nat>, p: nat, e: seq<nat>, rest: seq<nat>)
    requires p <= |s| && s[p..] == e + rest
    ensures p + |e| <= |s| && s[p..p + |e|] == e && s[p + |e|..] == rest
  {
    assert s[p..p + |e|] == s[p..][..|e|];
    assert s[p + |e|..] == s[p..][|e|..];
  }
}
