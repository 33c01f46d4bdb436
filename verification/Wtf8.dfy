/** WTF-8 and UTF-16: the conversions of libuv in both directions. */
module Wtf8 {
  import opened Util
  import opened Utf8

  const ENOBUFS := -105

  predicate IsLead(u: nat) { 0xD800 <= u <= 0xDBFF }

  predicate IsTrail(u: nat) { 0xDC00 <= u <= 0xDFFF }

  function Combine(u: nat, v: nat): (c: nat)
    requires IsLead(u) && IsTrail(v)
    ensures 0x10000 <= c <= 0x10FFFF
  {
    0x10000 + (u - 0xD800) * 0x400 + (v - 0xDC00)
  }

  predicate Words(u: seq<nat>) {
    forall i :: 0 <= i < |u| ==> u[i] < 0x10000
  }

  /** The code points of UTF-16 text, unpaired surrogates included. */
  function Points16(u: seq<nat>): seq<nat>
    decreases |u|
  {
    if u == [] then []
    else if |u| >= 2 && IsLead(u[0]) && IsTrail(u[1]) then [Combine(u[0], u[1])] + Points16(u[2..])
    else [u[0]] + Points16(u[1..])
  }

  /** The units of a code point. */
  function Units(c: nat): seq<nat> {
    if c > 0xFFFF then [(c - 0x10000) / 0x400 + 0xD800, (c - 0x10000) % 0x400 + 0xDC00] else [c]
  }

  function UnitsAll(cs: seq<nat>): seq<nat> {
    if cs == [] then [] else Units(cs[0]) + UnitsAll(cs[1..])
  }

  lemma UnitsCombine(u: nat, v: nat)
    requires IsLead(u) && IsTrail(v)
    ensures Units(Combine(u, v)) == [u, v]
  {
  }

  /** Taking UTF-16 apart loses nothing. */
  lemma {:induction false} UnitsPoints(u: seq<nat>)
    requires Words(u)
    ensures UnitsAll(Points16(u)) == u
    ensures forall c: nat :: c in Points16(u) ==> c <= 0x10FFFF
    decreases |u|
  {
    hide Units, Combine, UnitsAll;
    if u == [] {
      assert UnitsAll([]) == [] by { UnitsNone(); }
    } else if |u| >= 2 && IsLead(u[0]) && IsTrail(u[1]) {
      UnitsPoints(u[2..]);
      UnitsCombine(u[0], u[1]);
      UnitsCons(Combine(u[0], u[1]), Points16(u[2..]));
      assert u == [u[0], u[1]] + u[2..];
    } else {
      UnitsPoints(u[1..]);
      UnitsLow(u[0]);
      UnitsCons(u[0], Points16(u[1..]));
      assert u == [u[0]] + u[1..];
    }
  }

  lemma UnitsNone()
    ensures UnitsAll([]) == []
  {
  }

  lemma UnitsCons(c: nat, cs: seq<nat>)
    ensures UnitsAll([c] + cs) == Units(c) + UnitsAll(cs)
  {
    assert ([c] + cs)[1..] == cs;
  }

  lemma {:induction false} UnitsJoin(a: seq<nat>, b: seq<nat>)
    ensures UnitsAll(a + b) == UnitsAll(a) + UnitsAll(b)
  {
    if a == [] {
      assert a + b == b;
    } else {
      assert (a + b)[1..] == a[1..] + b;
      UnitsJoin(a[1..], b);
    }
  }

  lemma {:induction false} EncodeJoin(a: seq<nat>, b: seq<nat>)
    ensures EncodeAll(a + b) == EncodeAll(a) + EncodeAll(b)
  {
    if a == [] {
      assert a + b == b;
    } else {
      assert (a + b)[1..] == a[1..] + b;
      EncodeJoin(a[1..], b);
    }
  }

  // Reading WTF-8

  predicate Cont(b: nat) { b / 64 == 2 }

  /** Text ends with its first NUL. */
  predicate Terminated(s: seq<nat>) {
    s != [] && s[|s| - 1] == 0
  }

  /** uv__wtf8_decode1: a code point and the place of its last byte. */
  function Decode1W(s: seq<nat>, i: nat): (r: Option<(nat, nat)>)
    requires i < |s| && Terminated(s)
    ensures r.Some? ==> i <= r.value.1 < |s| && r.value.0 <= 0x10FFFF
    ensures r.Some? && s[r.value.1] != 0 ==> r.value.1 + 1 < |s|
  {
    var b1 := s[i];
    if b1 <= 0x7F then Some((b1, i))
    else if b1 < 0xC2 || !Cont(s[i + 1]) then None
    else if b1 <= 0xDF then Some((b1 % 32 * 64 + s[i + 1] % 64, i + 1))
    else if !Cont(s[i + 2]) then None
    else if b1 <= 0xEF then Some((b1 % 16 * 4096 + s[i + 1] % 64 * 64 + s[i + 2] % 64, i + 2))
    else if !Cont(s[i + 3]) then None
    else
      var c := b1 % 8 * 262144 + s[i + 1] % 64 * 4096 + s[i + 2] % 64 * 64 + s[i + 3] % 64;
      if b1 <= 0xF4 && c <= 0x10FFFF then Some((c, i + 3)) else None
  }

  /** All code points from `i` to the terminator, which is one of them. */
  function PointsW(s: seq<nat>, i: nat): Option<seq<nat>>
    requires i < |s| && Terminated(s)
    decreases |s| - i
  {
    match Decode1W(s, i)
    case None => None
    case Some((c, j)) =>
      if s[j] == 0 then Some([c])
      else
        match PointsW(s, j + 1)
        case None => None
        case Some(cs) => Some([c] + cs)
  }

  /** uv_wtf8_length_as_utf16. */
  method Wtf8LengthAsUtf16(s: seq<nat>) returns (len: int)
    requires Terminated(s)
    ensures len == -1 <==> PointsW(s, 0) == None
    ensures len != -1 ==> len == |UnitsAll(PointsW(s, 0).value)|
  {
    hide Decode1W, Units;
    len := 0;
    var i, more := 0, true;
    ghost var done: seq<nat>, good := [], PointsW(s, 0).Some?;
    while more
      invariant len >= 0 && len == |UnitsAll(done)|
      invariant more ==> i < |s|
      invariant more && good ==> PointsW(s, i).Some? && PointsW(s, 0).value == done + PointsW(s, i).value
      invariant more && !good ==> PointsW(s, i) == None
      invariant !more ==> good && PointsW(s, 0).value == done
      decreases |s| - i, more
    {
      var next := Decode1W(s, i);
      if next == None {
        len := -1;
        return;
      }
      var c, j := next.value.0, next.value.1;
      if c > 0xFFFF { len := len + 1; }
      len := len + 1;
      OneMore(done, c);
      ghost var rest := if good && s[j] != 0 then PointsW(s, j + 1).value else [];
      assert done + ([c] + rest) == done + [c] + rest;
      done := done + [c];
      more := s[j] != 0;
      i := j + 1;
    }
  }

  lemma OneMore(done: seq<nat>, c: nat)
    ensures UnitsAll(done + [c]) == UnitsAll(done) + Units(c)
    ensures |Units(c)| == if c > 0xFFFF then 2 else 1
  {
    UnitsJoin(done, [c]);
    assert [c][1..] == [] && UnitsAll([c]) == Units(c) + [];
  }

  /** One code point further. */
  lemma ReadOne(s: seq<nat>, i: nat, done: seq<nat>, cs: seq<nat>)
    requires Terminated(s) && i < |s| && PointsW(s, i).Some? && cs == done + PointsW(s, i).value
    ensures Decode1W(s, i).Some?
    ensures var (c, j) := Decode1W(s, i).value;
      && c in cs && |UnitsAll(done)| + |Units(c)| <= |UnitsAll(cs)|
      && UnitsAll(done + [c]) == UnitsAll(done) + Units(c)
      && (s[j] == 0 ==> cs == done + [c])
      && (s[j] != 0 ==> j + 1 < |s| && PointsW(s, j + 1).Some? && cs == done + [c] + PointsW(s, j + 1).value)
  {
    hide Decode1W, Units;
    var (c, j) := Decode1W(s, i).value;
    var rest := if s[j] != 0 then PointsW(s, j + 1).value else [];
    assert cs == (done + [c]) + rest && (done + [c])[|done|] == c;
    UnitsJoin(done + [c], rest);
    OneMore(done, c);
  }

  /** uv_wtf8_to_utf16, on a buffer of the length above. */
  method Wtf8ToUtf16(s: seq<nat>, target: array<nat>)
    requires Terminated(s) && PointsW(s, 0).Some?
    requires target.Length == |UnitsAll(PointsW(s, 0).value)|
    requires 0x10FFFF !in PointsW(s, 0).value
    modifies target
    ensures target[..] == UnitsAll(PointsW(s, 0).value)
  {
    hide Decode1W, Units, PointsW, UnitsAll;
    var i, w, more := 0, 0, true;
    ghost var cs, done: seq<nat> := PointsW(s, 0).value, [];
    UnitsNone();
    while more
      invariant more ==> i < |s| && PointsW(s, i).Some? && cs == done + PointsW(s, i).value
      invariant !more ==> cs == done
      invariant w == |UnitsAll(done)| <= target.Length && target[..w] == UnitsAll(done)
      decreases |s| - i, more
    {
      ReadOne(s, i, done, cs);
      var next := Decode1W(s, i);
      var c, j := next.value.0, next.value.1;
      assert c > 0xFFFF ==> c < 0x10FFFF;
      w := WriteUnits(target, w, c);
      done := done + [c];
      more := s[j] != 0;
      i := j + 1;
    }
  }

  method WriteUnits(target: array<nat>, w: nat, c: nat) returns (w1: nat)
    requires w + |Units(c)| <= target.Length
    modifies target
    ensures w1 == w + |Units(c)| && target[..w1] == old(target[..w]) + Units(c)
  {
    if c > 0xFFFF {
      target[w] := (c - 0x10000) / 0x400 + 0xD800;
      target[w + 1] := (c - 0x10000) % 0x400 + 0xDC00;
      w1 := w + 2;
    } else {
      target[w] := c;
      w1 := w + 1;
    }
  }

  lemma UnitsLow(c: nat)
    requires c <= 0xFFFF
    ensures Units(c) == [c]
  {
  }

  lemma ByteAt(s: seq<nat>, i: nat, e: seq<nat>, k: nat)
    requires i + |e| <= |s| && s[i..i + |e|] == e && k < |e|
    ensures s[i + k] == e[k]
  {
    assert s[i..i + |e|][k] == s[i + k];
  }

  lemma DecodeFour(s: seq<nat>, i: nat, c: nat)
    requires Terminated(s) && 0x10000 <= c <= 0x10FFFF && i + 4 <= |s|
    requires s[i] == 0xF0 + c / 262144 && s[i + 1] == 0x80 + c / 4096 % 64 && s[i + 2] == 0x80 + c / 64 % 64
      && s[i + 3] == 0x80 + c % 64
    ensures Decode1W(s, i) == Some((c, i + 3)) && s[i + 3] != 0
  {
    Split64(c);
    Split64(c / 64);
    Split64(c / 64 / 64);
    Tail(c / 4096 % 64);
    Tail(c / 64 % 64);
    Tail(c % 64);
    var top := c / 262144;
    assert top <= 4 && (0xF0 + top) % 8 == top;
  }

  lemma DecodeThree(s: seq<nat>, i: nat, c: nat)
    requires Terminated(s) && 0x800 <= c < 0x10000 && i + 3 <= |s|
    requires s[i] == 0xE0 + c / 4096 && s[i + 1] == 0x80 + c / 64 % 64 && s[i + 2] == 0x80 + c % 64
    ensures Decode1W(s, i) == Some((c, i + 2)) && s[i + 2] != 0
  {
    Split64(c);
    Split64(c / 64);
    Tail(c / 64 % 64);
    Tail(c % 64);
    var top := c / 4096;
    assert top <= 15 && (0xE0 + top) % 16 == top;
  }

  lemma DecodeTwo(s: seq<nat>, i: nat, c: nat)
    requires Terminated(s) && 0x80 <= c < 0x800 && i + 2 <= |s|
    requires s[i] == 0xC0 + c / 64 && s[i + 1] == 0x80 + c % 64
    ensures Decode1W(s, i) == Some((c, i + 1)) && s[i + 1] != 0
  {
    Split64(c);
    Tail(c % 64);
    var top := c / 64;
    assert 2 <= top <= 31 && (0xC0 + top) % 32 == top;
  }

  /** A code point, surrogates included, is read as it was written. */
  lemma DecodeWritten(s: seq<nat>, i: nat, c: nat)
    requires Terminated(s) && c <= 0x10FFFF && i + |Encode(c)| <= |s| && s[i..i + |Encode(c)|] == Encode(c)
    ensures Decode1W(s, i) == Some((c, i + |Encode(c)| - 1)) && (c != 0 ==> s[i + |Encode(c)| - 1] != 0)
  {
    hide Decode1W;
    var e := Encode(c);
    forall k | 0 <= k < |e| ensures e[k] == s[i + k] {
      ByteAt(s, i, e, k);
    }
    if c >= 0x10000 {
      assert e[1] == s[i + 1] && e[2] == s[i + 2] && e[3] == s[i + 3];
      DecodeFour(s, i, c);
    } else if c >= 0x800 {
      assert e[1] == s[i + 1] && e[2] == s[i + 2];
      DecodeThree(s, i, c);
    } else if c >= 0x80 {
      assert e[1] == s[i + 1];
      DecodeTwo(s, i, c);
    } else {
      assert e[0] == s[i + 0];
      DecodeOne(s, i);
    }
  }

  lemma DecodeOne(s: seq<nat>, i: nat)
    requires Terminated(s) && i < |s| && s[i] < 0x80
    ensures Decode1W(s, i) == Some((s[i], i))
  {
  }

  /** WTF-8 text is read back to its code points and the terminator. */
  lemma {:induction false} PointsWritten(s: seq<nat>, i: nat, cs: seq<nat>)
    requires (forall c: nat :: c in cs ==> 0 < c <= 0x10FFFF) && i <= |s| && s[i..] == EncodeAll(cs) + [0]
    ensures Terminated(s) && i < |s| && PointsW(s, i) == Some(cs + [0])
    decreases |cs|
  {
    hide Encode, Decode1W;
    assert |s[i..]| == |EncodeAll(cs)| + 1;
    assert s[i..][|EncodeAll(cs)|] == 0;
    if cs == [] {
      DecodeOne(s, i);
      assert [] + [0] == [0];
    } else {
      assert cs[0] in cs;
      forall c: nat | c in cs[1..] ensures 0 < c <= 0x10FFFF { assert c in cs; }
      var e, rest := Encode(cs[0]), EncodeAll(cs[1..]) + [0];
      EncodeSize(cs[0]);
      assert s[i..] == e + rest;
      TakeDrop(s, i, e, rest);
      DecodeWritten(s, i, cs[0]);
      PointsWritten(s, i + |e|, cs[1..]);
      assert cs + [0] == [cs[0]] + (cs[1..] + [0]);
    }
  }

  /** The round trip on values: NUL-free UTF-16 text, unpaired surrogates included. */
  lemma RoundTrip(u: seq<nat>)
    requires Words(u) && 0 !in u
    ensures var s := EncodeAll(Points16(u)) + [0];
      PointsW(s, 0) == Some(Points16(u) + [0]) && UnitsAll(PointsW(s, 0).value) == u + [0]
  {
    hide Encode, Decode1W, Points16, Units;
    var cs := Points16(u);
    UnitsPoints(u);
    NoNul(u);
    var s := EncodeAll(cs) + [0];
    assert s[0..] == s;
    PointsWritten(s, 0, cs);
    OneMore(cs, 0);
    UnitsLow(0);
  }

  lemma {:induction false} NoNul(u: seq<nat>)
    requires 0 !in u
    ensures 0 !in Points16(u)
    decreases |u|
  {
    if u == [] {
    } else if |u| >= 2 && IsLead(u[0]) && IsTrail(u[1]) {
      NoNul(u[2..]);
    } else {
      assert u[0] in u;
      NoNul(u[1..]);
    }
  }

  // Writing WTF-8

  /** `r` units from `i`, or when `r` is negative those before the next NUL. */
  predicate Readable(u: seq<nat>, i: nat, r: int) {
    if r >= 0 then i + r <= |u| else i < |u| && Terminated(u)
  }

  function Text16(u: seq<nat>, i: nat, r: int): seq<nat>
    requires Readable(u, i, r)
    decreases |u| - i
  {
    if r >= 0 then u[i..i + r] else if u[i] == 0 then [] else [u[i]] + Text16(u, i + 1, r)
  }

  /** uv__get_surrogate_value. */
  function SurrogateValue(u: seq<nat>, i: nat, r: int): nat
    requires Readable(u, i, r) && r != 0
  {
    if IsLead(u[i]) && r != 1 && IsTrail(u[i + 1]) then Combine(u[i], u[i + 1]) else u[i]
  }

  predicate AtEnd(u: seq<nat>, i: nat, r: int)
    requires Readable(u, i, r)
  {
    r == 0 || (r < 0 && SurrogateValue(u, i, r) == 0)
  }

  /** Text that is left, and its length as WTF-8. */
  function Left(u: seq<nat>, i: nat, r: int): seq<nat>
    requires Readable(u, i, r)
  {
    EncodeAll(Points16(Text16(u, i, r)))
  }

  function Advance(c: nat): nat { if c >= 0x10000 then 2 else 1 }

  lemma Step16(u: seq<nat>, i: nat, r: int)
    requires Readable(u, i, r) && Words(u)
    ensures AtEnd(u, i, r) ==> Left(u, i, r) == []
    ensures !AtEnd(u, i, r) ==>
      var c := SurrogateValue(u, i, r);
      var k := Advance(c);
      var r1 := if r > 0 then r - k else r;
      && Readable(u, i + k, r1) && (r > 0 ==> r1 >= 0)
      && Points16(Text16(u, i, r)) == [c] + Points16(Text16(u, i + k, r1))
      && Left(u, i, r) == Encode(c) + Left(u, i + k, r1)
  {
    hide Encode;
    if !AtEnd(u, i, r) {
      var c := SurrogateValue(u, i, r);
      var k := Advance(c);
      var r1 := if r > 0 then r - k else r;
      var t := Text16(u, i, r);
      if k == 2 {
        assert t[..2] == [u[i], u[i + 1]] && t[2..] == Text16(u, i + 2, r1);
      } else {
        assert t[0] == u[i] && t[1..] == Text16(u, i + 1, r1);
      }
      var rest := Points16(Text16(u, i + k, r1));
      assert ([c] + rest)[1..] == rest;
    }
  }

  /** uv_utf16_length_as_wtf8. */
  method Utf16LengthAsWtf8(u: seq<nat>, i0: nat, r0: int) returns (len: nat)
    requires Readable(u, i0, r0) && Words(u)
    ensures len == |Left(u, i0, r0)|
  {
    hide Text16, Points16;
    len := 0;
    var i, r := i0, r0;
    while r != 0
      invariant Readable(u, i, r) && len + |Left(u, i, r)| == |Left(u, i0, r0)|
      decreases |u| - i
    {
      var c := SurrogateValue(u, i, r);
      Step16(u, i, r);
      if r < 0 && c == 0 { return; }
      if c < 0x80 {
        len := len + 1;
      } else if c < 0x800 {
        len := len + 2;
      } else if c < 0x10000 {
        len := len + 3;
      } else {
        len := len + 4;
        i := i + 1;
        if r > 0 { r := r - 1; }
      }
      i := i + 1;
      if r > 0 { r := r - 1; }
    }
    Step16(u, i, r);
  }

  /** The bytes of a character of two to four bytes, until the target is full. */
  method WriteTwo(target: array<nat>, end: nat, w0: nat, b0: nat, b1: nat) returns (w: nat, full: bool)
    requires w0 < end < target.Length
    modifies target
    ensures full <==> w0 + 2 > end
    ensures w == if full then end else w0 + 2
    ensures target[..w] == old(target[..w0]) + [b0, b1][..w - w0]
  {
    w, full := w0, true;
    target[w] := b0;
    w := w + 1;
    if w == end { return; }
    target[w] := b1;
    w := w + 1;
    full := false;
  }

  method WriteThree(target: array<nat>, end: nat, w0: nat, b0: nat, b1: nat, b2: nat) returns (w: nat, full: bool)
    requires w0 < end < target.Length
    modifies target
    ensures full <==> w0 + 3 > end
    ensures w == if full then end else w0 + 3
    ensures target[..w] == old(target[..w0]) + [b0, b1, b2][..w - w0]
  {
    w, full := w0, true;
    target[w] := b0;
    w := w + 1;
    if w == end { return; }
    target[w] := b1;
    w := w + 1;
    if w == end { return; }
    target[w] := b2;
    w := w + 1;
    full := false;
  }

  method WriteFour(target: array<nat>, end: nat, w0: nat, b0: nat, b1: nat, b2: nat, b3: nat)
    returns (w: nat, full: bool)
    requires w0 < end < target.Length
    modifies target
    ensures full <==> w0 + 4 > end
    ensures w == if full then end else w0 + 4
    ensures target[..w] == old(target[..w0]) + [b0, b1, b2, b3][..w - w0]
  {
    w, full := w0, true;
    target[w] := b0;
    w := w + 1;
    if w == end { return; }
    target[w] := b1;
    w := w + 1;
    if w == end { return; }
    target[w] := b2;
    w := w + 1;
    if w == end { return; }
    target[w] := b3;
    w := w + 1;
    full := false;
  }

  /** The bytes of one code point, as many of them as there is room for; `full` says that
      the last ones were left out. */
  method WriteChar(target: array<nat>, end: nat, w0: nat, c: nat) returns (w: nat, full: bool)
    requires w0 < end < target.Length && c <= 0x10FFFF
    modifies target
    ensures full <==> w0 + |Encode(c)| > end
    ensures w == (if full then end else w0 + |Encode(c)|)
    ensures target[..w] == old(target[..w0]) + Encode(c)[..w - w0]
  {
    if c < 0x80 {
      target[w0] := c;
      w, full := w0 + 1, false;
    } else if c < 0x800 {
      w, full := WriteTwo(target, end, w0, 0xC0 + c / 64, 0x80 + c % 64);
    } else if c < 0x10000 {
      w, full := WriteThree(target, end, w0, 0xE0 + c / 4096, 0x80 + c / 64 % 64, 0x80 + c % 64);
    } else {
      w, full := WriteFour(target, end, w0, 0xF0 + c / 262144, 0x80 + c / 4096 % 64, 0x80 + c / 64 % 64, 0x80 + c % 64);
    }
  }

  /** Does the first character fit? */
  predicate FirstFits(cs: seq<nat>, capacity: nat) {
    capacity == 0 || cs == [] || |Encode(cs[0])| <= capacity
  }

  lemma Written(text: seq<nat>, w0: nat, e: seq<nat>, rest: seq<nat>, before: seq<nat>, after: seq<nat>, w: nat)
    requires w0 <= |text| && text == text[..w0] + (e + rest) && before == text[..w0]
    requires w0 <= w <= w0 + |e| && after == before + e[..w - w0]
    ensures w0 + |e| <= |text| && after == text[..w]
    ensures w == w0 + |e| ==> text == text[..w] + rest
  {
    assert text[..w0 + |e|] == text[..w0] + e;
    assert text[..w] == text[..w0] + e[..w - w0];
    assert text[w0..] == e + rest && text[w0 + |e|..] == text[w0..][|e|..] == rest;
  }

  /** The main loop: how far it gets, and what is left when the buffer is full. */
  method Fill(u: seq<nat>, r0: int, target: array<nat>, capacity: nat)
    returns (w: nat, i: nat, r: int, targetLen: nat)
    requires Readable(u, 0, r0) && Words(u) && target.Length == capacity + 1
    modifies target
    ensures var text := Left(u, 0, r0);
      && w <= capacity && w <= |text| && target[..w] == text[..w]
      && (w < capacity ==> r == 0 && w == |text|)
      && (w == capacity ==>
          && Readable(u, i, r) && (r == 0 ==> w == |text|) && (r > 0 ==> w < |text|)
          && (r < 0 ==> (u[i] == 0 <==> w == |text|))
          && (r != 0 ==>
            targetLen + |Left(u, i, r)| == if FirstFits(Points16(Text16(u, 0, r0)), capacity) then |text|
            else capacity + |text|))
  {
    hide Text16, Points16, Encode, EncodeAll, Left, SurrogateValue, AtEnd, Readable, Words;
    w, i, r, targetLen := 0, 0, r0, capacity;
    ghost var text, cs := Left(u, 0, r0), Points16(Text16(u, 0, r0));
    assert text[..0] + Left(u, 0, r0) == text;
    Step16(u, 0, r0);
    while w != capacity && r != 0
      invariant Readable(u, i, r) && w <= capacity && w <= |text|
      invariant text == text[..w] + Left(u, i, r) && target[..w] == text[..w]
      invariant i == 0 ==> w == 0 && targetLen == capacity && r == r0
      invariant i > 0 ==> targetLen == w && FirstFits(cs, capacity)
      decreases |u| - i
    {
      assert i < |u| by { CanRead(u, i, r); }
      var c := SurrogateValue(u, i, r);
      Step16(u, i, r);
      AtEndIs(u, i, r);
      if r < 0 && c == 0 {
        r := 0;
        EndLeft(text, w);
        return;
      }
      EncodeSize(c);
      PointRange(u, i, r);
      ghost var k := Advance(c);
      ghost var rest := Left(u, i + k, if r > 0 then r - k else r);
      ghost var w0, before := w, target[..w];
      var full;
      w, full := WriteChar(target, capacity, w, c);
      Written(text, w0, Encode(c), rest, before, target[..w], w);
      if full {
        return;
      }
      if c >= 0x10000 {
        i := i + 1;
        if r > 0 { r := r - 1; }
      }
      targetLen := w;
      i := i + 1;
      if r > 0 { r := r - 1; }
    }
    Step16(u, i, r);
    AtEndIs(u, i, r);
    if r != 0 { EncodeSize(SurrogateValue(u, i, r)); }
  }

  lemma CanRead(u: seq<nat>, i: nat, r: int)
    requires Readable(u, i, r) && r != 0
    ensures i < |u|
  {
  }

  lemma AtEndIs(u: seq<nat>, i: nat, r: int)
    requires Readable(u, i, r)
    ensures AtEnd(u, i, r) <==> r == 0 || (r < 0 && SurrogateValue(u, i, r) == 0)
    ensures r != 0 ==> i < |u| && (SurrogateValue(u, i, r) == 0 <==> u[i] == 0)
  {
  }

  lemma EndLeft(text: seq<nat>, w: nat)
    requires w <= |text| && text == text[..w] + []
    ensures w == |text|
  {
  }

  lemma PointRange(u: seq<nat>, i: nat, r: int)
    requires Readable(u, i, r) && r != 0 && Words(u)
    ensures SurrogateValue(u, i, r) <= 0x10FFFF
  {
  }

  /** uv_utf16_to_wtf8 into a buffer of `capacity` bytes and one for the terminator. When the
      text does not fit, the length reported is the length of the text exactly when the
      first character fits. */
  method Utf16ToWtf8(u: seq<nat>, r0: int, target: array<nat>, capacity: nat) returns (rc: int, len: nat)
    requires Readable(u, 0, r0) && Words(u) && target.Length == capacity + 1
    modifies target
    ensures var text := Left(u, 0, r0);
      && (|text| <= capacity ==> rc == 0 && len == |text| && target[..len + 1] == text + [0])
      && (|text| > capacity ==> rc == ENOBUFS && target[..] == text[..capacity] + [0])
      && (|text| > capacity ==>
        len == if FirstFits(Points16(Text16(u, 0, r0)), capacity) then |text| else capacity + |text|)
  {
    hide Text16, Points16, Encode, EncodeAll, Left, SurrogateValue, AtEnd, Words, FirstFits;
    var w, i, r, targetLen := Fill(u, r0, target, capacity);
    len := capacity;
    if w != capacity { len := w; }
    if r < 0 && w == capacity && u[i] == 0 { r := 0; }
    target[w] := 0;
    if r != 0 {
      var more := Utf16LengthAsWtf8(u, i, r);
      len := targetLen + more;
      rc := ENOBUFS;
    } else {
      rc := 0;
    }
  }

  /** One character of three bytes and room for one: the length reported is 4, not 3. */
  lemma FirstTooLong()
    ensures var u := [0x20AC];
      Readable(u, 0, 1) && Words(u) && |Left(u, 0, 1)| == 3 && !FirstFits(Points16(Text16(u, 0, 1)), 1)
  {
    var u := [0x20AC];
    assert u[0..1] == u && u[1..] == [];
    assert Points16(u) == [0x20AC] && Points16(u)[1..] == [];
    assert EncodeAll([0x20AC]) == Encode(0x20AC) + EncodeAll([]);
  }

  /** uv_utf16_to_wtf8 with no buffer given: it makes one of the right length. */
  method Utf16ToNewWtf8(u: seq<nat>, r0: int) returns (rc: int, target: array<nat>)
    requires Readable(u, 0, r0) && Words(u)
    ensures rc == 0 && fresh(target) && target[..] == Left(u, 0, r0) + [0]
  {
    hide Left;
    var len := Utf16LengthAsWtf8(u, 0, r0);
    target := new nat[len + 1];
    var used;
    rc, used := Utf16ToWtf8(u, r0, target, len);
  }

  /** The highest code point comes from one pair only. */
  lemma {:induction false} TopPair(u: seq<nat>)
    requires Words(u) && 0x10FFFF in Points16(u)
    ensures exists i :: 0 <= i < |u| - 1 && u[i] == 0xDBFF && u[i + 1] == 0xDFFF
    decreases |u|
  {
    if |u| >= 2 && IsLead(u[0]) && IsTrail(u[1]) {
      if Combine(u[0], u[1]) == 0x10FFFF {
        assert u[0] == 0xDBFF && u[0 + 1] == 0xDFFF;
      } else {
        TopPair(u[2..]);
        var i :| 0 <= i < |u[2..]| - 1 && u[2..][i] == 0xDBFF && u[2..][i + 1] == 0xDFFF;
        assert u[i + 2] == 0xDBFF && u[i + 2 + 1] == 0xDFFF;
      }
    } else {
      TopPair(u[1..]);
      var i :| 0 <= i < |u[1..]| - 1 && u[1..][i] == 0xDBFF && u[1..][i + 1] == 0xDFFF;
      assert u[i + 1] == 0xDBFF && u[i + 1 + 1] == 0xDFFF;
    }
  }

  /** There and back: any NUL-free text without U+10FFFF, which the way back asserts away. */
  method ThereAndBack(u: seq<nat>) returns (len: int, back: array<nat>)
    requires Words(u) && 0 !in u
    requires forall i :: 0 <= i < |u| - 1 ==> !(u[i] == 0xDBFF && u[i + 1] == 0xDFFF)
    ensures len == |u| + 1 && back[..] == u + [0]
  {
    hide PointsW, UnitsAll, EncodeAll, Points16;
    var rc, s := Utf16ToNewWtf8(u, |u|);
    assert Text16(u, 0, |u|) == u;
    RoundTrip(u);
    if 0x10FFFF in Points16(u) { TopPair(u); }
    len := Wtf8LengthAsUtf16(s[..]);
    back := new nat[len];
    Wtf8ToUtf16(s[..], back);
  }
}
