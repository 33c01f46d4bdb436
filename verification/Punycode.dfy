/** Punycode: the decoder of section 6.2 of RFC 3492, and what it makes of the integers
    and of the order in which the host name encoder writes them. */
module Punycode {
  import opened Utf8
  import opened Util

  /** Digit values 0 to 35: a to z, then 0 to 9. */
  function Alphabet(i: nat): nat {
    if i < 26 then 97 + i else 48 + i - 26
  }

  const DASH := 45

  function DigitOf(c: nat): Option<nat> {
    if 97 <= c < 123 then Some(c - 97)
    else if 65 <= c < 91 then Some(c - 65)
    else if 48 <= c < 58 then Some(c - 48 + 26)
    else None
  }

  function Threshold(k: nat, bias: nat): (t: nat)
    ensures 1 <= t <= 26
  {
    if k <= bias then 1 else if k - bias > 26 then 26 else k - bias
  }

  /** A generalized variable-length integer at the start of `ds`, and the rest. */
  function GetInt(ds: seq<nat>, k: nat, w: nat, acc: nat, bias: nat): (r: Option<(nat, seq<nat>)>)
    ensures r.Some? ==> |r.value.1| < |ds|
  {
    if ds == [] then None
    else
      match DigitOf(ds[0])
      case None => None
      case Some(digit) =>
        var t := Threshold(k, bias);
        if digit < t then Some((acc + digit * w, ds[1..]))
        else GetInt(ds[1..], k + 36, w * (36 - t), acc + digit * w, bias)
  }

  function Reduce(delta: nat, k: nat): nat {
    if delta > 455 then Reduce(delta / 35, k + 36) else k + 36 * delta / (delta + 38)
  }

  function Damped(delta: nat, points: nat, first: bool): nat
    requires points > 0
  {
    var d := if first then delta / 700 else delta / 2;
    d + d / points
  }

  /** Bias adaptation, section 6.1 of RFC 3492. */
  function Adapt(delta: nat, points: nat, first: bool): nat
    requires points > 0
  {
    Reduce(Damped(delta, points, first), 0)
  }

  datatype Decoder = Decoder(n: nat, i: nat, bias: nat, out: seq<nat>)

  /** One insertion. */
  function Insert(s: Decoder, delta: nat): Decoder {
    var size, i := |s.out| + 1, s.i + delta;
    var n, at := s.n + i / size, i % size;
    Decoder(n, at + 1, Adapt(delta, size, s.i == 0), s.out[..at] + [n] + s.out[at..])
  }

  function Run(s: Decoder, ds: seq<nat>): Option<Decoder>
    decreases |ds|
  {
    if ds == [] then Some(s)
    else
      match GetInt(ds, 36, 1, 0, s.bias)
      case None => None
      case Some((delta, rest)) => Run(Insert(s, delta), rest)
  }

  /** Position after the last delimiter, or 0. */
  function AfterDash(text: seq<nat>): (n: nat)
    ensures n <= |text|
  {
    if text == [] then 0 else if text[|text| - 1] == DASH then |text| else AfterDash(text[..|text| - 1])
  }

  /** The decoder of section 6.2: basic characters up to the last delimiter, if there are
      any before it, then insertions. */
  function Decode(text: seq<nat>): Option<seq<nat>> {
    var n := AfterDash(text);
    var basic, rest := if n > 1 then text[..n - 1] else [], if n > 1 then text[n..] else text;
    if exists i :: 0 <= i < |basic| && basic[i] >= 128 then None
    else
      match Run(Decoder(128, 0, 72, basic), rest)
      case None => None
      case Some(s) => Some(s.out)
  }

  /** The next digit of `q`, and what remains of it. */
  function NextDigit(q: nat, t: nat): (d: nat)
    requires 1 <= t <= 26 && t <= q
    ensures t <= d < 36
  {
    t + (q - t) % (36 - t)
  }

  function NextQuotient(q: nat, t: nat): (q1: nat)
    requires 1 <= t <= 26 && t <= q
    ensures q1 < q && q == NextDigit(q, t) + q1 * (36 - t) && 10 * q1 <= q
  {
    Quotient(q - t, 36 - t);
    (q - t) / (36 - t)
  }

  lemma Quotient(v: nat, y: nat)
    requires y >= 10
    ensures v == v % y + v / y * y && 10 * (v / y) <= v
  {
    assert v == v / y * y + v % y;
    Times(10, y, v / y);
  }

  /** The digits the encoder writes for `q`. */
  function Varint(q: nat, k: nat, bias: nat): seq<nat>
    decreases q
  {
    var t := Threshold(k, bias);
    if q < t then [Alphabet(q)]
    else [Alphabet(NextDigit(q, t))] + Varint(NextQuotient(q, t), k + 36, bias)
  }

  lemma AlphabetDigit(i: nat)
    requires i < 36
    ensures DigitOf(Alphabet(i)) == Some(i) && Alphabet(i) != DASH
  {
  }

  lemma VarintLast(q: nat, k: nat, bias: nat, w: nat, acc: nat, rest: seq<nat>)
    requires q < Threshold(k, bias)
    ensures GetInt(Varint(q, k, bias) + rest, k, w, acc, bias) == Some((acc + q * w, rest))
  {
    AlphabetDigit(q);
    var ds := Varint(q, k, bias) + rest;
    assert ds[0] == Alphabet(q) && ds[1..] == rest;
  }

  lemma VarintMore(q: nat, k: nat, bias: nat)
    requires q >= Threshold(k, bias)
    ensures var t := Threshold(k, bias);
      Varint(q, k, bias) == [Alphabet(NextDigit(q, t))] + Varint(NextQuotient(q, t), k + 36, bias)
  {
    hide NextDigit, NextQuotient, Threshold, Alphabet;
  }

  /** Reading a written integer gives it back. */
  lemma {:induction false} VarintRoundTrip(q: nat, k: nat, bias: nat, w: nat, acc: nat, rest: seq<nat>)
    ensures GetInt(Varint(q, k, bias) + rest, k, w, acc, bias) == Some((acc + q * w, rest))
    decreases q
  {
    hide NextDigit, NextQuotient, Threshold, Alphabet, DigitOf, GetInt, Varint;
    var t := Threshold(k, bias);
    if q < t {
      VarintLast(q, k, bias, w, acc, rest);
    } else {
      var digit, q1 := NextDigit(q, t), NextQuotient(q, t);
      var more := Varint(q1, k + 36, bias);
      var ds := Varint(q, k, bias) + rest;
      VarintMore(q, k, bias);
      AlphabetDigit(digit);
      assert ds == [Alphabet(digit)] + (more + rest);
      GetIntStep(ds, k, w, acc, bias, digit);
      VarintRoundTrip(q1, k + 36, bias, w * (36 - t), acc + digit * w, rest);
      ValueStep(q, t, w, acc);
    }
  }

  lemma GetIntStep(ds: seq<nat>, k: nat, w: nat, acc: nat, bias: nat, digit: nat)
    requires ds != [] && DigitOf(ds[0]) == Some(digit) && digit >= Threshold(k, bias)
    ensures GetInt(ds, k, w, acc, bias) == GetInt(ds[1..], k + 36, w * (36 - Threshold(k, bias)), acc + digit * w, bias)
  {
  }

  lemma ValueStep(q: nat, t: nat, w: nat, acc: nat)
    requires 1 <= t <= 26 && t <= q
    ensures (acc + NextDigit(q, t) * w) + NextQuotient(q, t) * (w * (36 - t)) == acc + q * w
  {
    hide NextDigit, NextQuotient;
    Distribute(NextDigit(q, t), NextQuotient(q, t), 36 - t, w);
  }

  lemma Distribute(a: nat, b: nat, y: nat, w: nat)
    ensures a * w + b * (w * y) == (a + b * y) * w
  {
    assert b * (w * y) == (b * y) * w;
  }

  lemma {:induction false} VarintDigits(q: nat, k: nat, bias: nat)
    ensures DASH !in Varint(q, k, bias) && Varint(q, k, bias) != []
    decreases q
  {
    var t := Threshold(k, bias);
    if q < t {
      AlphabetDigit(q);
    } else {
      AlphabetDigit(NextDigit(q, t));
      VarintDigits(NextQuotient(q, t), k + 36, bias);
    }
  }

  lemma {:induction false} GetIntMore(ds: seq<nat>, e: seq<nat>, k: nat, w: nat, acc: nat, bias: nat)
    requires GetInt(ds, k, w, acc, bias).Some?
    ensures GetInt(ds + e, k, w, acc, bias) ==
      Some((GetInt(ds, k, w, acc, bias).value.0, GetInt(ds, k, w, acc, bias).value.1 + e))
    decreases |ds|
  {
    var digit, t := DigitOf(ds[0]).value, Threshold(k, bias);
    assert (ds + e)[1..] == ds[1..] + e && (ds + e)[0] == ds[0];
    if digit >= t {
      var w1, acc1: nat := w * (36 - t), acc + digit * w;
      assert GetInt(ds, k, w, acc, bias) == GetInt(ds[1..], k + 36, w1, acc1, bias);
      assert GetInt(ds + e, k, w, acc, bias) == GetInt(ds[1..] + e, k + 36, w1, acc1, bias);
      GetIntMore(ds[1..], e, k + 36, w1, acc1, bias);
    }
  }

  /** Writing one more integer makes the decoder do one more insertion. */
  lemma {:induction false} RunMore(s: Decoder, ds: seq<nat>, delta: nat)
    requires Run(s, ds).Some?
    ensures var s1 := Run(s, ds).value; Run(s, ds + Varint(delta, 36, s1.bias)) == Some(Insert(s1, delta))
    decreases |ds|
  {
    var s1 := Run(s, ds).value;
    var e := Varint(delta, 36, s1.bias);
    VarintDigits(delta, 36, s1.bias);
    if ds == [] {
      VarintRoundTrip(delta, 36, s.bias, 1, 0, []);
      assert ds + e == e == e + [];
    } else {
      var (d0, rest) := GetInt(ds, 36, 1, 0, s.bias).value;
      GetIntMore(ds, e, 36, 1, 0, s.bias);
      RunMore(Insert(s, d0), rest, delta);
    }
  }

  lemma {:induction false} NoDash(text: seq<nat>, ds: seq<nat>)
    requires DASH !in ds
    ensures AfterDash(text + ds) == AfterDash(text)
    decreases |ds|
  {
    if ds == [] {
      assert text + ds == text;
    } else {
      var n := |ds| - 1;
      assert (text + ds)[..|text + ds| - 1] == text + ds[..n];
      assert ds[n] in ds;
      NoDash(text, ds[..n]);
    }
  }

  /** Decoding what the encoder writes: basic characters, a delimiter if there are some,
      and digits. */
  lemma DecodeText(basic: seq<nat>, ds: seq<nat>)
    requires (forall c :: c in basic ==> c < 128) && DASH !in ds
    ensures var text := basic + (if basic == [] then [] else [DASH]) + ds;
      Decode(text) == match Run(Decoder(128, 0, 72, basic), ds)
                      case None => None
                      case Some(s) => Some(s.out)
  {
    hide Run;
    var head := basic + if basic == [] then [] else [DASH];
    NoDash(head, ds);
    var text := head + ds;
    assert forall i :: 0 <= i < |basic| ==> basic[i] in basic;
    if basic == [] {
      assert text == ds && head == [];
      assert AfterDash(text) == 0;
    } else {
      assert head[|basic|] == DASH;
      assert AfterDash(text) == |head| == |basic| + 1;
      assert text[..|basic|] == basic && text[|basic| + 1..] == ds;
    }
  }

  /** The characters below `n`, in order. */
  function Below(s: seq<nat>, n: nat): seq<nat> {
    if s == [] then [] else Below(s[..|s| - 1], n) + if s[|s| - 1] < n then [s[|s| - 1]] else []
  }

  lemma BelowSnoc(s: seq<nat>, c: nat, n: nat)
    ensures Below(s + [c], n) == Below(s, n) + if c < n then [c] else []
  {
    assert (s + [c])[..|s|] == s;
  }

  lemma {:induction false} BelowCons(c: nat, s: seq<nat>, n: nat)
    ensures Below([c] + s, n) == (if c < n then [c] else []) + Below(s, n)
  {
    if s == [] {
      assert [c] + s == [] + [c];
      BelowSnoc([], c, n);
    } else {
      var k := |s| - 1;
      BelowCons(c, s[..k], n);
      assert ([c] + s)[..k + 1] == [c] + s[..k];
      assert [c] + s == ([c] + s[..k]) + [s[k]];
    }
  }

  lemma LastOne(s: seq<nat>)
    requires s != []
    ensures s == s[..|s| - 1] + [s[|s| - 1]] && s[|s| - 1] in s
    ensures forall c: nat :: c in s <==> c in s[..|s| - 1] || c == s[|s| - 1]
  {
    assert s == s[..|s| - 1] + [s[|s| - 1]];
  }

  lemma {:induction false} BelowFacts(s: seq<nat>, n: nat)
    ensures |Below(s, n)| <= |s|
    ensures |Below(s, n)| == |s| ==> Below(s, n) == s && forall c: nat :: c in s ==> c < n
    ensures forall c: nat :: c in Below(s, n) ==> c < n && c in s
  {
    if s != [] {
      BelowFacts(s[..|s| - 1], n);
      LastOne(s);
    }
  }

  lemma {:induction false} BelowAll(s: seq<nat>, n: nat)
    requires forall c: nat :: c in s ==> c < n
    ensures Below(s, n) == s
  {
    if s != [] {
      LastOne(s);
      var r := s[..|s| - 1];
      forall c: nat | c in r ensures c < n { assert c in s; }
      BelowAll(r, n);
    }
  }

  lemma {:induction false} BelowGap(s: seq<nat>, n: nat, m: nat)
    requires n <= m && forall c: nat :: c in s ==> c < n || c >= m
    ensures Below(s, m) == Below(s, n)
  {
    if s != [] {
      LastOne(s);
      var r := s[..|s| - 1];
      forall c: nat | c in r ensures c < n || c >= m { assert c in s; }
      BelowGap(r, n, m);
    }
  }

  /** What the decoder has when the encoder is at position `p` of the pass for `n`. */
  function Known(pts: seq<nat>, n: nat, p: nat): seq<nat>
    requires p <= |pts|
  {
    Below(pts[..p], n + 1) + Below(pts[p..], n)
  }

  lemma KnownStep(pts: seq<nat>, n: nat, p: nat)
    requires p < |pts|
    ensures var c, at := pts[p], |Below(pts[..p], n + 1)|;
      && at <= |Known(pts, n, p)|
      && |Below(pts[..p + 1], n + 1)| == at + (if c <= n then 1 else 0)
      && (c != n ==> Known(pts, n, p + 1) == Known(pts, n, p))
      && (c == n ==> Known(pts, n, p + 1) == Known(pts, n, p)[..at] + [n] + Known(pts, n, p)[at..])
  {
    hide Below;
    var a, b := Below(pts[..p], n + 1), Below(pts[p + 1..], n);
    assert pts[..p + 1] == pts[..p] + [pts[p]];
    assert pts[p..] == [pts[p]] + pts[p + 1..];
    BelowSnoc(pts[..p], pts[p], n + 1);
    BelowCons(pts[p], pts[p + 1..], n);
    Joins(a, pts[p], b);
  }

  lemma Joins(a: seq<nat>, c: nat, b: seq<nat>)
    ensures (a + [c]) + b == a + ([c] + b) && a + [] == a && [] + b == b
    ensures (a + b)[..|a|] + [c] + (a + b)[|a|..] == a + [c] + b
  {
    assert (a + b)[..|a|] == a && (a + b)[|a|..] == b;
  }

  /** The encoder is in step with the decoder: `delta` is how far apart they are. */
  ghost predicate InStep(s: Decoder, pts: seq<nat>, n: nat, p: nat, delta: int)
    requires p <= |pts|
  {
    && s.out == Known(pts, n, p)
    && s.n * (|s.out| + 1) + s.i + delta == n * (|s.out| + 1) + |Below(pts[..p], n + 1)|
  }

  /** Writing `delta` for the character at `p`. */
  lemma InStepEmit(s: Decoder, pts: seq<nat>, n: nat, p: nat, delta: nat)
    requires p < |pts| && InStep(s, pts, n, p, delta) && pts[p] == n && s.n <= n
    ensures Insert(s, delta).n == n && InStep(Insert(s, delta), pts, n, p + 1, 0)
    ensures Insert(s, delta).i > 0
  {
    var size, at := |s.out| + 1, |Below(pts[..p], n + 1)|;
    KnownStep(pts, n, p);
    assert s.i + delta == (n - s.n) * size + at by { Expand(n, s.n, size); }
    DivMod(n - s.n, size, at, s.i + delta);
    var s1 := Insert(s, delta);
    assert s1.out == Known(pts, n, p + 1);
    assert s1.i == at + 1;
  }

  lemma Expand(n: nat, n0: nat, size: nat)
    requires n0 <= n
    ensures n * size == n0 * size + (n - n0) * size
  {
  }

  lemma DivMod(q: nat, size: nat, r: nat, v: nat)
    requires size > 0 && r < size && v == q * size + r
    ensures v / size == q && v % size == r
  {
    assert v == v / size * size + v % size;
    Spread(v / size, q, size, r - v % size);
  }

  lemma Spread(a: nat, b: nat, size: nat, y: int)
    requires a * size == b * size + y && y < size && y + size > 0
    ensures a == b
  {
    if a > b {
      Expand(a, b, size);
      Times(1, a - b, size);
    }
    if b > a {
      Expand(b, a, size);
      Times(1, b - a, size);
    }
  }

  /** Passing a character that is not `n`. */
  lemma InStepPass(s: Decoder, pts: seq<nat>, n: nat, p: nat, delta: nat)
    requires p < |pts| && InStep(s, pts, n, p, delta) && pts[p] != n
    ensures InStep(s, pts, n, p + 1, if pts[p] < n then delta + 1 else delta)
  {
    KnownStep(pts, n, p);
  }

  /** Going to the next character value that occurs. */
  lemma InStepJump(s: Decoder, pts: seq<nat>, n: nat, m: nat, delta: nat)
    requires InStep(s, pts, n, 0, delta) && n <= m && forall c :: c in pts ==> c < n || c >= m
    ensures InStep(s, pts, m, 0, delta + (m - n) * (|s.out| + 1))
  {
    assert pts[..0] == [] && pts[0..] == pts;
    BelowGap(pts, n, m);
    Expand(m, n, |s.out| + 1);
  }

  /** The end of a pass is the beginning of the next one. */
  lemma InStepWrap(s: Decoder, pts: seq<nat>, n: nat, delta: nat)
    requires InStep(s, pts, n, |pts|, delta)
    ensures InStep(s, pts, n + 1, 0, delta + 1)
  {
    assert pts[..|pts|] == pts && pts[|pts|..] == [] && pts[..0] == [] && pts[0..] == pts;
    assert Below([], n) == [] && Below([], n + 2) == [];
    assert Known(pts, n, |pts|) == Below(pts, n + 1);
    assert Known(pts, n + 1, 0) == Below(pts, n + 1);
  }

  lemma InStepStart(pts: seq<nat>)
    ensures InStep(Decoder(128, 0, 72, Below(pts, 128)), pts, 128, 0, 0)
  {
    assert pts[..0] == [] && pts[0..] == pts;
  }
}
