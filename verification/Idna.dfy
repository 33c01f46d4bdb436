/** The host name encoder of libuv: each label that is not ASCII becomes "xn--" and Punycode. */
module Idna {
  import opened Util
  import opened Utf8
  import opened Punycode

  const U32 := 0x1_0000_0000
  const EINVAL := -22
  const E2BIG := -7

  /** The output range: writing past its end drops the byte. `full` is what would have been
      written with room enough. */
  class Buffer {
    const data: array<nat>
    var d: nat
    ghost var full: seq<nat>

    ghost predicate Valid()
      reads this, data
    {
      && d <= data.Length && d <= |full|
      && data[..d] == full[..d]
      && (d < data.Length ==> d == |full|)
    }

    constructor (range: array<nat>)
      ensures Valid() && data == range && d == 0 && full == []
    {
      data := range;
      d := 0;
      full := [];
    }

    method Put(c: nat)
      requires Valid()
      modifies this, data
      ensures Valid() && full == old(full) + [c]
    {
      if d < data.Length {
        data[d] := c;
        d := d + 1;
      }
      full := full + [c];
    }
  }

  /** What a label is encoded to: itself when all of it is ASCII; otherwise "xn--" and a text
      that the decoder of RFC 3492 turns into its characters. */
  ghost predicate AsciiLabel(pts: seq<nat>, text: seq<nat>) {
    if forall c: nat :: c in pts ==> c < 128 then text == pts
    else
      && |text| >= 4 && text[..4] == [120, 110, 45, 45]
      && Decode(text[4..]) == Some(pts)
  }

  /** One step along the characters of a legal text. */
  lemma Step(b: seq<nat>, s: nat, se: nat, pts: seq<nat>, p: nat)
    requires s <= se <= |b| && p <= |pts| && Points(b, s, se) == Some(pts[p..])
    ensures s < se <==> p < |pts|
    ensures s < se ==> Decode1(b, s, se).Some? && Decode1(b, s, se).value.0 == pts[p]
    ensures s < se ==> Points(b, Decode1(b, s, se).value.1, se) == Some(pts[p + 1..])
  {
    hide Decode1;
    if s < se {
      var (c, s1) := Decode1(b, s, se).value;
      var cs := Points(b, s1, se).value;
      assert pts[p..] == [c] + cs;
      assert pts[p..][0] == pts[p] && pts[p..][1..] == pts[p + 1..];
    }
  }

  lemma Start(pts: seq<nat>)
    ensures pts[0..] == pts && pts[..0] == [] && pts[|pts|..] == [] && pts[..|pts|] == pts
    ensures forall n: nat :: Below([], n) == []
  {
  }

  lemma Snoc(pts: seq<nat>, p: nat, n: nat)
    requires p < |pts|
    ensures Below(pts[..p + 1], n) == Below(pts[..p], n) + if pts[p] < n then [pts[p]] else []
  {
    assert pts[..p + 1] == pts[..p] + [pts[p]];
    BelowSnoc(pts[..p], pts[p], n);
  }

  /** The first loop: is the label legal, and how many of its characters are ASCII? */
  method CountChars(b: seq<nat>, ss: nat, se: nat) returns (ok: bool, h: nat, todo: nat)
    requires ss <= se <= |b| && Bytes(b) && |b| < 0x8000_0000
    ensures ok <==> Points(b, ss, se).Some?
    ensures ok ==> h == |Below(Points(b, ss, se).value, 128)| && h + todo == |Points(b, ss, se).value|
    ensures h + todo < 0x8000_0000
  {
    hide Decode1, Below;
    ghost var good := Points(b, ss, se).Some?;
    ghost var pts := if good then Points(b, ss, se).value else [];
    ghost var p := 0;
    var s := ss;
    h, todo := 0, 0;
    Start(pts);
    while s < se
      invariant ss <= s <= se && h + todo <= s - ss
      invariant good ==> p <= |pts| && Points(b, s, se) == Some(pts[p..])
      invariant good ==> h == |Below(pts[..p], 128)| && h + todo == p
      invariant !good ==> Points(b, s, se) == None
    {
      if good {
        Step(b, s, se, pts, p);
        Snoc(pts, p, 128);
      }
      var next := Decode1(b, s, se);
      if next == None {
        ok := false;
        return;
      }
      var c;
      c, s := next.value.0, next.value.1;
      if c < 128 {
        h := h + 1;
      } else {
        todo := todo + 1;
      }
      p := p + 1;
    }
    ok := true;
    if good { Step(b, s, se, pts, p); }
  }

  /** The second loop: copies the ASCII characters. */
  method WriteAscii(buf: Buffer, b: seq<nat>, ss: nat, se: nat, h: nat, ghost pts: seq<nat>)
    requires buf.Valid() && ss <= se <= |b| && Points(b, ss, se) == Some(pts)
    requires h == |Below(pts, 128)|
    modifies buf, buf.data
    ensures buf.Valid() && buf.full == old(buf.full) + Below(pts, 128)
  {
    hide Decode1, Below;
    ghost var p := 0;
    var s, x := ss, 0;
    Start(pts);
    while s < se
      invariant ss <= s <= se && p <= |pts| && Points(b, s, se) == Some(pts[p..])
      invariant x == |Below(pts[..p], 128)| && (x == h ==> x == 0)
      invariant buf.Valid() && buf.full == old(buf.full) + Below(pts[..p], 128)
      decreases se - s
    {
      Step(b, s, se, pts, p);
      Snoc(pts, p, 128);
      var next := Decode1(b, s, se);
      var c;
      c, s := next.value.0, next.value.1;
      p := p + 1;
      if c > 127 { continue; }
      buf.Put(c);
      x := x + 1;
      if x == h {
        AllSeen(pts, p, 128);
        break;
      }
    }
    if s == se { Step(b, s, se, pts, p); }
  }

  /** Once as many were found as there are, the rest has none. */
  lemma {:induction false} AllSeen(pts: seq<nat>, p: nat, n: nat)
    requires p <= |pts| && |Below(pts[..p], n)| >= |Below(pts, n)|
    ensures Below(pts[..p], n) == Below(pts, n)
    decreases |pts|
  {
    if p < |pts| {
      var k := |pts| - 1;
      assert pts[..k][..p] == pts[..p];
      AllSeen(pts[..k], p, n);
    } else {
      assert pts[..p] == pts;
    }
  }

  /** The smallest character that is at least `n`. */
  method FindNext(b: seq<nat>, ss: nat, se: nat, n: nat, ghost pts: seq<nat>) returns (m: nat)
    requires ss <= se <= |b| && Points(b, ss, se) == Some(pts)
    requires exists c: nat :: c in pts && n <= c < U32 - 1
    ensures n <= m && m in pts && forall c: nat :: c in pts ==> c < n || c >= m
  {
    hide Decode1;
    ghost var p := 0;
    var s := ss;
    m := U32 - 1;
    Start(pts);
    while s < se
      invariant ss <= s <= se && p <= |pts| && Points(b, s, se) == Some(pts[p..])
      invariant m == U32 - 1 || (m in pts && n <= m < U32 - 1)
      invariant forall i :: 0 <= i < p ==> pts[i] < n || pts[i] >= m
      decreases se - s
    {
      Step(b, s, se, pts, p);
      var next := Decode1(b, s, se);
      var c;
      c, s := next.value.0, next.value.1;
      if c >= n && c < m {
        m := c;
        assert m in pts;
      }
      p := p + 1;
    }
    Step(b, s, se, pts, p);
  }

  function Pow10(n: nat): (r: nat)
    ensures r >= 1
  {
    if n == 0 then 1 else 10 * Pow10(n - 1)
  }

  /** The innermost loop: a generalized variable-length integer. No step wraps: the quotient
      goes down tenfold at least, so `k` stays small. */
  method EmitInt(buf: Buffer, delta: nat, bias: nat)
    requires buf.Valid() && delta < U32
    modifies buf, buf.data
    ensures buf.Valid() && buf.full == old(buf.full) + Varint(delta, 36, bias)
  {
    hide Varint;
    var k: nat, q: nat := 36, delta;
    ghost var done: seq<nat> := [];
    ghost var digits := 0;
    while true
      invariant k == 36 + 36 * digits && digits <= 10 && q * Pow10(digits) < U32
      invariant buf.Valid() && buf.full == old(buf.full) + done
      invariant done + Varint(q, k, bias) == Varint(delta, 36, bias)
      decreases q
    {
      var t := 1;
      if k > bias { t := k - bias; }
      if t > 26 { t := 26; }
      if q < t {
        assert Varint(q, k, bias) == [Alphabet(q)] by { VarintEnd(q, k, bias); }
        break;
      }
      VarintMore(q, k, bias);
      FewDigits(q, digits);
      var x, y := q - t, 36 - t;
      ghost var q1 := NextQuotient(q, t);
      ghost var digit := NextDigit(q, t);
      Fewer(q, q1, digits);
      q := x / y;
      t := t + x % y;
      assert t < 36;
      buf.Put(Alphabet(t));
      done := done + [Alphabet(digit)];
      k := k + 36;
      digits := digits + 1;
    }
    buf.Put(Alphabet(q));
  }

  lemma VarintEnd(q: nat, k: nat, bias: nat)
    requires q < Threshold(k, bias)
    ensures Varint(q, k, bias) == [Alphabet(q)]
  {
  }

  lemma Fewer(q: nat, q1: nat, digits: nat)
    requires q * Pow10(digits) < U32 && 10 * q1 <= q
    ensures q1 * Pow10(digits + 1) < U32
  {
    Times(10 * q1, q, Pow10(digits));
  }

  lemma FewDigits(q: nat, digits: nat)
    requires q > 0 && digits <= 10 && q * Pow10(digits) < U32
    ensures digits < 10
  {
    if digits == 10 {
      assert Pow10(2) == 100 && Pow10(4) == 10000 && Pow10(6) == 1000000 && Pow10(8) == 100000000;
      assert Pow10(10) == 100 * Pow10(8);
      Times(1, q, Pow10(10));
    }
  }

  /** Bias adaptation, on the difference just written. */
  method AdaptBias(delta0: nat, h: nat, first: bool) returns (bias: nat)
    requires delta0 < U32 && 0 < h
    ensures bias == Adapt(delta0, h, first)
  {
    hide Reduce, Adapt;
    var delta: nat := delta0 / 2;
    if first {
      delta := delta / 350;
    }
    var more := delta / h;
    AdaptIs(delta0, h, first, delta, more);
    assert delta + more < U32;
    bias := ReduceBias(delta + more);
  }

  lemma AdaptIs(delta0: nat, h: nat, first: bool, delta: nat, more: nat)
    requires h > 0 && delta == (if first then delta0 / 2 / 350 else delta0 / 2) && more == delta / h
    ensures Adapt(delta0, h, first) == Reduce(delta + more, 0)
    ensures more <= delta <= delta0 / 2
  {
    hide Reduce;
    Halved(delta0);
    NoMore(delta, h);
  }

  method ReduceBias(delta0: nat) returns (bias: nat)
    ensures bias == Reduce(delta0, 0)
  {
    var delta: nat := delta0;
    bias := 0;
    while delta > 35 * 26 / 2
      invariant Reduce(delta, bias) == Reduce(delta0, 0)
    {
      delta := delta / 35;
      bias := bias + 36;
    }
    bias := bias + 36 * delta / (delta + 38);
  }

  lemma Halved(d: nat)
    ensures d / 2 / 350 == d / 700
  {
  }

  lemma NoMore(delta: nat, h: nat)
    requires h > 0
    ensures delta / h <= delta
  {
    Quotient1(delta, h);
    Times(1, h, delta / h);
  }

  lemma Quotient1(v: nat, y: nat)
    requires y > 0
    ensures v == v / y * y + v % y
  {
  }

  /** The encoder and the decoder run on `ds` agree. */
  ghost predicate Sync(basic: seq<nat>, ds: seq<nat>, s: Decoder, bias: nat, first: bool, h: nat) {
    && Run(Decoder(128, 0, 72, basic), ds) == Some(s) && DASH !in ds
    && s.bias == bias && (first <==> s.i == 0) && h == |s.out|
  }

  lemma SyncEmit(basic: seq<nat>, ds: seq<nat>, s: Decoder, bias: nat, first: bool, h: nat, delta: nat)
    requires Sync(basic, ds, s, bias, first, h) && Insert(s, delta).i > 0
    ensures Sync(basic, ds + Varint(delta, 36, bias), Insert(s, delta), Adapt(delta, h + 1, first), false, h + 1)
  {
    hide Run, Varint, Adapt;
    RunMore(Decoder(128, 0, 72, basic), ds, delta);
    VarintDigits(delta, 36, bias);
  }

  lemma KnownSize(pts: seq<nat>, n: nat, p: nat)
    requires p <= |pts|
    ensures |Known(pts, n, p)| <= |pts|
  {
    BelowFacts(pts[..p], n + 1);
    BelowFacts(pts[p..], n);
  }

  /** The difference stays below the product that RFC 3492 bounds it with. */
  lemma DeltaBound(s: Decoder, pts: seq<nat>, n: nat, p: nat, delta: nat)
    requires p <= |pts| && InStep(s, pts, n, p, delta) && n <= 0x10FFFF
    ensures delta < 0x110000 * (|pts| + 2)
  {
    hide Below;
    KnownSize(pts, n, p);
    BelowFacts(pts[..p], n + 1);
    Times(n, 0x10FFFF, |s.out| + 1);
    Times(|s.out| + 1, |pts| + 1, 0x10FFFF);
    assert delta <= 0x10FFFF * (|pts| + 1) + |pts|;
  }

  /** One pass over the characters: those equal to `n` are written. */
  method Pass(buf: Buffer, b: seq<nat>, ss: nat, se: nat, n: nat, h0: nat, bias0: nat, delta0: nat, first0: bool,
          todo0: nat,
              ghost pts: seq<nat>, ghost base: seq<nat>, ghost basic: seq<nat>, ghost ds0: seq<nat>, ghost s0: Decoder)
    returns (rc: int, h: nat, bias: nat, delta: nat, first: bool, todo: nat, ghost ds: seq<nat>, ghost s: Decoder)
    requires buf.Valid() && ss <= se <= |b| && Points(b, ss, se) == Some(pts) && |pts| < 0x8000_0000
    requires Sync(basic, ds0, s0, bias0, first0, h0) && InStep(s0, pts, n, 0, delta0) && s0.n <= n
    requires n <= 0x10FFFF && n in pts && delta0 < U32 && h0 + todo0 == |pts|
    requires buf.full == base + ds0
    modifies buf, buf.data
    ensures buf.Valid() && (rc == 0 || rc == E2BIG)
    ensures rc == E2BIG ==> U32 <= 0x110000 * (|pts| + 2)
    ensures rc == 0 ==>
      && Sync(basic, ds, s, bias, first, h) && InStep(s, pts, n, |pts|, delta) && s.n == n
      && h + todo == |pts| && todo < todo0 && delta <= |pts| && buf.full == base + ds
  {
    hide Decode1, Points, Sync, InStep, Varint, Adapt, Insert, Known, Below;
    rc, h, bias, delta, first, todo, ds, s := 0, h0, bias0, delta0, first0, todo0, ds0, s0;
    ghost var p := 0;
    var at := ss;
    Start(pts);
    while at < se
      invariant ss <= at <= se && p <= |pts| && Points(b, at, se) == Some(pts[p..])
      invariant buf.Valid() && buf.full == base + ds
      invariant Sync(basic, ds, s, bias, first, h) && InStep(s, pts, n, p, delta) && s.n <= n
      invariant h + todo == |pts| && todo <= todo0
      invariant delta < U32 && (n in pts[p..] || (delta <= p && s.n == n && todo < todo0))
      decreases se - at
    {
      Step(b, at, se, pts, p);
      var next := Decode1(b, at, se);
      var c;
      c, at := next.value.0, next.value.1;
      Ahead(pts, p, n);
      if c < n {
        InStepPass(s, pts, n, p, delta);
        if delta + 1 == U32 {
          DeltaBound(s, pts, n, p + 1, delta + 1);
          rc := E2BIG;
          return;
        }
        delta := delta + 1;
      }
      p := p + 1;
      if c != n {
        if c > n { InStepPass(s, pts, n, p - 1, delta); }
        continue;
      }
      InStepEmit(s, pts, n, p - 1, delta);
      SyncEmit(basic, ds, s, bias, first, h, delta);
      RoomLeft(basic, ds + Varint(delta, 36, bias), Insert(s, delta), Adapt(delta, h + 1, first), false, h + 1, pts,
        n, p);
      EmitInt(buf, delta, bias);
      ghost var v := Varint(delta, 36, bias);
      assert base + ds + v == base + (ds + v);
      ds, s := ds + v, Insert(s, delta);
      h := h + 1;
      bias := AdaptBias(delta, h, first);
      first := false;
      delta := 0;
      todo := todo - 1;
    }
    Step(b, at, se, pts, p);
  }

  lemma Ahead(pts: seq<nat>, p: nat, n: nat)
    requires p < |pts|
    ensures n in pts[p..] <==> pts[p] == n || n in pts[p + 1..]
  {
    assert pts[p..] == [pts[p]] + pts[p + 1..];
  }

  /** A character that was written was still to do. */
  lemma RoomLeft(basic: seq<nat>, ds: seq<nat>, s: Decoder, bias: nat, first: bool, h: nat, pts: seq<nat>, n: nat,
          p: nat)
    requires p <= |pts| && Sync(basic, ds, s, bias, first, h) && InStep(s, pts, n, p, 0)
    ensures h <= |pts|
  {
    KnownSize(pts, n, p);
  }

  lemma Overflow(x: nat, y: nat, delta: nat)
    requires y > 0 && delta < U32
    ensures x > (U32 - 1 - delta) / y <==> delta + x * y >= U32
  {
    var r := U32 - 1 - delta;
    Quotient1(r, y);
    if x > r / y { Times(r / y + 1, x, y); } else { Times(x, r / y, y); }
  }

  /** While characters remain, one of them is at least `n`; when none do, the decoder has
      them all. */
  lemma Remaining(basic: seq<nat>, ds: seq<nat>, s: Decoder, bias: nat, first: bool, h: nat, pts: seq<nat>, n: nat,
          delta: nat)
    requires Sync(basic, ds, s, bias, first, h) && InStep(s, pts, n, 0, delta)
    requires forall c: nat :: c in pts ==> c <= 0x10FFFF
    ensures h < |pts| ==> exists c: nat :: c in pts && n <= c < U32 - 1
    ensures h == |pts| ==> s.out == pts
  {
    Start(pts);
    assert s.out == Known(pts, n, 0) == [] + Below(pts, n);
    assert [] + Below(pts, n) == Below(pts, n);
    if forall c: nat :: c in pts ==> c < n { BelowAll(pts, n); }
    BelowFacts(pts, n);
  }

  lemma Begin(pts: seq<nat>)
    ensures Sync(Below(pts, 128), [], Decoder(128, 0, 72, Below(pts, 128)), 72, true, |Below(pts, 128)|)
  {
  }

  lemma SyncSize(basic: seq<nat>, ds: seq<nat>, s: Decoder, bias: nat, first: bool, h: nat)
    requires Sync(basic, ds, s, bias, first, h)
    ensures h == |s.out|
  {
  }

  lemma SyncRun(basic: seq<nat>, ds: seq<nat>, s: Decoder, bias: nat, first: bool, h: nat)
    requires Sync(basic, ds, s, bias, first, h)
    ensures Run(Decoder(128, 0, 72, basic), ds) == Some(s) && DASH !in ds
  {
  }

  /** The difference grows by `x * y`, unless that overflows. */
  method Skip(x: nat, y: nat, delta: nat) returns (fits: bool, next: nat)
    requires y > 0 && delta < U32
    ensures fits <==> delta + x * y < U32
    ensures fits ==> next == delta + x * y
  {
    Overflow(x, y, delta);
    if x > (U32 - 1 - delta) / y { return false, delta; }
    return true, delta + x * y;
  }

  /** The main loop: characters above ASCII, in order of their values. */
  method Insertions(buf: Buffer, b: seq<nat>, ss: nat, se: nat, h0: nat, todo0: nat, ghost pts: seq<nat>)
    returns (rc: int, ghost ds: seq<nat>)
    requires buf.Valid() && ss <= se <= |b| && Points(b, ss, se) == Some(pts) && |pts| < 0x8000_0000
    requires h0 == |Below(pts, 128)| && h0 + todo0 == |pts| && forall c: nat :: c in pts ==> c <= 0x10FFFF
    modifies buf, buf.data
    ensures buf.Valid() && (rc == 0 || rc == E2BIG)
    ensures rc == E2BIG ==> U32 <= 0x110000 * (|pts| + 2)
    ensures rc == 0 ==> buf.full == old(buf.full) + ds && DASH !in ds
    ensures rc == 0 ==> Run(Decoder(128, 0, 72, Below(pts, 128)), ds).Some?
                        && Run(Decoder(128, 0, 72, Below(pts, 128)), ds).value.out == pts
  {
    hide Decode1, Points, InStep, Insert, Known, Below, Sync;
    ghost var basic, base := Below(pts, 128), old(buf.full);
    ghost var s := Decoder(128, 0, 72, basic);
    var n: nat, bias: nat, delta: nat, first, h: nat, todo: nat := 128, 72, 0, true, h0, todo0;
    ds := [];
    assert base + ds == base;
    Begin(pts);
    InStepStart(pts);
    while todo > 0
      invariant buf.Valid() && buf.full == base + ds
      invariant Sync(basic, ds, s, bias, first, h) && InStep(s, pts, n, 0, delta) && s.n <= n
      invariant h + todo == |pts| && delta <= |pts| + 1
      decreases todo
    {
      Remaining(basic, ds, s, bias, first, h, pts, n, delta);
      var m := FindNext(b, ss, se, n, pts);
      InStepJump(s, pts, n, m, delta);
      SyncSize(basic, ds, s, bias, first, h);
      ghost var more := delta + (m - n) * (h + 1);
      var fits;
      fits, delta := Skip(m - n, h + 1, delta);
      if !fits {
        DeltaBound(s, pts, m, 0, more);
        rc := E2BIG;
        return;
      }
      n := m;
      rc, h, bias, delta, first, todo, ds, s :=
        Pass(buf, b, ss, se, n, h, bias, delta, first, todo, pts, base, basic, ds, s);
      if rc < 0 { return; }
      InStepWrap(s, pts, n, delta);
      delta := delta + 1;
      n := n + 1;
    }
    Remaining(basic, ds, s, bias, first, h, pts, n, delta);
    SyncRun(basic, ds, s, bias, first, h);
    rc := 0;
  }

  /** uv__idna_toascii_label. */
  method ToAsciiLabel(buf: Buffer, b: seq<nat>, ss: nat, se: nat) returns (rc: int, ghost text: seq<nat>)
    requires buf.Valid() && ss <= se <= |b| && Bytes(b) && |b| < 0x8000_0000
    modifies buf, buf.data
    ensures buf.Valid()
    ensures rc == EINVAL <==> Points(b, ss, se) == None
    ensures rc == E2BIG ==> U32 <= 0x110000 * (|Points(b, ss, se).value| + 2)
    ensures rc < 0 ==> rc == EINVAL || rc == E2BIG
    ensures rc >= 0 ==> AsciiLabel(Points(b, ss, se).value, text) && buf.full == old(buf.full) + text
  {
    hide Decode1, Run, Below, Decode, Points, AsciiLabel, Bytes;
    var ok, h, todo := CountChars(b, ss, se);
    if !ok {
      rc, text := EINVAL, [];
      return;
    }
    ghost var pts := Points(b, ss, se).value;
    PointsRange(b, ss, se);
    ghost var basic := Below(pts, 128);
    text := [];
    if todo > 0 {
      PutPrefix(buf);
      text := XN;
    }
    WriteAscii(buf, b, ss, se, h, pts);
    if todo == 0 {
      text := basic;
      PlainLabel(pts);
      rc := h;
      return;
    }
    ghost var dash := if basic == [] then [] else [DASH];
    if h > 0 { buf.Put(45); }
    assert buf.full == old(buf.full) + (XN + basic + dash);
    ghost var ds;
    rc, ds := Insertions(buf, b, ss, se, h, todo, pts);
    if rc == 0 {
      text := XN + basic + dash + ds;
      LabelText(pts, ds);
    }
  }

  /** A label that is all ASCII stays as it is. */
  lemma PlainLabel(pts: seq<nat>)
    requires |Below(pts, 128)| == |pts|
    ensures AsciiLabel(pts, Below(pts, 128))
  {
    BelowFacts(pts, 128);
  }

  method PutPrefix(buf: Buffer)
    requires buf.Valid()
    modifies buf, buf.data
    ensures buf.Valid() && buf.full == old(buf.full) + XN
  {
    buf.Put(120);
    buf.Put(110);
    buf.Put(45);
    buf.Put(45);
  }

  const XN: seq<nat> := [120, 110, 45, 45]

  lemma LabelText(pts: seq<nat>, ds: seq<nat>)
    requires |Below(pts, 128)| < |pts| && DASH !in ds
    requires Run(Decoder(128, 0, 72, Below(pts, 128)), ds).Some?
             && Run(Decoder(128, 0, 72, Below(pts, 128)), ds).value.out == pts
    ensures var basic := Below(pts, 128); AsciiLabel(pts, XN + basic + (if basic == [] then [] else [DASH]) + ds)
  {
    hide Run, Decode, Below;
    var basic := Below(pts, 128);
    BelowFacts(pts, 128);
    SomeAbove(pts);
    var tail := basic + (if basic == [] then [] else [DASH]) + ds;
    DecodeText(basic, ds);
    assert XN + basic + (if basic == [] then [] else [DASH]) + ds == XN + tail;
    assert (XN + tail)[4..] == tail;
  }

  lemma SomeAbove(pts: seq<nat>)
    requires |Below(pts, 128)| < |pts|
    ensures !(forall c: nat :: c in pts ==> c < 128)
  {
    if forall c: nat :: c in pts ==> c < 128 { BelowAll(pts, 128); }
  }

  /** Full stops, the ideographic ones included. */
  predicate Separator(c: nat) {
    c == 46 || c == 0x3002 || c == 0xFF0E || c == 0xFF61
  }

  /** The labels of a name. */
  function Labels(pts: seq<nat>): (ls: seq<seq<nat>>)
    ensures ls != []
  {
    if pts == [] then [[]]
    else
      var k := |pts| - 1;
      var ls := Labels(pts[..k]);
      if Separator(pts[k]) then ls + [[]] else ls[..|ls| - 1] + [ls[|ls| - 1] + [pts[k]]]
  }

  /** Each text and a full stop. */
  function Dotted(texts: seq<seq<nat>>): seq<nat> {
    if texts == [] then [] else Dotted(texts[..|texts| - 1]) + texts[|texts| - 1] + [46]
  }

  ghost predicate AllAscii(labels: seq<seq<nat>>, texts: seq<seq<nat>>) {
    |texts| == |labels| && forall i :: 0 <= i < |labels| ==> AsciiLabel(labels[i], texts[i])
  }

  /** A name is encoded label by label, with full stops between them. */
  ghost predicate AsciiName(pts: seq<nat>, name: seq<nat>) {
    exists texts: seq<seq<nat>> :: AllAscii(Labels(pts), texts) && name + [46] == Dotted(texts)
  }

  lemma DottedSnoc(texts: seq<seq<nat>>, text: seq<nat>)
    ensures Dotted(texts + [text]) == Dotted(texts) + text + [46]
  {
    assert (texts + [text])[..|texts|] == texts;
  }

  lemma LabelsSnoc(pts: seq<nat>, p: nat)
    requires p < |pts|
    ensures var ls, c := Labels(pts[..p]), pts[p];
      Labels(pts[..p + 1]) == if Separator(c) then ls + [[]] else ls[..|ls| - 1] + [ls[|ls| - 1] + [c]]
  {
    assert pts[..p + 1][..p] == pts[..p];
  }

  /** Reading from `s` with the limit `se` gives `cur` and leads to `si`. */
  predicate Walk(b: seq<nat>, s: nat, si: nat, se: nat, cur: seq<nat>)
    requires s <= si <= se <= |b|
    decreases |cur|
  {
    if cur == [] then s == si
    else
      && s < si && Decode1(b, s, se).Some? && Decode1(b, s, se).value.0 == cur[0]
      && Decode1(b, s, se).value.1 <= si && Walk(b, Decode1(b, s, se).value.1, si, se, cur[1..])
  }

  lemma {:induction false} WalkSnoc(b: seq<nat>, s: nat, si: nat, se: nat, cur: seq<nat>)
    requires s <= si < se <= |b| && Walk(b, s, si, se, cur) && Decode1(b, si, se).Some?
    ensures var (c, s1) := Decode1(b, si, se).value; Walk(b, s, s1, se, cur + [c])
    decreases |cur|
  {
    hide Decode1;
    var (c, s1) := Decode1(b, si, se).value;
    if cur == [] {
      assert ([] + [c])[1..] == [] && Walk(b, s1, s1, se, []);
    } else {
      assert (cur + [c])[1..] == cur[1..] + [c];
      WalkSnoc(b, Decode1(b, s, se).value.1, si, se, cur[1..]);
    }
  }

  lemma Shorter(b: seq<nat>, s: nat, pe: nat, se: nat)
    requires s < se <= |b| && Decode1(b, s, se).Some? && Decode1(b, s, se).value.1 <= pe <= se
    ensures Decode1(b, s, pe) == Decode1(b, s, se)
  {
    hide Finish;
  }

  /** A label cut out of the name reads as it did in the name. */
  lemma {:induction false} WalkPoints(b: seq<nat>, s: nat, si: nat, se: nat, cur: seq<nat>)
    requires s <= si <= se <= |b| && Walk(b, s, si, se, cur)
    ensures Points(b, s, si) == Some(cur) && |cur| <= si - s
    decreases |cur|
  {
    hide Decode1;
    if cur != [] {
      Shorter(b, s, si, se);
      WalkPoints(b, Decode1(b, s, se).value.1, si, se, cur[1..]);
      assert cur == [cur[0]] + cur[1..];
    }
  }

  /** uv__idna_toascii: a non-negative result means that nothing was dropped. */
  method ToAscii(b: seq<nat>, range: array<nat>) returns (rc: int, ghost name: seq<nat>)
    requires Bytes(b) && |b| < 0x8000_0000
    modifies range
    ensures rc >= 0 ==> Points(b, 0, |b|).Some? && AsciiName(Points(b, 0, |b|).value, name)
    ensures rc >= 0 ==> rc == |name| + 1 <= range.Length && range[..rc] == name + [0]
    ensures rc < 0 ==> rc == EINVAL || rc == E2BIG
    ensures rc == EINVAL ==>
      || b == [] || Points(b, 0, |b|) == None
      || (AsciiName(Points(b, 0, |b|).value, name) && |name| >= range.Length)
    ensures rc == E2BIG ==> U32 <= 0x110000 * (|b| + 2)
  {
    hide Decode1, Labels, Dotted, AsciiLabel, Separator, Walk;
    name := [];
    if b == [] {
      rc := EINVAL;
      return;
    }
    var buf := new Buffer(range);
    var se := |b|;
    var s: nat, si: nat := 0, 0;
    ghost var good := Points(b, 0, se).Some?;
    ghost var pts := if good then Points(b, 0, se).value else [];
    ghost var p, cur: seq<nat>, labels: seq<seq<nat>>, texts: seq<seq<nat>> := 0, [], [], [];
    Start(pts);
    NameStart(b, se);
    while si < se
      invariant s <= si <= se && Walk(b, s, si, se, cur)
      invariant good ==> p <= |pts| && Points(b, si, se) == Some(pts[p..]) && Labels(pts[..p]) == labels + [cur]
      invariant !good ==> Points(b, si, se) == None
      invariant buf.Valid() && fresh(buf) && buf.data == range && buf.full == Dotted(texts) && AllAscii(labels, texts)
      decreases se - si
    {
      var st: nat := si;
      if good {
        Step(b, si, se, pts, p);
        LabelsSnoc(pts, p);
      }
      var next := Decode1(b, si, se);
      if next == None {
        rc := EINVAL;
        return;
      }
      var c;
      c, si := next.value.0, next.value.1;
      p := p + 1;
      if !Separator(c) {
        WalkSnoc(b, s, st, se, cur);
        cur := cur + [c];
        continue;
      }
      ghost var text;
      WalkPoints(b, s, st, se, cur);
      rc, text := ToAsciiLabel(buf, b, s, st);
      if rc < 0 { return; }
      buf.Put(46);
      DottedSnoc(texts, text);
      labels, texts, cur := labels + [cur], texts + [text], [];
      s := si;
      WalkEmpty(b, s, se);
    }
    if good { Step(b, si, se, pts, p); }
    ghost var text := [];
    WalkPoints(b, s, se, se, cur);
    if s < se {
      rc, text := ToAsciiLabel(buf, b, s, se);
      if rc < 0 { return; }
    } else {
      EmptyLabel(cur);
    }
    DottedSnoc(texts, text);
    name := buf.full;
    assert AllAscii(labels + [cur], texts + [text]);
    assert AsciiName(pts, name);
    if buf.d >= range.Length {
      rc := EINVAL;
      return;
    }
    buf.Put(0);
    rc := buf.d;
  }

  lemma NameStart(b: seq<nat>, se: nat)
    requires se <= |b|
    ensures Labels([]) == [] + [[]] && Dotted([]) == [] && Walk(b, 0, 0, se, [])
  {
  }

  lemma WalkEmpty(b: seq<nat>, s: nat, se: nat)
    requires s <= se <= |b|
    ensures Walk(b, s, s, se, [])
  {
  }

  lemma EmptyLabel(cur: seq<nat>)
    requires |cur| <= 0
    ensures AsciiLabel(cur, [])
  {
  }
}
