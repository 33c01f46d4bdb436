/** Printing and reading IPv4 and IPv6 addresses in libuv. Text is a sequence of character
    codes without the final NUL. */
module Inet {
  import opened Util

  const ENOSPC := -28
  const EINVAL := -22

  predicate Bytes(b: seq<nat>) {
    forall i :: 0 <= i < |b| ==> b[i] < 256
  }

  predicate Words(w: seq<nat>) {
    forall i :: 0 <= i < |w| ==> w[i] < 0x10000
  }

  const DOT := 46
  const COLON := 58

  // IPv4

  /** A byte in decimal, as %u prints it. */
  function Dec(n: nat): (s: seq<nat>)
    ensures 1 <= |s|
  {
    if n < 10 then [48 + n] else Dec(n / 10) + [48 + n % 10]
  }

  function Dotted(o: seq<nat>): seq<nat> {
    if o == [] then [] else if |o| == 1 then Dec(o[0]) else Dotted(o[..|o| - 1]) + [DOT] + Dec(o[|o| - 1])
  }

  /** The scan of inet_pton4: finished octets, the one being read, and whether it has a digit. */
  datatype Scan4 = Scan4(done: seq<nat>, cur: nat, saw: bool, octets: nat)

  function Step4(s: Scan4, ch: nat): Option<Scan4> {
    if 48 <= ch < 58 then
      var nw := s.cur * 10 + (ch - 48);
      if (s.saw && s.cur == 0) || nw > 255 then None
      else if !s.saw then if s.octets + 1 > 4 then None else Some(Scan4(s.done, nw, true, s.octets + 1))
      else Some(s.(cur := nw))
    else if ch == DOT && s.saw then
      if s.octets == 4 then None else Some(Scan4(s.done + [s.cur], 0, false, s.octets))
    else None
  }

  function Run4(s: Scan4, text: seq<nat>): Option<Scan4>
    decreases |text|
  {
    if text == [] then Some(s)
    else
      match Step4(s, text[0])
      case None => None
      case Some(s1) => Run4(s1, text[1..])
  }

  const START4 := Scan4([], 0, false, 0)

  /** What inet_pton4 reads. */
  function Pton4(text: seq<nat>): Option<seq<nat>> {
    match Run4(START4, text)
    case None => None
    case Some(s) => if s.octets < 4 then None else Some(s.done + [s.cur])
  }

  lemma {:induction false} Run4Join(s: Scan4, a: seq<nat>, b: seq<nat>)
    ensures Run4(s, a + b) == match Run4(s, a) case None => None case Some(s1) => Run4(s1, b)
    decreases |a|
  {
    if a == [] {
      assert a + b == b;
    } else {
      assert (a + b)[0] == a[0] && (a + b)[1..] == a[1..] + b;
      if Step4(s, a[0]).Some? { Run4Join(Step4(s, a[0]).value, a[1..], b); }
    }
  }

  lemma Run4Snoc(s: Scan4, a: seq<nat>, ch: nat)
    ensures Run4(s, a + [ch]) == match Run4(s, a) case None => None case Some(s1) => Step4(s1, ch)
  {
    Run4Join(s, a, [ch]);
    if Run4(s, a).Some? {
      var s1 := Run4(s, a).value;
      assert [ch][1..] == [];
      assert Run4(s1, [ch]) == Step4(s1, ch) by {
        if Step4(s1, ch).Some? { assert Run4(Step4(s1, ch).value, []) == Step4(s1, ch); }
      }
    }
  }

  /** Text read so far is what would be printed for the state. */
  ghost predicate Printed4(s: Scan4, text: seq<nat>) {
    && |s.done| <= 3 && Bytes(s.done) && s.cur < 256
    && s.octets == |s.done| + (if s.saw then 1 else 0)
    && text == (if s.saw then Dotted(s.done + [s.cur]) else if s.done == [] then [] else Dotted(s.done) + [DOT])
    && (!s.saw ==> s.cur == 0)
  }

  lemma DottedSnoc(o: seq<nat>, n: nat)
    ensures Dotted(o + [n]) == (if o == [] then [] else Dotted(o) + [DOT]) + Dec(n)
  {
    assert (o + [n])[..|o|] == o;
  }

  lemma Printed4Step(s: Scan4, text: seq<nat>, ch: nat)
    requires Printed4(s, text) && Step4(s, ch).Some?
    ensures Printed4(Step4(s, ch).value, text + [ch])
  {
    var s1 := Step4(s, ch).value;
    DottedSnoc(s.done, s.cur);
    DottedSnoc(s.done, s1.cur);
    if 48 <= ch < 58 {
      if s.saw {
        assert Dec(s1.cur) == Dec(s.cur) + [ch];
      } else {
        assert Dec(s1.cur) == [ch];
      }
    }
  }

  lemma {:induction false} Printed4Run(text: seq<nat>)
    requires Run4(START4, text).Some?
    ensures Printed4(Run4(START4, text).value, text)
    decreases |text|
  {
    if text != [] {
      var k := |text| - 1;
      assert text == text[..k] + [text[k]];
      Run4Snoc(START4, text[..k], text[k]);
      Printed4Run(text[..k]);
      Printed4Step(Run4(START4, text[..k]).value, text[..k], text[k]);
    }
  }

  lemma {:induction false} ReadDec(s: Scan4, n: nat)
    requires !s.saw && s.cur == 0 && s.octets < 4 && n < 256
    ensures Run4(s, Dec(n)) == Some(Scan4(s.done, n, true, s.octets + 1))
  {
    if n < 10 {
      assert Dec(n)[1..] == [];
    } else {
      ReadDec(s, n / 10);
      Run4Snoc(s, Dec(n / 10), 48 + n % 10);
    }
  }

  lemma {:induction false} ReadDotted(o: seq<nat>)
    requires 1 <= |o| <= 4 && Bytes(o)
    ensures Run4(START4, Dotted(o)) == Some(Scan4(o[..|o| - 1], o[|o| - 1], true, |o|))
  {
    var k := |o| - 1;
    if k == 0 {
      ReadDec(START4, o[0]);
      assert o[..0] == [];
    } else {
      ReadDotted(o[..k]);
      var a := Dotted(o[..k]);
      Run4Snoc(START4, a, DOT);
      assert o[..k] == o[..k][..k - 1] + [o[..k][k - 1]];
      Run4Join(START4, a + [DOT], Dec(o[k]));
      ReadDec(Scan4(o[..k], 0, false, k), o[k]);
    }
  }

  /** Reading IPv4 text: it is accepted exactly when it is what printing the result gives. */
  lemma Pton4Iff(text: seq<nat>, o: seq<nat>)
    ensures Pton4(text) == Some(o) <==> |o| == 4 && Bytes(o) && text == Dotted(o)
  {
    if Pton4(text).Some? {
      Printed4Run(text);
      assert Pton4(text).value[..3] == Run4(START4, text).value.done;
    }
    if |o| == 4 && Bytes(o) {
      ReadDotted(o);
      assert o == o[..3] + [o[3]];
    }
  }

  /** inet_pton4. */
  method InetPton4(src: seq<nat>, dst: array<nat>) returns (rc: int)
    requires dst.Length == 4
    modifies dst
    ensures rc == if Pton4(src).Some? then 0 else EINVAL
    ensures dst[..] == if Pton4(src).Some? then Pton4(src).value else old(dst[..])
  {
    var sawDigit, octets: nat, i := false, 0, 0;
    var tmp := new nat[4];
    var tp := 0;
    tmp[0] := 0;
    while i < |src|
      invariant i <= |src| && tp <= 3
      invariant Run4(START4, src[..i]) == Some(Scan4(tmp[..tp], tmp[tp], sawDigit, octets))
      invariant octets == tp + (if sawDigit then 1 else 0) && dst[..] == old(dst[..])
    {
      var ch := src[i];
      assert src[..i + 1] == src[..i] + [ch];
      assert src == src[..i + 1] + src[i + 1..];
      Run4Snoc(START4, src[..i], ch);
      Run4Join(START4, src[..i + 1], src[i + 1..]);
      ghost var next := Step4(Scan4(tmp[..tp], tmp[tp], sawDigit, octets), ch);
      assert next == None ==> Pton4(src) == None;
      i := i + 1;
      if 48 <= ch < 58 {
        var nw := tmp[tp] * 10 + (ch - 48);
        if sawDigit && tmp[tp] == 0 { return EINVAL; }
        if nw > 255 { return EINVAL; }
        tmp[tp] := nw;
        if !sawDigit {
          octets := octets + 1;
          if octets > 4 { return EINVAL; }
          sawDigit := true;
        }
      } else if ch == DOT && sawDigit {
        if octets == 4 { return EINVAL; }
        tp := tp + 1;
        tmp[tp] := 0;
        sawDigit := false;
        assert tmp[..tp] == tmp[..tp - 1] + [tmp[tp - 1]];
      } else {
        return EINVAL;
      }
    }
    assert src[..i] == src;
    if octets < 4 { return EINVAL; }
    forall k | 0 <= k < 4 { dst[k] := tmp[k]; }
    rc := 0;
  }

  /** inet_ntop4. */
  method InetNtop4(src: seq<nat>, size: nat) returns (rc: int, text: seq<nat>)
    requires |src| == 4 && Bytes(src)
    ensures rc == 0 ==> text == Dotted(src) && Pton4(text) == Some(src)
    ensures rc != 0 <==> |Dotted(src)| >= size
  {
    var tmp := Dec(src[0]) + [DOT] + Dec(src[1]) + [DOT] + Dec(src[2]) + [DOT] + Dec(src[3]);
    DottedFour(src);
    Pton4Iff(tmp, src);
    if |tmp| >= size { return ENOSPC, []; }
    return 0, tmp;
  }

  lemma DottedFour(o: seq<nat>)
    requires |o| == 4
    ensures Dotted(o) == Dec(o[0]) + [DOT] + Dec(o[1]) + [DOT] + Dec(o[2]) + [DOT] + Dec(o[3])
  {
    assert o == [o[0], o[1], o[2]] + [o[3]];
    assert [o[0], o[1], o[2]] == [o[0], o[1]] + [o[2]];
    assert [o[0], o[1]] == [o[0]] + [o[1]];
    DottedSnoc([o[0], o[1], o[2]], o[3]);
    DottedSnoc([o[0], o[1]], o[2]);
    DottedSnoc([o[0]], o[1]);
  }
}
