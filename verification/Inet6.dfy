/** Printing and reading IPv6 addresses in libuv. */
module Inet6 {
  import opened Util
  import opened Inet

  /** A word in hexadecimal, as %x prints it. */
  function Hex(w: nat): (s: seq<nat>)
    ensures s != []
  {
    if w < 16 then [HexDigit(w)] else Hex(w / 16) + [HexDigit(w % 16)]
  }

  function HexDigit(d: nat): nat { if d < 10 then 48 + d else 87 + d }

  /** The value of a hexadecimal digit, lower case or upper case. */
  function HexValue(ch: nat): Option<nat> {
    if 48 <= ch < 58 then Some(ch - 48)
    else if 97 <= ch < 103 then Some(ch - 87)
    else if 65 <= ch < 71 then Some(ch - 55)
    else None
  }

  /** The bytes of words. */
  function WordBytes(ws: seq<nat>): (b: seq<nat>)
    ensures |b| == 2 * |ws|
  {
    if ws == [] then [] else WordBytes(ws[..|ws| - 1]) + [ws[|ws| - 1] / 256 % 256, ws[|ws| - 1] % 256]
  }

  // Reading

  /** The scan of inet_pton6: bytes read, where the double colon was, the digits of the word
      being read, and the text from its first one. */
  datatype Scan6 = Scan6(out: seq<nat>, colon: int, seen: nat, val: nat, tok: seq<nat>)

  function Push(s: Scan6): Scan6 { s.(out := s.out + [s.val / 256 % 256, s.val % 256], seen := 0, val := 0) }

  function Run6(s: Scan6, text: seq<nat>): Option<Scan6>
    decreases |text|
  {
    if text == [] then Some(s)
    else
      var ch, rest := text[0], text[1..];
      match HexValue(ch)
      case Some(d) => if s.seen + 1 > 4 then None else Run6(s.(seen := s.seen + 1, val := s.val * 16 + d), rest)
      case None =>
        if ch == COLON then
          var s1 := s.(tok := rest);
          if s.seen == 0 then if s.colon >= 0 then None else Run6(s1.(colon := |s.out|), rest)
          else if rest == [] || |s.out| + 2 > 16 then None
          else Run6(Push(s1), rest)
        else if ch == DOT && |s.out| + 4 <= 16 then
          match Pton4(s.tok)
          case None => None
          case Some(o) => Some(s.(out := s.out + o, seen := 0))
        else None
  }

  function Zeros(n: nat): seq<nat> { seq(n, _ => 0) }

  /** What follows the scan: the last word, and the zeros of the double colon. */
  function End6(s: Scan6): Option<seq<nat>> {
    if s.seen > 0 && |s.out| + 2 > 16 then None
    else
      var out := if s.seen > 0 then Push(s).out else s.out;
      if s.colon < 0 then if |out| == 16 then Some(out) else None
      else if |out| >= 16 || s.colon > |out| then None
      else Some(out[..s.colon] + Zeros(16 - |out|) + out[s.colon..])
  }

  /** What inet_pton6 reads. */
  function Pton6(text: seq<nat>): Option<seq<nat>> {
    var src := if text != [] && text[0] == COLON then text[1..] else text;
    if text != [] && text[0] == COLON && (src == [] || src[0] != COLON) then None
    else
      match Run6(Scan6([], -1, 0, 0, src), src)
      case None => None
      case Some(s) => End6(s)
  }

  // Printing

  /** A run of zero words to leave out; `base` is -1 when there is none. */
  datatype Run = Run(base: int, len: nat)

  predicate Inside(r: Run, i: nat) { r.base >= 0 && r.base <= i < r.base + r.len }

  /** Is this an IPv4 address in IPv6 form? The clause for a run of seven words never applies:
      word 6 would be inside the run. */
  predicate Embedded(ws: seq<nat>, r: Run, i: nat)
    requires |ws| == 8
  {
    i == 6 && r.base == 0 && (r.len == 6 || (r.len == 7 && ws[7] != 1) || (r.len == 5 && ws[5] == 0xffff))
  }

  /** The text from word `i` on. */
  function Out(src: seq<nat>, ws: seq<nat>, r: Run, i: nat): seq<nat>
    requires |src| == 16 && |ws| == 8 && i <= 8
    decreases 8 - i
  {
    if i == 8 then Tail(r)
    else if Inside(r, i) then (if i == r.base then [COLON] else []) + Out(src, ws, r, i + 1)
    else
      (if i != 0 then [COLON] else [])
      + if Embedded(ws, r, i) then Dotted(src[12..]) + Tail(r) else Hex(ws[i]) + Out(src, ws, r, i + 1)
  }

  /** A run at the end needs a second colon. */
  function Tail(r: Run): seq<nat> { if r.base >= 0 && r.base + r.len == 8 then [COLON] else [] }

  /** A longest run of two zero words or more, the first of them; or none if there is none. */
  ghost predicate Best(ws: seq<nat>, r: Run)
    requires |ws| == 8
  {
    && (r.base >= 0 ==> r.len >= 2 && r.base + r.len <= 8 && ZeroRun(ws, r.base, r.len))
    && (forall b: nat, n: nat :: n >= 2 && b + n <= 8 && ZeroRun(ws, b, n) ==>
          r.base >= 0 && (n < r.len || (n == r.len && r.base <= b)))
  }

  predicate ZeroRun(ws: seq<nat>, b: nat, n: nat)
    requires b + n <= |ws|
  {
    forall i :: b <= i < b + n ==> ws[i] == 0
  }

  ghost predicate WordsOf(src: seq<nat>, ws: seq<nat>) {
    && |src| == 16 && |ws| == 8
    && forall i :: 0 <= i < 8 ==> ws[i] == src[2 * i] * 256 + src[2 * i + 1]
  }

  // Reading what was printed

  lemma {:induction false} ReadHex(s: Scan6, w: nat, rest: seq<nat>)
    requires s.seen == 0 && s.val == 0 && w < 0x10000
    ensures 1 <= |Hex(w)| <= 4
    ensures Run6(s, Hex(w) + rest) == Run6(s.(seen := |Hex(w)|, val := w), rest)
  {
    HexSize(w);
    ReadDigits(s, w, rest);
  }

  lemma HexSize(w: nat)
    requires w < 0x10000
    ensures |Hex(w)| == if w < 16 then 1 else if w < 256 then 2 else if w < 4096 then 3 else 4
  {
  }

  lemma DigitValue(d: nat)
    requires d < 16
    ensures HexValue(HexDigit(d)) == Some(d)
  {
  }

  lemma {:induction false} ReadDigits(s: Scan6, w: nat, rest: seq<nat>)
    requires s.seen == 0 && s.val == 0 && |Hex(w)| <= 4
    ensures Run6(s, Hex(w) + rest) == Run6(s.(seen := |Hex(w)|, val := w), rest)
    decreases w
  {
    hide HexDigit, HexValue;
    if w < 16 {
      DigitValue(w);
      assert ([HexDigit(w)] + rest)[1..] == rest;
    } else {
      var d := HexDigit(w % 16);
      DigitValue(w % 16);
      ReadDigits(s, w / 16, [d] + rest);
      assert Hex(w) + rest == Hex(w / 16) + ([d] + rest);
      assert ([d] + rest)[1..] == rest;
    }
  }

  lemma ReadColon(s: Scan6, rest: seq<nat>)
    ensures var s1 := s.(tok := rest);
      Run6(s, [COLON] + rest) ==
        if s.seen == 0 then if s.colon >= 0 then None else Run6(s1.(colon := |s.out|), rest)
        else if rest == [] || |s.out| + 2 > 16 then None
        else Run6(Push(s1), rest)
  {
    assert ([COLON] + rest)[1..] == rest;
  }

  /** Decimal digits up to a dot look like the digits of a word. */
  lemma {:induction false} ReadDecimal(s: Scan6, n: nat, room: nat, rest: seq<nat>) returns (s1: Scan6)
    requires s.seen + room <= 4 && n < (if room == 3 then 1000 else if room == 2 then 100 else 10) && 1 <= room <= 3
    ensures Run6(s, Dec(n) + rest) == Run6(s1, rest)
    ensures s1.seen <= s.seen + room && s1 == s.(seen := s1.seen, val := s1.val)
    decreases n
  {
    hide HexValue, Run6;
    DecimalValue(n % 10);
    if n < 10 {
      s1 := ReadDigit(s, 48 + n, n, rest);
      assert Dec(n) + rest == [48 + n] + rest;
    } else {
      var ch := 48 + n % 10;
      var s2 := ReadDecimal(s, n / 10, room - 1, [ch] + rest);
      s1 := ReadDigit(s2, ch, n % 10, rest);
      assert Dec(n) + rest == Dec(n / 10) + ([ch] + rest);
    }
  }

  lemma ReadDigit(s: Scan6, ch: nat, d: nat, rest: seq<nat>) returns (s1: Scan6)
    requires s.seen < 4 && HexValue(ch) == Some(d)
    ensures s1 == s.(seen := s.seen + 1, val := s.val * 16 + d) && Run6(s, [ch] + rest) == Run6(s1, rest)
  {
    s1 := s.(seen := s.seen + 1, val := s.val * 16 + d);
    assert ([ch] + rest)[1..] == rest;
  }

  lemma DecimalValue(d: nat)
    requires d < 10
    ensures HexValue(48 + d) == Some(d)
  {
  }

  /** An embedded IPv4 address. */
  lemma ReadEmbedded(s: Scan6, o: seq<nat>)
    requires s.seen == 0 && |s.out| <= 12 && |o| == 4 && Bytes(o) && s.tok == Dotted(o)
    ensures Run6(s, Dotted(o)).Some?
    ensures var s1 := Run6(s, Dotted(o)).value; s1.out == s.out + o && s1.colon == s.colon && s1.seen == 0
  {
    hide Dec, Pton4, Dotted;
    DottedFour(o);
    var rest := [DOT] + Dec(o[1]) + [DOT] + Dec(o[2]) + [DOT] + Dec(o[3]);
    assert Dotted(o) == Dec(o[0]) + rest;
    var s1 := ReadDecimal(s, o[0], 3, rest);
    Pton4Iff(Dotted(o), o);
    assert rest[0] == DOT;
  }

  // The round trip

  lemma {:induction false} WordBytesJoin(a: seq<nat>, b: seq<nat>)
    ensures WordBytes(a + b) == WordBytes(a) + WordBytes(b)
    decreases |b|
  {
    if b == [] {
      assert a + b == a;
    } else {
      assert (a + b)[..|a + b| - 1] == a + b[..|b| - 1];
      WordBytesJoin(a, b[..|b| - 1]);
    }
  }

  lemma WordBytesNext(ws: seq<nat>, a: nat, i: nat)
    requires a <= i < |ws|
    ensures WordBytes(ws[a..i + 1]) == WordBytes(ws[a..i]) + [ws[i] / 256 % 256, ws[i] % 256]
  {
    assert ws[a..i + 1][..i - a] == ws[a..i];
  }

  lemma {:induction false} WordBytesZero(ws: seq<nat>)
    requires ZeroRun(ws, 0, |ws|)
    ensures WordBytes(ws) == Zeros(2 * |ws|)
  {
    if ws != [] {
      var k := |ws| - 1;
      assert forall j :: 0 <= j < k ==> ws[..k][j] == ws[j];
      WordBytesZero(ws[..k]);
    }
  }

  lemma {:induction false} WordBytesOf(src: seq<nat>, ws: seq<nat>, n: nat)
    requires WordsOf(src, ws) && Bytes(src) && n <= 8
    ensures WordBytes(ws[..n]) == src[..2 * n]
  {
    if n > 0 {
      WordBytesOf(src, ws, n - 1);
      WordBytesNext(ws, 0, n - 1);
      assert ws[0..n] == ws[..n] && ws[0..n - 1] == ws[..n - 1];
      TwoBytes(src[2 * (n - 1)], src[2 * (n - 1) + 1]);
      assert src[..2 * n] == src[..2 * (n - 1)] + [src[2 * (n - 1)], src[2 * (n - 1) + 1]];
    }
  }

  lemma TwoBytes(a: nat, b: nat)
    requires a < 256 && b < 256
    ensures (a * 256 + b) / 256 % 256 == a && (a * 256 + b) % 256 == b && a * 256 + b < 0x10000
  {
  }

  ghost predicate RunOk(ws: seq<nat>, r: Run) {
    && |ws| == 8 && Words(ws) && r.base >= -1
    && (r.base >= 0 ==> r.len >= 2 && r.base + r.len <= 8 && ZeroRun(ws, r.base, r.len))
  }

  /** The scan when the text of the words below `i` was read. */
  ghost predicate ScanAt(ws: seq<nat>, r: Run, i: nat, s: Scan6)
    requires RunOk(ws, r) && 1 <= i <= 8
  {
    if r.base < 0 || i <= r.base then
      s.out == WordBytes(ws[..i - 1]) && s.colon == -1 && 1 <= s.seen && s.val == ws[i - 1]
    else if i <= r.base + r.len then
      s.out == WordBytes(ws[..r.base]) && s.colon == -1 && s.seen == 0 && s.val == 0
    else
      && s.out == WordBytes(ws[..r.base]) + WordBytes(ws[r.base + r.len..i - 1])
      && s.colon == 2 * r.base && 1 <= s.seen && s.val == ws[i - 1]
  }

  /** The bytes with the run filled in. */
  lemma Filled(src: seq<nat>, ws: seq<nat>, r: Run)
    requires RunOk(ws, r) && WordsOf(src, ws) && Bytes(src)
    ensures r.base < 0 ==> WordBytes(ws) == src
    ensures r.base >= 0 ==>
      WordBytes(ws[..r.base]) + Zeros(2 * r.len) + WordBytes(ws[r.base + r.len..]) == src
  {
    WordBytesOf(src, ws, 8);
    assert |ws| == 8 && |src| == 16;
    hide WordsOf, Bytes, Words;
    assert ws[..8] == ws && src[..16] == src;
    if r.base >= 0 { FilledRun(ws, r.base, r.len); }
  }

  lemma FilledRun(ws: seq<nat>, b: nat, n: nat)
    requires b + n <= |ws| && ZeroRun(ws, b, n)
    ensures WordBytes(ws[..b]) + Zeros(2 * n) + WordBytes(ws[b + n..]) == WordBytes(ws)
  {
    hide WordBytes, Zeros, ZeroRun;
    ThreeParts(ws, b, n);
    FilledParts(ws, ws[..b], ws[b..b + n], ws[b + n..], n);
  }

  lemma FilledParts(ws: seq<nat>, a: seq<nat>, z: seq<nat>, c: seq<nat>, n: nat)
    requires ws == a + z + c && |z| == n && ZeroRun(z, 0, |z|)
    ensures WordBytes(a) + Zeros(2 * n) + WordBytes(c) == WordBytes(ws)
  {
    hide WordBytes, Zeros, ZeroRun;
    WordBytesThree(a, z, c);
    WordBytesZero(z);
  }

  lemma WordBytesThree(a: seq<nat>, z: seq<nat>, c: seq<nat>)
    ensures WordBytes(a + z + c) == WordBytes(a) + WordBytes(z) + WordBytes(c)
  {
    hide WordBytes;
    WordBytesJoin(a + z, c);
    WordBytesJoin(a, z);
  }

  lemma ThreeParts(ws: seq<nat>, b: nat, n: nat)
    requires b + n <= |ws| && ZeroRun(ws, b, n)
    ensures ws == ws[..b] + ws[b..b + n] + ws[b + n..] && ZeroRun(ws[b..b + n], 0, |ws[b..b + n]|)
  {
    var z := ws[b..b + n];
    assert forall j :: 0 <= j < n ==> z[j] == ws[b + j];
  }

  /** The zeros of the double colon go between the bytes before and after it. */
  lemma EndColon(s: Scan6, a: seq<nat>, c: seq<nat>)
    requires s.colon == |a| && |a| + |c| < 16
    requires if s.seen > 0 then Push(s).out == a + c else s.out == a + c
    ensures End6(s) == Some(a + Zeros(16 - |a| - |c|) + c)
  {
    assert (a + c)[..|a|] == a && (a + c)[|a|..] == c;
  }

  lemma EndPlain(s: Scan6, out: seq<nat>)
    requires s.colon == -1 && |out| == 16 && s.seen > 0 && Push(s).out == out
    ensures End6(s) == Some(out)
  {
  }

  /** The end of the text. */
  lemma ReadEnd(src: seq<nat>, ws: seq<nat>, r: Run, s: Scan6)
    requires RunOk(ws, r) && WordsOf(src, ws) && Bytes(src) && ScanAt(ws, r, 8, s)
    ensures Run6(s, Tail(r)).Some? && End6(Run6(s, Tail(r)).value) == Some(src)
  {
    hide End6, WordBytes, Words, Bytes, WordsOf, ZeroRun;
    Filled(src, ws, r);
    if r.base < 0 {
      WordBytesNext(ws, 0, 7);
      assert ws[0..8] == ws && ws[0..7] == ws[..7];
      EndPlain(s, src);
    } else if r.base + r.len == 8 {
      ReadColon(s, []);
      assert [COLON] + [] == [COLON];
      assert ws[8..] == [];
      var a := WordBytes(ws[..r.base]);
      assert WordBytes([]) == [] && a + [] == a;
      EndColon(s.(tok := [], colon := |s.out|), a, []);
    } else {
      WordBytesNext(ws, r.base + r.len, 7);
      assert ws[r.base + r.len..8] == ws[r.base + r.len..];
      var a, c := WordBytes(ws[..r.base]), WordBytes(ws[r.base + r.len..]);
      assert Push(s).out == a + c;
      EndColon(s, a, c);
    }
  }

  /** Inside the run there is always a colon to come. */
  lemma {:induction false} ColonAhead(src: seq<nat>, ws: seq<nat>, r: Run, i: nat)
    requires |src| == 16 && RunOk(ws, r) && r.base >= 0 && r.base < i <= r.base + r.len
    ensures Out(src, ws, r, i) != [] && Out(src, ws, r, i)[0] == COLON
    decreases 8 - i
  {
    if i < r.base + r.len { ColonAhead(src, ws, r, i + 1); }
  }

  /** A word, after the colon before it. */
  lemma ReadWord(src: seq<nat>, ws: seq<nat>, r: Run, i: nat, s: Scan6, rest: seq<nat>) returns (s1: Scan6)
    requires RunOk(ws, r) && 1 <= i < 8 && ScanAt(ws, r, i, s) && !Inside(r, i) && rest != []
    ensures Run6(s, [COLON] + rest) == Run6(s1, rest) && s1.tok == rest && s1.seen == 0 && s1.val == 0
    ensures |s1.out| <= 14
    ensures if r.base < 0 || i < r.base then s1.out == WordBytes(ws[..i]) && s1.colon == -1
            else s1.out == WordBytes(ws[..r.base]) + WordBytes(ws[r.base + r.len..i]) && s1.colon == 2 * r.base
  {
    ReadColon(s, rest);
    hide Run6, Words, ZeroRun, WordBytes;
    if r.base >= 0 && i == r.base + r.len {
      s1 := s.(tok := rest, colon := |s.out|);
      assert ws[i..i] == [];
    } else if r.base < 0 || i < r.base {
      WordBytesNext(ws, 0, i - 1);
      assert ws[0..i] == ws[..i] && ws[0..i - 1] == ws[..i - 1];
      s1 := Push(s.(tok := rest));
    } else {
      WordBytesNext(ws, r.base + r.len, i - 1);
      s1 := Push(s.(tok := rest));
    }
  }

  lemma ReadLast(src: seq<nat>, ws: seq<nat>, r: Run, s1: Scan6)
    requires RunOk(ws, r) && WordsOf(src, ws) && Bytes(src) && r.base == 0 && (r.len == 5 || r.len == 6)
    requires s1.tok == Dotted(src[12..]) && s1.seen == 0 && s1.out == WordBytes(ws[r.len..6]) && s1.colon == 0
    ensures Run6(s1, Dotted(src[12..])).Some? && End6(Run6(s1, Dotted(src[12..])).value) == Some(src)
  {
    LastBytes(src, ws, r);
    ReadTail(s1, src[12..], WordBytes(ws[r.len..6]));
  }

  /** An address at the end, after a double colon at the beginning. */
  lemma ReadTail(s1: Scan6, o: seq<nat>, c: seq<nat>)
    requires |o| == 4 && Bytes(o) && s1.tok == Dotted(o) && s1.seen == 0 && s1.out == c && |c| <= 2 && s1.colon == 0
    ensures Run6(s1, Dotted(o)).Some?
    ensures End6(Run6(s1, Dotted(o)).value) == Some(Zeros(12 - |c|) + (c + o))
  {
    hide Run6, End6, Dotted, Zeros, Bytes;
    ReadEmbedded(s1, o);
    var s2, z := Run6(s1, Dotted(o)).value, Zeros(12 - |c|);
    EndColon(s2, [], c + o);
    assert |c + o| == |c| + 4 && [] + z == z;
  }

  lemma LastBytes(src: seq<nat>, ws: seq<nat>, r: Run)
    requires RunOk(ws, r) && WordsOf(src, ws) && Bytes(src) && r.base == 0 && (r.len == 5 || r.len == 6)
    ensures src == Zeros(2 * r.len) + (WordBytes(ws[r.len..6]) + src[12..])
  {
    WordBytesOf(src, ws, 6);
    WordBytesJoin(ws[..r.len], ws[r.len..6]);
    assert ws[..6] == ws[..r.len] + ws[r.len..6];
    assert forall j :: 0 <= j < r.len ==> ws[..r.len][j] == ws[j];
    WordBytesZero(ws[..r.len]);
    assert src == src[..12] + src[12..];
  }

  /** The first colon of the run ends the word before it. */
  lemma FirstInside(ws: seq<nat>, r: Run, s: Scan6, rest: seq<nat>)
    requires RunOk(ws, r) && 1 <= r.base && ScanAt(ws, r, r.base, s)
    ensures ScanAt(ws, r, r.base + 1, Push(s.(tok := rest))) && s.seen > 0 && |s.out| + 2 <= 16
  {
    hide Words, ZeroRun;
    var i := r.base;
    WordBytesNext(ws, 0, i - 1);
    assert ws[0..i] == ws[..i] && ws[0..i - 1] == ws[..i - 1];
  }

  /** Reading the text from word `i` on gives the address. */
  lemma {:induction false} ReadOut(src: seq<nat>, ws: seq<nat>, r: Run, i: nat, s: Scan6)
    requires RunOk(ws, r) && WordsOf(src, ws) && Bytes(src) && 1 <= i <= 8 && ScanAt(ws, r, i, s)
    ensures var text := Out(src, ws, r, i); Run6(s, text).Some? && End6(Run6(s, text).value) == Some(src)
    decreases 8 - i
  {
    assert |src| == 16 && |ws| == 8 && (i < 8 ==> ws[i] < 0x10000);
    hide Run6, End6, Hex, Dotted, Words, WordsOf, Bytes, ZeroRun, WordBytes;
    if i == 8 {
      ReadEnd(src, ws, r, s);
    } else if Inside(r, i) {
      var s1 := ReadOutInside(src, ws, r, i, s);
      ReadOut(src, ws, r, i + 1, s1);
    } else if Embedded(ws, r, i) {
      ReadOutEmbedded(src, ws, r, i, s);
    } else {
      var more := Out(src, ws, r, i + 1);
      var s1 := ReadOutWord(src, ws, r, i, s, more);
      ReadOut(src, ws, r, i + 1, s1);
    }
  }

  /** Inside the run only its first word leaves a colon. */
  lemma ReadOutInside(src: seq<nat>, ws: seq<nat>, r: Run, i: nat, s: Scan6) returns (s1: Scan6)
    requires |src| == 16 && RunOk(ws, r) && 1 <= i < 8 && ScanAt(ws, r, i, s) && Inside(r, i)
    ensures ScanAt(ws, r, i + 1, s1) && Run6(s, Out(src, ws, r, i)) == Run6(s1, Out(src, ws, r, i + 1))
  {
    hide Run6, End6, Hex, Dotted, Words, ZeroRun, WordBytes;
    var rest := Out(src, ws, r, i + 1);
    if i == r.base {
      ColonAhead(src, ws, r, i + 1);
      ReadColon(s, rest);
      FirstInside(ws, r, s, rest);
      s1 := Push(s.(tok := rest));
    } else {
      assert [] + rest == rest;
      s1 := s;
    }
  }

  lemma ReadOutEmbedded(src: seq<nat>, ws: seq<nat>, r: Run, i: nat, s: Scan6)
    requires RunOk(ws, r) && WordsOf(src, ws) && Bytes(src) && 1 <= i < 8 && ScanAt(ws, r, i, s)
    requires !Inside(r, i) && Embedded(ws, r, i)
    ensures var text := [COLON] + (Dotted(src[12..]) + Tail(r));
      Run6(s, text).Some? && End6(Run6(s, text).value) == Some(src)
  {
    hide Run6, End6, Dotted;
    var rest := Dotted(src[12..]) + Tail(r);
    DottedFour(src[12..]);
    assert rest == Dotted(src[12..]);
    var s1 := ReadWord(src, ws, r, i, s, rest);
    assert ws[..0] == [];
    ReadLast(src, ws, r, s1);
  }

  lemma ReadOutWord(src: seq<nat>, ws: seq<nat>, r: Run, i: nat, s: Scan6, more: seq<nat>) returns (s1: Scan6)
    requires RunOk(ws, r) && 1 <= i < 8 && ScanAt(ws, r, i, s) && !Inside(r, i)
    ensures ScanAt(ws, r, i + 1, s1) && Run6(s, [COLON] + (Hex(ws[i]) + more)) == Run6(s1, more)
  {
    assert ws[i] < 0x10000;
    hide Run6, End6, Hex, Words, ZeroRun, WordBytes;
    ReadHexSome(ws[i]);
    var s0 := ReadWord([], ws, r, i, s, Hex(ws[i]) + more);
    ReadHex(s0, ws[i], more);
    s1 := s0.(seen := |Hex(ws[i])|, val := ws[i]);
  }

  lemma ReadHexSome(w: nat)
    ensures Hex(w) != []
  {
  }

  lemma {:induction false} HexHead(w: nat)
    ensures Hex(w)[0] != COLON
  {
    if w >= 16 { HexHead(w / 16); }
  }

  /** Reading a printed address gives it back. */
  lemma RoundTrip(src: seq<nat>, ws: seq<nat>, r: Run)
    requires RunOk(ws, r) && WordsOf(src, ws) && Bytes(src)
    ensures Pton6(Out(src, ws, r, 0)) == Some(src)
  {
    hide Run6, End6, Hex;
    var text := Out(src, ws, r, 0);
    if Inside(r, 0) {
      var rest := Out(src, ws, r, 1);
      ColonAhead(src, ws, r, 1);
      assert text[1..] == rest;
      assert ws[..0] == [];
      ReadOut(src, ws, r, 1, Scan6([], -1, 0, 0, rest));
    } else {
      var rest := Out(src, ws, r, 1);
      HexHead(ws[0]);
      ReadHexSome(ws[0]);
      assert text == Hex(ws[0]) + rest;
      ReadHex(Scan6([], -1, 0, 0, text), ws[0], rest);
      assert ws[..0] == [];
      ReadOut(src, ws, r, 1, Scan6([], -1, |Hex(ws[0])|, ws[0], text));
    }
  }

  // The methods

  /** `r` is a longest zero run that lies in the first `e` words, the first of them. */
  ghost predicate BestUpTo(ws: seq<nat>, e: nat, r: Run)
    requires e <= |ws|
  {
    && (r.base >= 0 ==> r.len >= 1 && r.base + r.len <= e && ZeroRun(ws, r.base, r.len))
    && (forall b: nat, n: nat :: n >= 1 && b + n <= e && ZeroRun(ws, b, n) ==>
          r.base >= 0 && (n < r.len || (n == r.len && r.base <= b)))
  }

  /** A run from `e` to `i` has ended, or the words have. */
  lemma BestAdd(ws: seq<nat>, e: nat, i: nat, r: Run)
    requires e < i <= |ws| && ZeroRun(ws, e, i - e) && (e == 0 || ws[e - 1] != 0) && BestUpTo(ws, e, r)
    ensures BestUpTo(ws, i, if r.base < 0 || i - e > r.len then Run(e, i - e) else r)
  {
    forall b: nat, n: nat | n >= 1 && b + n <= i && ZeroRun(ws, b, n) ensures b >= e || b + n <= e {
      assert e == 0 || ws[e - 1] != 0;
    }
  }

  /** A word that is not zero ends all runs. */
  lemma BestSkip(ws: seq<nat>, i: nat, r: Run)
    requires i < |ws| && ws[i] != 0 && BestUpTo(ws, i, r)
    ensures BestUpTo(ws, i + 1, r)
  {
    forall b: nat, n: nat | n >= 1 && b + n <= i + 1 && ZeroRun(ws, b, n) ensures b + n <= i {
      assert ws[i] != 0;
    }
  }

  lemma BestEnd(ws: seq<nat>, r: Run)
    requires |ws| == 8 && r.base >= -1 && BestUpTo(ws, 8, r)
    ensures var q := if r.base != -1 && r.len < 2 then Run(-1, r.len) else r; Best(ws, q)
  {
  }

  /** Word `k` when `i` bytes were added. */
  function HalfWord(src: seq<nat>, k: nat, i: nat): nat
    requires |src| == 16 && k < 8
  {
    (if 2 * k < i then src[2 * k] * 256 else 0) + (if 2 * k + 1 < i then src[2 * k + 1] else 0)
  }

  /** The words of an address, byte by byte. */
  method SplitWords(src: seq<nat>) returns (words: array<nat>)
    requires |src| == 16 && Bytes(src)
    ensures fresh(words) && words.Length == 8 && WordsOf(src, words[..]) && Words(words[..])
  {
    words := new nat[8](_ => 0);
    for i := 0 to 16
      invariant forall k: nat :: k < 8 ==> words[k] == HalfWord(src, k, i)
    {
      words[i / 2] := words[i / 2] + src[i] * (if i % 2 == 0 then 256 else 1);
    }
    forall k | 0 <= k < 8 ensures words[k] < 0x10000 {
      TwoBytes(src[2 * k], src[2 * k + 1]);
    }
  }

  /** The search for the run to leave out. */
  method FindRun(words: array<nat>) returns (best: Run)
    requires words.Length == 8
    ensures best.base >= -1 && Best(words[..], best)
  {
    ghost var ws := words[..];
    best := Run(-1, 0);
    var cur := Run(-1, 0);
    for i := 0 to 8
      invariant best.base >= -1 && cur.base >= -1
      invariant cur.base == -1 ==> BestUpTo(ws, i, best) && (i == 0 || ws[i - 1] != 0)
      invariant cur.base != -1 ==> cur.base + cur.len == i && cur.len >= 1 && ZeroRun(ws, cur.base, cur.len)
      invariant cur.base != -1 ==> BestUpTo(ws, cur.base, best) && (cur.base == 0 || ws[cur.base - 1] != 0)
    {
      if words[i] == 0 {
        if cur.base == -1 {
          cur := Run(i, 1);
        } else {
          cur := cur.(len := cur.len + 1);
        }
      } else {
        if cur.base != -1 {
          BestAdd(ws, cur.base, i, best);
          if best.base == -1 || cur.len > best.len { best := cur; }
          cur := cur.(base := -1);
        }
        BestSkip(ws, i, best);
      }
    }
    if cur.base != -1 {
      BestAdd(ws, cur.base, 8, best);
      if best.base == -1 || cur.len > best.len { best := cur; }
    }
    BestEnd(ws, best);
    if best.base != -1 && best.len < 2 { best := best.(base := -1); }
  }

  /** The buffer that the text is made in. */
  const TEXT_SIZE := 46

  lemma DottedSize(o: seq<nat>)
    requires |o| == 4 && Bytes(o)
    ensures |Dotted(o)| <= 15
  {
    DottedFour(o);
    forall i | 0 <= i < 4 ensures |Dec(o[i])| <= 3 { DecSize(o[i]); }
  }

  lemma DecSize(n: nat)
    requires n < 256
    ensures |Dec(n)| <= 3
  {
    assert n >= 10 ==> Dec(n) == Dec(n / 10) + [48 + n % 10];
    assert n >= 100 ==> Dec(n / 10) == Dec(n / 100) + [48 + n / 10 % 10];
  }

  function Bound(r: Run, i: nat): int {
    if r.base == 0 && r.len >= 5 then
      if i == 0 then 22 else if i <= 5 then 21 else if i == 6 then 16 else if i == 7 then 5 else |Tail(r)|
    else if i == 0 then 40 else 5 * (8 - i) + |Tail(r)|
  }

  lemma {:induction false} OutSize(src: seq<nat>, ws: seq<nat>, r: Run, i: nat)
    requires RunOk(ws, r) && |src| == 16 && Bytes(src) && i <= 8
    ensures |Out(src, ws, r, i)| <= Bound(r, i)
    decreases 8 - i
  {
    if i < 8 {
      OutSize(src, ws, r, i + 1);
      HexSize(ws[i]);
      DottedSize(src[12..]);
      hide Hex, Dotted;
    }
  }

  lemma OutStep(src: seq<nat>, ws: seq<nat>, r: Run, i: nat)
    requires |src| == 16 && |ws| == 8 && i < 8
    ensures var more := Out(src, ws, r, i + 1);
      Out(src, ws, r, i) ==
        if Inside(r, i) then (if i == r.base then [COLON] else []) + more
        else (if i != 0 then [COLON] else []) + if Embedded(ws, r, i) then Dotted(src[12..]) + Tail(r)
          else Hex(ws[i]) + more
  {
    hide Hex, Dotted;
  }

  lemma Associate(a: seq<nat>, b: seq<nat>, c: seq<nat>)
    ensures a + (b + c) == (a + b) + c && a + [] == a
  {
  }

  lemma AssociateFour(a: seq<nat>, b: seq<nat>, c: seq<nat>, d: seq<nat>)
    ensures a + (b + (c + d)) == ((a + b) + c) + d && a + [] == a
    ensures |a + (b + (c + d))| == |a| + |b| + |c| + |d|
  {
  }

  /** The same, after what is there already. */
  lemma OutAppend(src: seq<nat>, ws: seq<nat>, r: Run, i: nat, text: seq<nat>)
    requires |src| == 16 && |ws| == 8 && i < 8
    ensures var more := Out(src, ws, r, i + 1);
      if Inside(r, i) then text + Out(src, ws, r, i) == (if i == r.base then text + [COLON] else text) + more
      else
        var head := if i != 0 then text + [COLON] else text;
        if Embedded(ws, r, i) then text + Out(src, ws, r, i) == head + Dotted(src[12..]) + Tail(r)
        else text + Out(src, ws, r, i) == head + Hex(ws[i]) + more
    ensures |text + Out(src, ws, r, i)| == |text| + |Out(src, ws, r, i)|
  {
    hide Out, Hex, Dotted;
    OutStep(src, ws, r, i);
    var more := Out(src, ws, r, i + 1);
    var colon := if if Inside(r, i) then i == r.base else i != 0 then [COLON] else [];
    if Inside(r, i) {
      Associate(text, colon, more);
    } else if Embedded(ws, r, i) {
      AssociateFour(text, colon, Dotted(src[12..]), Tail(r));
    } else {
      AssociateFour(text, colon, Hex(ws[i]), more);
    }
  }

  /** The loop that makes the text; it fits the buffer with its final NUL. */
  method Format(src: seq<nat>, words: array<nat>, best: Run) returns (text: seq<nat>)
    requires |src| == 16 && Bytes(src) && words.Length == 8 && best.base >= -1
    requires |Out(src, words[..], best, 0)| < TEXT_SIZE
    ensures text == Out(src, words[..], best, 0)
  {
    hide Out, Hex, Dotted;
    ghost var ws := words[..];
    text := [];
    var i := 0;
    var embedded := false;
    while i < 8 && !embedded
      invariant i <= 8
      invariant Out(src, ws, best, 0) == text + if embedded then Tail(best) else Out(src, ws, best, i)
      decreases 8 - i, !embedded
    {
      OutAppend(src, ws, best, i, text);
      if best.base != -1 && i >= best.base && i < best.base + best.len {
        if i == best.base { text := text + [COLON]; }
        i := i + 1;
        continue;
      }
      if i != 0 { text := text + [COLON]; }
      if Embedded(words[..], best, i) {
        var four := Ntop4Into(src[12..], TEXT_SIZE - |text|);
        text := text + four;
        embedded := true;
      } else {
        text := text + Hex(words[i]);
        i := i + 1;
      }
    }
    OutEnd(src, ws, best);
    if best.base != -1 && best.base + best.len == 8 { text := text + [COLON]; }
  }

  /** inet_ntop6: the run left out is the first longest one, and reading the text gives the
      address. */
  method InetNtop6(src: seq<nat>, size: nat) returns (rc: int, text: seq<nat>, ghost ws: seq<nat>, ghost r: Run)
    requires |src| == 16 && Bytes(src)
    ensures WordsOf(src, ws) && Best(ws, r)
    ensures rc == 0 ==> text == Out(src, ws, r, 0) && Pton6(text) == Some(src)
    ensures rc == if |Out(src, ws, r, 0)| + 1 > size then ENOSPC else 0
  {
    hide Out, Pton6;
    var words := SplitWords(src);
    var best := FindRun(words);
    ws, r := words[..], best;
    RoundTrip(src, ws, r);
    OutSize(src, ws, r, 0);
    text := Format(src, words, best);
    if |text| + 1 > size { return ENOSPC, [], ws, r; }
    rc := 0;
  }

  lemma OutEnd(src: seq<nat>, ws: seq<nat>, r: Run)
    requires |src| == 16 && |ws| == 8
    ensures Out(src, ws, r, 8) == Tail(r) == if r.base >= 0 && r.base + r.len == 8 then [COLON] else []
  {
  }

  /** inet_ntop4, where there is always room. */
  method Ntop4Into(o: seq<nat>, size: nat) returns (text: seq<nat>)
    requires |o| == 4 && Bytes(o) && |Dotted(o)| < size
    ensures text == Dotted(o)
  {
    var err;
    err, text := InetNtop4(o, size);
    assert err == 0;
  }

  /** One character of the scan. */
  lemma RunStep(s: Scan6, text: seq<nat>, i: nat)
    requires i < |text|
    ensures var ch, rest := text[i], text[i + 1..];
      Run6(s, text[i..]) ==
        if HexValue(ch).Some? then
          if s.seen + 1 > 4 then None else Run6(s.(seen := s.seen + 1, val := s.val * 16 + HexValue(ch).value), rest)
        else if ch == COLON then
          var s1 := s.(tok := rest);
          if s.seen == 0 then if s.colon >= 0 then None else Run6(s1.(colon := |s.out|), rest)
          else if rest == [] || |s.out| + 2 > 16 then None
          else Run6(Push(s1), rest)
        else if ch == DOT && |s.out| + 4 <= 16
          && Pton4(s.tok).Some? then Some(s.(out := s.out + Pton4(s.tok).value, seen := 0))
        else None
  {
    assert text[i..][1..] == text[i + 1..];
  }

  /** The scan of inet_pton6, from the text in which a leading double colon has lost its
      first one. */
  method Scan(src: seq<nat>, tmp: array<nat>)
    returns (ok: bool, tp: nat, colonp: int, seen: nat, val: nat, ghost tok: seq<nat>)
    requires tmp.Length == 16 && forall k :: 0 <= k < 16 ==> tmp[k] == 0
    modifies tmp
    ensures ok <==> Run6(Scan6([], -1, 0, 0, src), src).Some?
    ensures ok ==> tp <= 16 && Run6(Scan6([], -1, 0, 0, src), src).value == Scan6(tmp[..tp], colonp, seen, val, tok)
    ensures ok ==> -1 <= colonp <= tp && forall k :: tp <= k < 16 ==> tmp[k] == 0
  {
    hide Run6, Pton4, HexValue;
    var i, curtok: nat := 0, 0;
    tp, colonp, seen, val := 0, -1, 0, 0;
    ghost var start := Run6(Scan6([], -1, 0, 0, src), src);
    assert src[0..] == src && tmp[..0] == [];
    while i < |src|
      invariant i <= |src| && curtok <= |src| && tp <= 16 && -1 <= colonp <= tp
      invariant start == Run6(Scan6(tmp[..tp], colonp, seen, val, src[curtok..]), src[i..])
      invariant forall k :: tp <= k < 16 ==> tmp[k] == 0
    {
      RunStep(Scan6(tmp[..tp], colonp, seen, val, src[curtok..]), src, i);
      var ch := src[i];
      i := i + 1;
      var digit := HexValue(ch);
      if digit.Some? {
        val := val * 16 + digit.value;
        seen := seen + 1;
        if seen > 4 { return false, tp, colonp, seen, val, []; }
        continue;
      }
      if ch == COLON {
        curtok := i;
        if seen == 0 {
          if colonp >= 0 { return false, tp, colonp, seen, val, []; }
          colonp := tp;
          continue;
        } else if i == |src| {
          return false, tp, colonp, seen, val, [];
        }
        if tp + 2 > 16 { return false, tp, colonp, seen, val, []; }
        tp := PutWord(tmp, tp, val);
        seen := 0;
        val := 0;
        continue;
      }
      if ch == DOT && tp + 4 <= 16 {
        var four := new nat[4];
        var err := InetPton4(src[curtok..], four);
        if err == 0 {
          tok := src[curtok..];
          ghost var out := tmp[..tp];
          forall k | 0 <= k < 4 { tmp[tp + k] := four[k]; }
          tp := tp + 4;
          assert tmp[..tp] == out + four[..];
          return true, tp, colonp, 0, val, tok;
        }
      }
      return false, tp, colonp, seen, val, [];
    }
    tok := src[curtok..];
    RunOver(Scan6(tmp[..tp], colonp, seen, val, tok));
    assert src[i..] == [];
    ok := true;
  }

  lemma RunOver(s: Scan6)
    ensures Run6(s, []) == Some(s)
  {
  }

  /** A word, most significant byte first. */
  method PutWord(tmp: array<nat>, tp: nat, val: nat) returns (next: nat)
    requires tp + 2 <= tmp.Length
    modifies tmp
    ensures next == tp + 2 && tmp[..next] == old(tmp[..tp]) + [val / 256 % 256, val % 256]
    ensures forall k :: next <= k < tmp.Length ==> tmp[k] == old(tmp[k])
  {
    tmp[tp] := val / 256 % 256;
    tmp[tp + 1] := val % 256;
    next := tp + 2;
  }

  /** The bytes after the double colon move to the end of the buffer, in place. */
  method Shift(tmp: array<nat>, tp: nat, colonp: nat)
    requires tmp.Length == 16 && colonp <= tp < 16 && forall k :: tp <= k < 16 ==> tmp[k] == 0
    modifies tmp
    ensures tmp[..] == old(tmp[..colonp]) + Zeros(16 - tp) + old(tmp[colonp..tp])
  {
    var n := tp - colonp;
    ghost var was := tmp[..];
    for i := 1 to n + 1
      invariant forall k :: 0 <= k < tp - (i - 1) ==> tmp[k] == was[k]
      invariant forall k :: tp - (i - 1) <= k < 16 - (i - 1) ==> tmp[k] == 0
      invariant forall k :: 16 - (i - 1) <= k < 16 ==> tmp[k] == was[k - 16 + tp]
    {
      tmp[16 - i] := tmp[colonp + n - i];
      tmp[colonp + n - i] := 0;
    }
  }

  /** What inet_pton6 does after its loop. */
  method Finish(tmp: array<nat>, tp0: nat, colonp: int, seen: nat, val: nat, ghost tok: seq<nat>) returns (ok: bool)
    requires tmp.Length == 16 && tp0 <= 16 && -1 <= colonp <= tp0 && forall k :: tp0 <= k < 16 ==> tmp[k] == 0
    modifies tmp
    ensures ok <==> End6(Scan6(old(tmp[..tp0]), colonp, seen, val, tok)).Some?
    ensures ok ==> End6(Scan6(old(tmp[..tp0]), colonp, seen, val, tok)) == Some(tmp[..])
  {
    var tp := tp0;
    if seen > 0 {
      if tp + 2 > 16 { return false; }
      tp := PutWord(tmp, tp, val);
    }
    ghost var out := tmp[..tp];
    if colonp >= 0 {
      if tp == 16 { return false; }
      Shift(tmp, tp, colonp);
      assert tmp[..] == out[..colonp] + Zeros(16 - tp) + out[colonp..];
      tp := 16;
    }
    assert tmp[..16] == tmp[..];
    return tp == 16;
  }

  /** inet_pton6. */
  method InetPton6(text: seq<nat>, dst: array<nat>) returns (rc: int)
    requires dst.Length == 16
    modifies dst
    ensures rc == if Pton6(text).Some? then 0 else EINVAL
    ensures dst[..] == if Pton6(text).Some? then Pton6(text).value else old(dst[..])
  {
    var src := text;
    if text != [] && text[0] == COLON {
      src := text[1..];
      if src == [] || src[0] != COLON { return EINVAL; }
    }
    hide Run6, End6;
    var tmp := new nat[16](_ => 0);
    var ok, tp, colonp, seen, val;
    ghost var tok;
    ok, tp, colonp, seen, val, tok := Scan(src, tmp);
    if !ok { return EINVAL; }
    ok := Finish(tmp, tp, colonp, seen, val, tok);
    if !ok { return EINVAL; }
    assert tmp[..] == Pton6(text).value;
    forall k | 0 <= k < 16 { dst[k] := tmp[k]; }
    rc := 0;
  }
}
