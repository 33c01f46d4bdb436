/** The last pass over the code of a function: jumps to jumps go straight to where the
    chain ends. */
module LuaFinish {
  import opened LuaVm
  import opened LuaBool

  /** All jumps stay inside the code. */
  predicate JumpsInside(c: Code) {
    forall i :: 0 <= i < |c| && c[i].Jmp? ==> 0 <= i + 1 + c[i].sj < |c|
  }

  /** One jump, if there is one at `i`. */
  function Follow(c: Code, i: nat): (j: nat)
    requires JumpsInside(c) && i < |c|
    ensures j < |c|
  {
    if c[i].Jmp? then i + 1 + c[i].sj else i
  }

  /** After following at most `n` jumps. */
  function Chain(c: Code, i: nat, n: nat): (j: nat)
    requires JumpsInside(c) && i < |c|
    ensures j < |c|
    decreases n
  {
    if n == 0 then i else Chain(c, Follow(c, i), n - 1)
  }

  /** From `i`, at most `n` jumps lead to `t`, which is no jump. */
  predicate LandsIn(c: Code, i: nat, t: nat, n: nat)
    requires JumpsInside(c) && i < |c|
  {
    Chain(c, i, n) == t && !c[t].Jmp?
  }

  /** `t` is the next instruction executed from `i` that is no jump. When there is none the
      jumps go in a cycle for ever. */
  ghost predicate Lands(c: Code, i: nat, t: nat)
    requires JumpsInside(c) && i < |c|
  {
    exists n: nat :: LandsIn(c, i, t, n)
  }

  lemma {:induction false} ChainStays(c: Code, i: nat, n: nat)
    requires JumpsInside(c) && i < |c| && !c[i].Jmp?
    ensures Chain(c, i, n) == i
  {
    if n > 0 { ChainStays(c, i, n - 1); }
  }

  lemma {:induction false} ChainMore(c: Code, i: nat, m: nat, n: nat)
    requires JumpsInside(c) && i < |c|
    ensures Chain(c, Chain(c, i, m), n) == Chain(c, i, m + n)
    decreases m
  {
    if m > 0 { ChainMore(c, Follow(c, i), m - 1, n); }
  }

  /** `d` is `c` with the jump at `i` going where its chain of `k` jumps led. */
  predicate Shortened(c: Code, d: Code, i: nat, k: nat)
    requires JumpsInside(c)
  {
    && i < |c| && c[i].Jmp? && k > 0 && d == c[i := Jmp(Chain(c, i, k) - (i + 1))]
  }

  lemma ShortenedInside(c: Code, d: Code, i: nat, k: nat)
    requires JumpsInside(c) && Shortened(c, d, i, k)
    ensures JumpsInside(d) && |d| == |c| && forall j :: 0 <= j < |c| ==> (d[j].Jmp? <==> c[j].Jmp?)
    ensures forall j :: 0 <= j < |c| ==> Follow(d, j) == if j == i then Chain(c, i, k) else Follow(c, j)
  {
  }

  /** Whatever could be reached still is, in no more jumps. */
  lemma {:induction false} ShortenedLands(c: Code, d: Code, i: nat, k: nat, p: nat, t: nat, n: nat)
    requires JumpsInside(c) && Shortened(c, d, i, k) && p < |c| && LandsIn(c, p, t, n)
    ensures JumpsInside(d) && LandsIn(d, p, t, n)
    decreases n
  {
    ShortenedInside(c, d, i, k);
    if !c[p].Jmp? {
      ChainStays(c, p, n);
      ChainStays(d, p, n);
    } else if p != i {
      ShortenedLands(c, d, i, k, Follow(c, p), t, n - 1);
    } else {
      var q := Chain(c, i, k);
      if k < n {
        ChainMore(c, i, k, n - k);
        ShortenedLands(c, d, i, k, q, t, n - k);
        ChainMore(d, q, n - k, k - 1);
        ChainStays(d, t, k - 1);
      } else {
        ChainMore(c, i, n, k - n);
        ChainStays(c, t, k - n);
        ChainStays(d, t, n - 1);
      }
    }
  }

  /** Nothing else can be reached. */
  lemma {:induction false} ShortenedBack(c: Code, d: Code, i: nat, k: nat, p: nat, n: nat) returns (m: nat)
    requires JumpsInside(c) && Shortened(c, d, i, k) && p < |c|
    ensures JumpsInside(d) && Chain(c, p, m) == Chain(d, p, n)
    decreases n
  {
    ShortenedInside(c, d, i, k);
    if n == 0 {
      m := 0;
    } else if p == i {
      var rest := ShortenedBack(c, d, i, k, Chain(c, i, k), n - 1);
      ChainMore(c, i, k, rest);
      m := k + rest;
    } else {
      var rest := ShortenedBack(c, d, i, k, Follow(c, p), n - 1);
      m := rest + 1;
    }
  }

  /** Two codes that differ in jumps only, and take every point to the same place. */
  ghost predicate SameTargets(c: Code, d: Code) {
    && JumpsInside(c) && JumpsInside(d) && |c| == |d|
    && (forall i :: 0 <= i < |c| ==> if c[i].Jmp? then d[i].Jmp? else d[i] == c[i])
    && (forall i, t :: 0 <= i < |c| ==> (Lands(c, i, t) <==> Lands(d, i, t)))
    && (forall i, t, n :: 0 <= i < |c| && LandsIn(c, i, t, n) ==> LandsIn(d, i, t, n))
  }

  lemma ShortenedSame(c: Code, d: Code, i: nat, k: nat)
    requires JumpsInside(c) && Shortened(c, d, i, k)
    ensures SameTargets(c, d)
  {
    ShortenedInside(c, d, i, k);
    forall p, t, n | 0 <= p < |c| && LandsIn(c, p, t, n) ensures LandsIn(d, p, t, n) {
      ShortenedLands(c, d, i, k, p, t, n);
    }
    forall p, t | 0 <= p < |c| ensures Lands(c, p, t) <==> Lands(d, p, t) {
      if Lands(d, p, t) {
        var n :| LandsIn(d, p, t, n);
        var m := ShortenedBack(c, d, i, k, p, n);
        assert LandsIn(c, p, t, m);
      }
      if Lands(c, p, t) {
        var n :| LandsIn(c, p, t, n);
        assert LandsIn(d, p, t, n);
      }
    }
  }

  lemma SameTrans(c: Code, d: Code, e: Code)
    requires SameTargets(c, d) && SameTargets(d, e)
    ensures SameTargets(c, e)
  {
  }

  /** finaltarget: follows at most 100 jumps, so that cycles do no harm. */
  method FinalTarget(c: Code, start: nat) returns (i: nat, ghost k: nat)
    requires JumpsInside(c) && start < |c| && c[start].Jmp?
    ensures 0 < k <= 100 && i == Chain(c, start, k)
    ensures k < 100 ==> !c[i].Jmp?
  {
    i, k := start, 0;
    var count := 0;
    while count < 100
      invariant 0 <= count <= 100 && k == count && i == Chain(c, start, k) && i < |c|
      invariant count == 0 ==> i == start
    {
      if !c[i].Jmp? { return; }
      ChainMore(c, start, k, 1);
      i := i + 1 + c[i].sj;
      count := count + 1;
      k := k + 1;
    }
  }

  /** A chain that ends within the limit is followed to its end. */
  lemma TargetIsLanding(c: Code, start: nat, i: nat, k: nat, t: nat, n: nat)
    requires JumpsInside(c) && start < |c| && k <= 100 && i == Chain(c, start, k) && (k < 100 ==> !c[i].Jmp?)
    requires LandsIn(c, start, t, n) && n <= 100
    ensures i == t
  {
    if k <= n {
      ChainMore(c, start, k, n - k);
      if k < 100 { ChainStays(c, i, n - k); }
    } else {
      ChainMore(c, start, n, k - n);
      ChainStays(c, t, k - n);
    }
  }

  /** The jump pass of luaK_finish, in place. Every point still comes to the same next
      instruction, or to none; jumps whose chain is no longer than the limit go straight
      there. It fails only when an offset does not fit, and never when the code is no longer
      than the largest offset. */
  method Finish(code: array<Instr>) returns (st: Status)
    requires JumpsInside(code[..])
    modifies code
    ensures st == Ok || st == TooLong
    ensures code.Length <= MAX_OFFSET ==> st.Ok?
    ensures SameTargets(old(code[..]), code[..])
    ensures st.Ok? ==>
      forall i: nat, t: nat, n: nat ::
      i < code.Length && old(code[..])[i].Jmp? && n <= 100 && LandsIn(old(code[..]), i, t, n) ==>
              code[i] == Jmp(t - (i + 1))
  {
    hide SameTargets;
    ghost var c0 := code[..];
    SameRefl(c0);
    var i := 0;
    while i < code.Length
      invariant 0 <= i <= code.Length && |c0| == code.Length
      invariant SameTargets(c0, code[..])
      invariant forall j :: i <= j < code.Length ==> code[j] == c0[j]
      invariant Straight(c0, code[..], i)
    {
      ghost var c := code[..];
      SameMeans(c0, c);
      if code[i].Jmp? {
        var target: nat;
        ghost var k: nat;
        target, k := FinalTarget(code[..], i);
        var offset := target - (i + 1);
        if !(-MAX_OFFSET <= offset <= MAX_OFFSET + 1) {
          return TooLong;
        }
        code[i] := Jmp(offset);
        assert code[..] == c[i := Jmp(offset)];
        ShortenedSame(c, code[..], i, k);
        SameTrans(c0, c, code[..]);
        StraightNext(c0, c, code[..], i, target, k);
      } else {
        StraightSkip(c0, c, i);
      }
      i := i + 1;
    }
    st := Ok;
  }

  /** The first `i` jumps with short chains are straight. */
  ghost predicate Straight(c0: Code, c: Code, i: nat)
    requires JumpsInside(c0) && |c| == |c0|
  {
    forall j: nat, t: nat, n: nat ::
      j < i && j < |c0| && c0[j].Jmp? && n <= 100 && LandsIn(c0, j, t, n) ==> c[j] == Jmp(t - (j + 1))
  }

  lemma StraightNext(c0: Code, c: Code, d: Code, i: nat, target: nat, k: nat)
    requires SameTargets(c0, c) && |d| == |c0| && Straight(c0, c, i) && i < |c|
    requires k <= 100 && target == Chain(c, i, k) && (k < 100 ==> !c[target].Jmp?) && d == c[i := Jmp(target - (i + 1))]
    ensures Straight(c0, d, i + 1)
  {
    forall j: nat, t: nat, n: nat | j < i + 1 && c0[j].Jmp? && n <= 100 && LandsIn(c0, j, t, n)
      ensures d[j] == Jmp(t - (j + 1))
    {
      if j == i { TargetIsLanding(c, i, target, k, t, n); }
    }
  }

  lemma StraightSkip(c0: Code, c: Code, i: nat)
    requires SameTargets(c0, c) && Straight(c0, c, i) && i < |c| && !c[i].Jmp?
    ensures Straight(c0, c, i + 1)
  {
  }

  lemma SameRefl(c: Code)
    requires JumpsInside(c)
    ensures SameTargets(c, c)
  {
  }

  lemma SameMeans(c: Code, d: Code)
    requires SameTargets(c, d)
    ensures JumpsInside(c) && JumpsInside(d) && |c| == |d|
  {
  }
}
