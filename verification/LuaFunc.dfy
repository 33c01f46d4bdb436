/** Open upvalues and to-be-closed variables of a Lua thread: the sorted list of upvalues, and
    the list of levels kept as 16-bit distances in the stack itself. */
module LuaFunc {
  import opened Util

  const MAXDELTA := 65535

  // To-be-closed variables

  /** From a slot down over the dummy nodes, to a variable or to the bottom of the stack. */
  function Skip(delta: seq<nat>, p: nat): (q: nat)
    requires p < |delta|
    ensures q <= p
  {
    if p > 0 && delta[p] == 0 && p >= MAXDELTA then Skip(delta, p - MAXDELTA) else p
  }

  /** Dummy nodes are a whole number of largest distances above something else. */
  predicate Stepped(delta: seq<nat>, p: nat)
    requires p < |delta|
  {
    p > 0 && delta[p] == 0 ==> p >= MAXDELTA && Stepped(delta, p - MAXDELTA)
  }

  /** The list that starts at slot `p` is the stack of levels `ls`, the last one on top. */
  predicate Chain(delta: seq<nat>, p: nat, ls: seq<nat>)
    requires p < |delta|
    decreases |ls|
  {
    if ls == [] then p == 0
    else
      && p == ls[|ls| - 1] && 0 < delta[p] <= MAXDELTA && delta[p] <= p
      && Stepped(delta, p - delta[p])
      && Chain(delta, Skip(delta, p - delta[p]), ls[..|ls| - 1])
  }

  lemma {:induction false} SkipSame(d: seq<nat>, e: seq<nat>, p: nat)
    requires p < |d| && p < |e| && forall i :: 0 <= i <= p ==> d[i] == e[i]
    ensures Skip(d, p) == Skip(e, p) && (Stepped(d, p) <==> Stepped(e, p))
  {
    if p > 0 && d[p] == 0 && p >= MAXDELTA { SkipSame(d, e, p - MAXDELTA); }
  }

  /** The list does not depend on what is above it. */
  lemma {:induction false} ChainSame(d: seq<nat>, e: seq<nat>, p: nat, ls: seq<nat>)
    requires p < |d| && p < |e| && forall i :: 0 <= i <= p ==> d[i] == e[i]
    ensures Chain(d, p, ls) <==> Chain(e, p, ls)
    decreases |ls|
  {
    if ls != [] && d[p] <= p {
      SkipSame(d, e, p - d[p]);
      ChainSame(d, e, Skip(d, p - d[p]), ls[..|ls| - 1]);
    }
  }

  /** Levels go up. */
  lemma {:induction false} ChainSorted(delta: seq<nat>, p: nat, ls: seq<nat>)
    requires p < |delta| && Chain(delta, p, ls)
    ensures forall i, j :: 0 <= i < j < |ls| ==> ls[i] < ls[j]
    ensures forall i :: 0 <= i < |ls| ==> 0 < ls[i] <= p
    decreases |ls|
  {
    if ls != [] { ChainSorted(delta, Skip(delta, p - delta[p]), ls[..|ls| - 1]); }
  }

  /** A list starts at the bottom or at a variable. */
  lemma ChainTop(delta: seq<nat>, p: nat, ls: seq<nat>)
    requires p < |delta| && Chain(delta, p, ls)
    ensures p == 0 || delta[p] > 0
    ensures Skip(delta, p) == p && Stepped(delta, p)
    ensures ls == [] <==> p == 0
  {
  }

  class TbcList {
    /** The distances in the slots of the stack. */
    const delta: array<nat>
    /** The slot on top of the list. */
    var top: nat
    ghost var levels: seq<nat>

    ghost predicate Valid()
      reads this, delta
    {
      top < delta.Length && Chain(delta[..], top, levels)
    }

    constructor (size: nat)
      requires size > 0
      ensures Valid() && levels == [] && delta.Length == size && fresh(delta)
    {
      delta := new nat[size](_ => 0);
      top, levels := 0, [];
    }

    /** luaF_newtbcupval; `isFalse` for nil and false, which need no closing, `closable` for a
        value that has the metamethod. */
    method New(level: nat, isFalse: bool, closable: bool) returns (ok: bool)
      requires Valid() && top < level < delta.Length
      modifies this, delta
      ensures Valid() && (ok <==> isFalse || closable)
      ensures levels == if !isFalse && closable then old(levels) + [level] else old(levels)
    {
      if isFalse { return true; }
      if !closable { return false; }
      ghost var was, p, ls := delta[..], top, levels;
      ChainTop(was, p, ls);
      while level - top > MAXDELTA
        invariant p <= top < level && top < delta.Length
        invariant forall i :: 0 <= i <= p ==> delta[i] == was[i]
        invariant Skip(delta[..], top) == p && Stepped(delta[..], top)
        invariant top > p ==> delta[top] == 0
        decreases level - top
      {
        ghost var before, t := delta[..], top;
        top := top + MAXDELTA;
        delta[top] := 0;
        SkipSame(before, delta[..], t);
      }
      ghost var before, t := delta[..], top;
      delta[level] := level - top;
      SkipSame(before, delta[..], t);
      ChainSame(was, delta[..], p, ls);
      top := level;
      levels := ls + [level];
      assert levels[..|levels| - 1] == ls;
      return true;
    }

    /** poptbclist. */
    method Pop()
      requires Valid() && levels != []
      modifies this`top, this`levels
      ensures Valid() && levels == old(levels)[..|old(levels)| - 1] && top < old(top)
    {
      var tbc: nat := top;
      tbc := tbc - delta[tbc];
      ghost var p := tbc;
      while tbc > 0 && delta[tbc] == 0
        invariant tbc <= p && Skip(delta[..], p) == Skip(delta[..], tbc) && Stepped(delta[..], tbc)
      {
        tbc := tbc - MAXDELTA;
      }
      top := tbc;
      levels := levels[..|levels| - 1];
    }

    /** What a closing method may leave behind: anything above the list, which is as before
        when it returns or is left by an error. */
    method Scribble(noise: seq<nat>)
      requires Valid()
      modifies delta
      ensures Valid()
    {
      ghost var was := delta[..];
      forall i | top < i < delta.Length && i < |noise| {
        delta[i] := noise[i];
      }
      ChainSame(was, delta[..], top, levels);
    }

    /** The loop of luaF_close: variables down to `level` are closed, each once, the last one
        first. Closing methods leave noise above the list; the n-th call ends in an error if
        `fails[n]`, which leaves the loop. */
    method Close(level: nat, noise: seq<nat>, fails: seq<bool>, calls: nat) returns (ok: bool, closed: seq<nat>)
      requires Valid() && level > 0
      modifies this, delta
      ensures Valid() && (ok ==> forall l :: l in levels ==> l < level)
      ensures |levels| <= |old(levels)| && old(levels) == levels + Reversed(closed)
      ensures forall l :: l in closed ==> l >= level
      ensures !ok ==> closed != []
    {
      closed := [];
      ghost var start := levels;
      assert levels + [] == levels;
      while top >= level
        invariant Valid() && start == levels + Reversed(closed)
        invariant forall l :: l in closed ==> l >= level
        decreases top
      {
        ChainTop(delta[..], top, levels);
        var tbc := top;
        ghost var ls := levels;
        Pop();
        closed := closed + [tbc];
        ReversedSnoc(closed[..|closed| - 1], tbc);
        assert closed[..|closed| - 1] + [tbc] == closed;
        assert ls == levels + [tbc];
        assert levels + ([tbc] + Reversed(closed[..|closed| - 1])) == ls + Reversed(closed[..|closed| - 1]);
        Scribble(noise);
        if calls + |closed| - 1 < |fails| && fails[calls + |closed| - 1] {
          return false, closed;
        }
      }
      ChainSorted(delta[..], top, levels);
      ok := true;
    }

    /** luaD_closeprotected: after an error the closing goes on with what is left. */
    method CloseProtected(level: nat, noise: seq<nat>, fails: seq<bool>) returns (closed: seq<nat>)
      requires Valid() && level > 0
      modifies this, delta
      ensures Valid() && old(levels) == levels + Reversed(closed)
      ensures forall l :: l in levels ==> l < level
      ensures forall l :: l in closed ==> l >= level
    {
      closed := [];
      ghost var start := levels;
      assert levels + [] == levels;
      var ok := false;
      while !ok
        invariant Valid() && start == levels + Reversed(closed)
        invariant ok ==> forall l :: l in levels ==> l < level
        invariant forall l :: l in closed ==> l >= level
        decreases |levels|, !ok
      {
        ghost var ls := levels;
        var some;
        ok, some := Close(level, noise, fails, |closed|);
        ReversedJoin(closed, some);
        assert levels + (Reversed(some) + Reversed(closed)) == ls + Reversed(closed);
        ReversedSize(some);
        closed := closed + some;
      }
    }
  }

  // Open upvalues

  class UpVal {
    /** While it is open: its stack slot and its neighbours in the list; `previous` is the
        upvalue whose `next` points here, or null for the head. */
    var isOpen: bool
    var level: nat
    var next: UpVal?
    var previous: UpVal?
    /** Where the value lives once it is closed. */
    var value: int

    constructor (level: nat, previous: UpVal?, next: UpVal?)
      ensures isOpen && this.level == level && this.previous == previous && this.next == next
    {
      isOpen, this.level, this.previous, this.next := true, level, previous, next;
      value := 0;
    }
  }

  ghost predicate Decreasing(s: seq<UpVal>)
    reads s`level
  {
    forall i, j :: 0 <= i < j < |s| ==> s[i].level > s[j].level
  }

  lemma DecreasingInsert(s: seq<UpVal>, k: nat, uv: UpVal)
    requires Decreasing(s) && k <= |s|
    requires forall i :: 0 <= i < |s| ==> if i < k then s[i].level > uv.level else s[i].level < uv.level
    ensures Decreasing(InsertAt(s, k, uv))
  {
  }

  lemma Apart(s: seq<UpVal>, i: nat, j: nat)
    requires Decreasing(s) && i < |s| && j < |s| && i != j
    ensures s[i] != s[j]
  {
  }

  class Thread {
    const stack: array<int>
    var openupval: UpVal?
    ghost var open: seq<UpVal>

    ghost predicate Linked(s: seq<UpVal>, i: nat)
      requires i < |s|
      reads s
    {
      && s[i].isOpen && s[i].level < stack.Length
      && s[i].next == At(s, i + 1) && s[i].previous == (if i > 0 then s[i - 1] else null)
    }

    /** The list is sorted: one upvalue a level, the highest level first. */
    ghost predicate Valid()
      reads this, open
    {
      && openupval == (if open == [] then null else open[0])
      && (forall i: nat :: i < |open| ==> Linked(open, i))
      && Decreasing(open)
    }

    /** What an upvalue of this thread stands for. */
    function Value(uv: UpVal): int
      reads uv`isOpen, uv`level, uv`value, stack
    {
      if !uv.isOpen then uv.value else if uv.level < stack.Length then stack[uv.level] else 0
    }

    /** luaF_findupval: the upvalue of the slot, which is shared by all that capture it. */
    method Find(level: nat) returns (uv: UpVal)
      requires Valid() && level < stack.Length
      modifies this, open`next, open`previous
      ensures Valid() && uv in open && uv.level == level
      ensures (exists x :: x in old(open) && x.level == level) ==> open == old(open) && uv in old(open)
      ensures !(exists x :: x in old(open) && x.level == level) ==>
        fresh(uv) && exists k: nat :: k <= |old(open)| && open == InsertAt(old(open), k, uv)
    {
      var pp: UpVal?, p := null, openupval;
      ghost var k := 0;
      while p != null && p.level >= level
        invariant k <= |open| && p == (if k < |open| then open[k] else null)
        invariant pp == (if k > 0 then open[k - 1] else null)
        invariant forall i :: 0 <= i < k ==> open[i].level > level
        decreases |open| - k
      {
        assert Linked(open, k);
        if p.level == level { return p; }
        pp := p;
        p := p.next;
        k := k + 1;
      }
      uv := NewUpVal(level, pp, k);
    }

    /** newupval, after the entry `prev`. */
    method NewUpVal(level: nat, prev: UpVal?, ghost k: nat) returns (uv: UpVal)
      requires Valid() && level < stack.Length && k <= |open| && prev == (if k > 0 then open[k - 1] else null)
      requires forall i :: 0 <= i < |open| ==> if i < k then open[i].level > level else open[i].level < level
      modifies this, open`next, open`previous
      ensures Valid() && fresh(uv) && uv.level == level && open == InsertAt(old(open), k, uv)
    {
      hide Decreasing, InsertAt, NextAt, PreviousAt, Linked, At, Relinked;
      ghost var was := open;
      Neighbour(k);
      AllOpen();
      var next := if prev == null then openupval else prev.next;
      uv := new UpVal(level, prev, next);
      assert forall j: nat :: j < |was| ==> was[j] != uv;
      DecreasingInsert(was, k, uv);
      AttachAt(uv, prev, next, k, was);
      forall i: nat | i <= |was| ensures Linked(InsertAt(was, k, uv), i) {
        LinkedNow(was, k, uv, i);
      }
      open := InsertAt(was, k, uv);
    }

    lemma Neighbour(k: nat)
      requires Valid() && k <= |open|
      ensures At(open, k) == if k > 0 then open[k - 1].next else openupval
    {
      if k > 0 { assert Linked(open, k - 1); }
    }

    lemma AllOpen()
      requires Valid()
      ensures forall j: nat :: j < |open| ==> open[j].isOpen && open[j].level < stack.Length
    {
      forall j: nat | j < |open| ensures open[j].isOpen && open[j].level < stack.Length {
        assert Linked(open, j);
      }
    }

    /** The neighbours of all upvalues are those of the list with `uv` at position `k`. */
    ghost predicate Relinked(was: seq<UpVal>, k: nat, uv: UpVal)
      requires k <= |was|
      reads was, uv
    {
      && (forall j: nat :: j < |was| ==> was[j].isOpen && was[j].level < stack.Length)
      && (forall j: nat :: j < |was| ==> was[j].next == NextAt(was, k, uv, j))
      && (forall j: nat :: j < |was| ==> was[j].previous == PreviousAt(was, k, uv, j))
      && uv.isOpen && uv.level < stack.Length && uv.next == At(was, k)
      && uv.previous == if k > 0 then was[k - 1] else null
    }

    lemma LinkedNow(was: seq<UpVal>, k: nat, uv: UpVal, i: nat)
      requires k <= |was| && i <= |was| && Relinked(was, k, uv)
      ensures Linked(InsertAt(was, k, uv), i)
    {
      if i < k { LinkedBefore(was, k, uv, i); }
        else if i > k { LinkedAfter(was, k, uv, i); } else { LinkedHere(was, k, uv); }
    }

    lemma LinkedBefore(was: seq<UpVal>, k: nat, uv: UpVal, i: nat)
      requires i < k <= |was| && Relinked(was, k, uv)
      ensures Linked(InsertAt(was, k, uv), i)
    {
      var now := InsertAt(was, k, uv);
      assert now[i] == was[i] && now[i + 1] == if i + 1 == k then uv else was[i + 1];
      assert i > 0 ==> now[i - 1] == was[i - 1];
    }

    lemma LinkedHere(was: seq<UpVal>, k: nat, uv: UpVal)
      requires k <= |was| && Relinked(was, k, uv)
      ensures Linked(InsertAt(was, k, uv), k)
    {
    }

    lemma LinkedAfter(was: seq<UpVal>, k: nat, uv: UpVal, i: nat)
      requires k < i <= |was| && Relinked(was, k, uv)
      ensures Linked(InsertAt(was, k, uv), i)
    {
      var now, j: nat := InsertAt(was, k, uv), i - 1;
      assert now[i] == was[j] && now[j] == if j == k then uv else was[j - 1];
    }

    method AttachAt(uv: UpVal, prev: UpVal?, next: UpVal?, ghost k: nat, ghost was: seq<UpVal>)
      requires Valid() && was == open && k <= |was| && prev == (if k > 0 then was[k - 1] else null)
        && next == At(was, k)
      requires (forall j: nat :: j < |was| ==> was[j] != uv && was[j].isOpen && was[j].level < stack.Length)
        && uv.isOpen && uv.level < stack.Length && uv.previous == prev && uv.next == next
      modifies this`openupval, was`next, was`previous
      ensures Relinked(was, k, uv)
      ensures openupval == if k == 0 then uv else was[0]
    {
      hide Decreasing;
      Attach(uv, prev, next);
      forall j: nat | j < |was|
        ensures was[j].next == NextAt(was, k, uv, j)
        ensures was[j].previous == PreviousAt(was, k, uv, j)
      {
        assert old(Linked(open, j));
        if k > 0 && j != k - 1 { Apart(was, j, k - 1); }
        if k < |was| && j != k { Apart(was, j, k); }
      }
    }

    method Attach(uv: UpVal, prev: UpVal?, next: UpVal?)
      modifies this`openupval, Opt(prev)`next, Opt(next)`previous
      ensures next != null ==> next.previous == uv
      ensures prev != null ==> prev.next == uv && openupval == old(openupval)
      ensures prev == null ==> openupval == uv
    {
      if next != null { next.previous := uv; }
      if prev == null { openupval := uv; } else { prev.next := uv; }
    }
  
    /** luaF_unlinkupval, for any entry of the list. */
    method Unlink(uv: UpVal, ghost k: nat)
      requires Valid() && k < |open| && open[k] == uv
      modifies this, open`next, open`previous
      ensures Valid() && open == old(open)[..k] + old(open)[k + 1..] && uv.isOpen == old(uv.isOpen)
    {
      hide Decreasing;
      ghost var was := open;
      assert Linked(open, k);
      assert k + 1 < |open| ==> Linked(open, k + 1);
      DecreasingWithout(was, k);
      if k > 0 { Apart(was, k, k - 1); }
      if k + 1 < |was| { Apart(was, k, k + 1); }
      Detach(uv);
      open := was[..k] + was[k + 1..];
      forall i: nat | i < |open| ensures Linked(open, i) {
        ghost var j: nat := if i < k then i else i + 1;
        assert old(Linked(open, j)) && open[i] == was[j];
        if k > 0 && j != k - 1 { Apart(was, j, k - 1); }
        if k + 1 < |was| && j != k + 1 { Apart(was, j, k + 1); }
      }
    }

    method Detach(uv: UpVal)
      modifies this`openupval, Opt(uv.previous)`next, Opt(uv.next)`previous
      requires uv.previous != uv && uv.next != uv
      ensures uv.next != null ==> uv.next.previous == uv.previous
      ensures uv.previous != null ==> uv.previous.next == uv.next && openupval == old(openupval)
      ensures uv.previous == null ==> openupval == uv.next
    {
      if uv.previous == null { openupval := uv.next; } else { uv.previous.next := uv.next; }
      if uv.next != null { uv.next.previous := uv.previous; }
    }

    /** The head leaves the list; its value moves into it. */
    method CloseHead(uv: UpVal)
      requires Valid() && open != [] && uv == open[0]
      modifies this, open`next, open`previous, uv`isOpen, uv`value
      ensures Valid() && open == old(open)[1..]
      ensures !uv.isOpen && uv.level < stack.Length && uv.value == stack[uv.level] && Value(uv) == old(Value(uv))
    {
      hide Decreasing;
      assert Linked(open, 0);
      ghost var was := open;
      Unlink(uv, 0);
      forall i: nat | i < |open| ensures open[i] != uv {
        Apart(was, i + 1, 0);
      }
      uv.value := stack[uv.level];
      uv.isOpen := false;
      assert forall i: nat :: i < |open| ==> Linked(open, i);
    }

    ghost function Values(s: seq<UpVal>): (v: seq<int>)
      reads s, stack
      ensures |v| == |s| && forall i :: 0 <= i < |s| ==> v[i] == Value(s[i])
    {
      if s == [] then [] else Values(s[..|s| - 1]) + [Value(s[|s| - 1])]
    }

    /** luaF_closeupval: the upvalues from `level` up leave the list, the highest first, and
        keep their values. */
    method CloseUpvals(level: nat) returns (ghost k: nat)
      requires Valid()
      modifies this, open`next, open`previous, open`isOpen, open`value
      ensures Valid() && k <= |old(open)| && open == old(open)[k..]
      ensures forall i: nat ::
        i < |old(open)| ==> (i < k <==> old(open)[i].level >= level) && (i < k <==> !old(open)[i].isOpen)
      ensures forall i: nat :: i < |old(open)| ==> Value(old(open)[i]) == old(Value(open[i]))
    {
      hide Linked, Value, Decreasing;
      k := 0;
      ghost var was, vals := open, Values(open);
      assert was[0..] == was;
      AllOpen();
      while openupval != null && openupval.level >= level
        invariant Valid() && k <= |was| && open == was[k..] && Decreasing(was)
        invariant forall i: nat :: i < |was| ==> (i < k <==> !was[i].isOpen) && Value(was[i]) == vals[i]
        invariant forall i: nat :: i < k ==> was[i].level >= level
        decreases |open|
      {
        assert open[0] == was[k] && was[k..][1..] == was[k + 1..];
        label before:
        CloseHead(openupval);
        forall i: nat | i < |was| ensures (i < k + 1 <==> !was[i].isOpen) && Value(was[i]) == vals[i] {
          if i != k {
            Apart(was, i, k);
            assert was[i].isOpen == old@before(was[i].isOpen) && Value(was[i]) == old@before(Value(was[i]));
          }
        }
        k := k + 1;
      }
      Below(level);
    }

    lemma Below(level: nat)
      requires Valid() && (openupval == null || openupval.level < level)
      ensures forall i: nat :: i < |open| ==> open[i].level < level
    {
    }
  }

  lemma DecreasingWithout(s: seq<UpVal>, k: nat)
    requires Decreasing(s) && k < |s|
    ensures Decreasing(s[..k] + s[k + 1..])
  {
  }

  function At(s: seq<UpVal>, i: nat): UpVal? { if i < |s| then s[i] else null }

  /** The neighbours of the entry at `j` when `uv` has come before entry `k`. */
  function NextAt(s: seq<UpVal>, k: nat, uv: UpVal, j: nat): UpVal? {
    if j + 1 == k then uv else At(s, j + 1)
  }

  function PreviousAt(s: seq<UpVal>, k: nat, uv: UpVal, j: nat): UpVal?
    requires j < |s|
  {
    if j == k then uv else if j > 0 then s[j - 1] else null
  }

  function Opt(x: UpVal?): set<UpVal> { if x == null then {} else {x} }

  function Reversed(s: seq<nat>): seq<nat> {
    if s == [] then [] else [s[|s| - 1]] + Reversed(s[..|s| - 1])
  }

  lemma ReversedSnoc(s: seq<nat>, x: nat)
    ensures Reversed(s + [x]) == [x] + Reversed(s)
  {
    assert (s + [x])[..|s|] == s;
  }

  lemma {:induction false} ReversedSize(s: seq<nat>)
    ensures |Reversed(s)| == |s|
  {
    if s != [] { ReversedSize(s[..|s| - 1]); }
  }

  lemma {:induction false} ReversedJoin(a: seq<nat>, b: seq<nat>)
    ensures Reversed(a + b) == Reversed(b) + Reversed(a)
    decreases |b|
  {
    hide Reversed;
    if b == [] {
      assert a + b == a && Reversed(b) == [] by { ReversedNone(); }
    } else {
      var k := |b| - 1;
      var c, x := b[..k], b[k];
      assert b == c + [x] && a + b == (a + c) + [x];
      ReversedSnoc(c, x);
      ReversedSnoc(a + c, x);
      ReversedJoin(a, c);
      assert [x] + (Reversed(c) + Reversed(a)) == ([x] + Reversed(c)) + Reversed(a);
    }
  }

  lemma ReversedNone()
    ensures Reversed([]) == []
  {
  }
}
