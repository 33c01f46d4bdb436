/** Allocation, upvalues, strings found again, roots, and objects that get a finalizer. */
module LuaObjects {
  import opened LuaHeap
  import opened LuaMarks
  import opened LuaLists
  import opened LuaTricolor
  import opened LuaGc
  import opened LuaState
  import opened LuaGen
  import opened LuaSweep
  import opened LuaMutator

  /** `sweepgc` points into a list: it stays with its object when the list gets a new
      head, and stays at the head of the list when it points there. */
  function Shift(p: SweepPos): SweepPos {
    if p.From? && p.i > 0 then From(p.i + 1) else p
  }

  /** What a new object may hold: live objects, no metatable, no open upvalues. */
  predicate FreshOk(s: State, o: Id, ob: Object) {
    && o !in s.hp && o !in s.mk && !ob.OpenUpval? && (ob.Thread? ==> ob.upvals == [])
    && (ob.Table? || ob.Udata? ==> ob.meta == Nil)
    && RefSet(ob) <= Live(s)
  }

  function WithNew(s: State, o: Id, ob: Object): State {
    s.(hp := s.hp[o := ob], mk := s.mk[o := Mark(White(s.white), New, false)],
       ls := s.ls.(allgc := [o] + s.ls.allgc), sweep := if s.at.SwpAllGc? then Shift(s.sweep) else s.sweep)
  }

  lemma NewBase(s: State, o: Id, ob: Object)
    requires Base(s) && FreshOk(s, o, ob)
    ensures Base(WithNew(s, o, ob)) && Live(WithNew(s, o, ob)) == Live(s) + {o}
  {
    hide UpvalsOk, MetasOk, LiveClosed, Partition, RefSet, TwupsOk, KindsOk, FinOk, Roots;
    var t := WithNew(s, o, ob);
    assert Live(t) == Live(s) + {o};
    NewUpvals(s.hp, o, ob);
    NewClosed(s.hp, o, ob, Live(s));
    NewLists(s.hp, s.ls, o, ob);
    RootsSame(s, s.(hp := t.hp, mk := t.mk));
    NewRoots(s, t);
    NewKinds(s, o, ob);
  }

  lemma NewRoots(s: State, t: State)
    requires t.an == s.an && t.ls == s.ls.(allgc := t.ls.allgc)
    ensures Roots(t) == Roots(s)
  {
  }

  lemma NewUpvals(hp: Heap, o: Id, ob: Object)
    requires UpvalsOk(hp) && o !in hp && !ob.OpenUpval? && (ob.Thread? ==> ob.upvals == [])
    ensures UpvalsOk(hp[o := ob])
  {
  }

  lemma NewClosed(hp: Heap, o: Id, ob: Object, live: set<Id>)
    requires LiveClosed(hp, live) && MetasOk(hp, live) && UpvalsOk(hp) && o !in hp && !ob.OpenUpval?
      && RefSet(ob) <= live
    requires ob.Table? || ob.Udata? ==> ob.meta == Nil
    ensures LiveClosed(hp[o := ob], live + {o}) && MetasOk(hp[o := ob], live + {o})
  {
    hide RefSet;
    var h1 := hp[o := ob];
    RefSetIn(h1, ob, live + {o});
    forall x | x in live + {o} ensures x in h1 && RefsIn(h1, h1[x], live + {o}) {
      if x != o {
        assert RefsIn(hp, hp[x], live);
        if !hp[x].OpenUpval? {
          RefsInSame(hp, h1, hp[x], live);
          RefsInMonotone(h1, hp[x], live, live + {o});
        }
      }
    }
  }

  lemma NewLists(hp: Heap, ls: Objects, o: Id, ob: Object)
    requires Partition(hp, ls) && o !in hp
    ensures Partition(hp[o := ob], ls.(allgc := [o] + ls.allgc))
  {
    assert multiset(hp[o := ob].Keys) == multiset(hp.Keys) + multiset{o};
  }

  lemma NewKinds(s: State, o: Id, ob: Object)
    requires Base(s) && o !in s.hp && !ob.OpenUpval? && (ob.Thread? ==> ob.upvals == [])
    ensures TwupsOk(s.hp[o := ob], Live(s) + {o}, s.twups)
    ensures var t := WithNew(s, o, ob); KindsOk(t.hp, t.mk, t.ls, t.an) && FinOk(t.mk, t.ls)
  {
    hide UpvalsOk, MetasOk, LiveClosed, Partition, Live, Roots, TwupsOk, KindsOk, FinOk;
    PartitionFacts(s.hp, s.ls);
    NewTwups(s.hp, Live(s), s.twups, o, ob);
    NewFin(s.hp, s.mk, s.ls, s.an, o, ob, WithNew(s, o, ob).mk);
  }

  lemma NewTwups(hp: Heap, live: set<Id>, twups: seq<Id>, o: Id, ob: Object)
    requires TwupsOk(hp, live, twups) && o !in hp && (ob.Thread? ==> ob.upvals == [])
    ensures TwupsOk(hp[o := ob], live + {o}, twups)
  {
  }

  lemma NewFin(hp: Heap, mk: Marks, ls: Objects, an: Anchors, o: Id, ob: Object, m1: Marks)
    requires KindsOk(hp, mk, ls, an) && FinOk(mk, ls) && o !in hp && o !in ls.finobj && o !in ls.tobefnz
    requires o in m1 && !m1[o].fin && m1 == mk[o := m1[o]]
    ensures var ls1 := ls.(allgc := [o] + ls.allgc); KindsOk(hp[o := ob], m1, ls1, an) && FinOk(m1, ls1)
  {
  }

  lemma NewPhase(s: State, o: Id, ob: Object)
    requires Valid(s) && FreshOk(s, o, ob)
    ensures Phase(WithNew(s, o, ob))
  {
    hide Base, MarkPhase, Live, RefSet, Swept, AllSwept, SweptTo;
    BaseFacts(s);
    if KeepInvariant(s.at) { NewMarking(s, o, ob); } else { NewSweeping(s, o, ob); }
  }

  lemma NewMarking(s: State, o: Id, ob: Object)
    requires MarkPhase(s) && o !in s.hp && o !in s.mk && !s.at.SwpAllGc?
    ensures MarkPhase(WithNew(s, o, ob))
  {
    hide Tricolor, Marked;
    var t := WithNew(s, o, ob);
    NewTricolor(s.hp, o, ob, s.mk, t.mk, s.gray, s.links.grayagain, s.ls.fixedgc);
    NewMarked(s, o, t.mk);
  }

  lemma NewSweeping(s: State, o: Id, ob: Object)
    requires Phase(s) && !KeepInvariant(s.at) && Partition(s.hp, s.ls) && o !in s.hp && o !in s.mk
    ensures Phase(WithNew(s, o, ob))
  {
    hide MarkPhase, Partition;
    var t := WithNew(s, o, ob);
    PartitionFacts(s.hp, s.ls);
    NewSwept(s.mk, s.white, s.ls.allgc, o, t.mk, s.sweep);
    SweptOther(s.mk, s.white, s.ls.finobj, o, t.mk);
    SweptOther(s.mk, s.white, s.ls.tobefnz, o, t.mk);
  }

  lemma NewMarked(s: State, o: Id, m1: Marks)
    requires MarkPhase(s) && o !in s.mk && m1 == s.mk[o := Mark(White(s.white), New, false)]
    ensures Marked(s.mk) <= Marked(m1)
    ensures forall x :: x in m1 ==> m1[x].color != White(!s.white)
    ensures forall x :: x in m1 && x !in s.ls.fixedgc ==> m1[x].age.New?
    ensures s.an.main in Marked(m1) && s.links.weak == s.links.allweak == s.links.eph == []
  {
  }

  lemma SweptOther(mk: Marks, white: bool, l: seq<Id>, o: Id, m1: Marks)
    requires o !in l && m1.Keys == mk.Keys + {o} && forall x :: x in mk && x != o ==> m1[x] == mk[x]
    ensures forall n: nat :: Swept(mk, white, l, n) ==> Swept(m1, white, l, n)
  {
  }

  lemma NewSwept(mk: Marks, white: bool, l: seq<Id>, o: Id, m1: Marks, p: SweepPos)
    requires o !in mk && m1 == mk[o := Mark(White(white), New, false)]
    ensures Swept(mk, white, l, |l|) ==> Swept(m1, white, [o] + l, |l| + 1)
    ensures SweptTo(mk, white, l, p) ==> SweptTo(m1, white, [o] + l, Shift(p))
  {
    var l1 := [o] + l;
    assert forall j :: 0 < j < |l1| ==> l1[j] == l[j - 1];
  }

  lemma NewTricolor(hp: Heap, o: Id, ob: Object, mk: Marks, m1: Marks, gray: seq<Id>, again: seq<Id>, fixedgc: seq<Id>)
    requires Tricolor(hp, mk, gray, again, fixedgc) && o !in hp && m1.Keys == mk.Keys + {o} && m1[o].color.White?
    requires forall x :: x in mk ==> m1[x] == mk[x]
    ensures Tricolor(hp[o := ob], m1, gray, again, fixedgc)
  {
    hide RefsIn, Once;
    var h1 := hp[o := ob];
    assert Marked(m1) == Marked(mk);
    forall x | x in m1 && !m1[x].color.White? ensures Colored(h1, m1, gray, again, fixedgc, x) {
      assert Colored(hp, mk, gray, again, fixedgc, x);
      if m1[x].color.Black? { RefsInSame(hp, h1, hp[x], Marked(mk)); }
    }
  }

  /** luaC_newobj: a new object is white, and first in `allgc`. */
  method NewObject(g: GlobalState, o: Id, ob: Object)
    requires Ok(g) && FreshOk(Snap(g), o, ob)
    modifies g`hp, g`mk, g`ls, g`sweepgc
    ensures Ok(g) && Snap(g) == WithNew(old(Snap(g)), o, ob) && Live(Snap(g)) == Live(old(Snap(g))) + {o}
  {
    hide Base, Phase, GenInv, Live, RefSet, FreshOk;
    ghost var s := Snap(g);
    OkBase(g);
    NewBase(s, o, ob);
    if g.gckind.GenMinor? { NewGen(s, g.ptr, o, ob); } else { NewPhase(s, o, ob); }
    g.hp := g.hp[o := ob];
    g.mk := g.mk[o := Mark(White(g.currentwhite), New, false)];
    g.ls := g.ls.(allgc := [o] + g.ls.allgc);
    if g.gcstate.SwpAllGc? { g.sweepgc := Shift(g.sweepgc); }
    SnapNew(g, s);
    assert Snap(g) == WithNew(s, o, ob);
  }

  lemma SnapNew(g: GlobalState, s: State)
    requires g.grayagain == s.links.grayagain && g.weak == s.links.weak && g.allweak == s.links.allweak
      && g.ephemeron == s.links.eph
    requires g.an == s.an && g.twups == s.twups && g.currentwhite == s.white && g.gcstate == s.at && g.gray == s.gray
    ensures Snap(g) == s.(hp := g.hp, mk := g.mk, ls := g.ls, sweep := g.sweepgc)
  {
  }

  /** The upvalue `o`, just created, becomes open: it is linked in the list of `th` at
      position `i` and `th` in the list of threads with open upvalues. */
  function Linked(s: State, th: Id, slot: nat, o: Id, i: nat): State
    requires th in s.hp && s.hp[th].Thread? && i <= |s.hp[th].upvals|
  {
    var us := s.hp[th].upvals;
    s.(hp := s.hp[o := OpenUpval(th, slot)][th := Thread(s.hp[th].stack, us[..i] + [o] + us[i..])],
       twups := if th in s.twups then s.twups else [th] + s.twups)
  }

  lemma LinkBase(s: State, th: Id, slot: nat, o: Id, i: nat)
    requires Base(s) && th in s.hp && s.hp[th].Thread? && th in Live(s) && i <= |s.hp[th].upvals|
      && slot < |s.hp[th].stack|
    requires o in s.hp && s.hp[o] == ClosedUpval(Nil) && o in Live(s)
    ensures Base(Linked(s, th, slot, o, i)) && Live(Linked(s, th, slot, o, i)) == Live(s)
  {
    hide UpvalsOk, MetasOk, LiveClosed, Partition, TwupsOk, KindsOk, FinOk, Roots;
    var t := Linked(s, th, slot, o, i);
    assert Live(t) == Live(s);
    LinkUpvals(s.hp, th, slot, o, i, t.hp);
    LinkClosed(s.hp, th, slot, o, i, t.hp, Live(s));
    assert t.hp.Keys == s.hp.Keys;
    PartitionKeys(s.hp, t.hp, s.ls);
    RootsSame(s, t);
    LinkKinds(s, th, slot, o, i);
  }

  lemma LinkUpvals(hp: Heap, th: Id, slot: nat, o: Id, i: nat, h1: Heap)
    requires UpvalsOk(hp) && th in hp && hp[th].Thread? && i <= |hp[th].upvals| && slot < |hp[th].stack| && o in hp
      && hp[o].ClosedUpval?
    requires h1 == hp[o := OpenUpval(th, slot)][th :=
      Thread(hp[th].stack, hp[th].upvals[..i] + [o] + hp[th].upvals[i..])]
    ensures UpvalsOk(h1)
  {
    var us, vs := hp[th].upvals, h1[th].upvals;
    LinkShape(hp, th, slot, o, i, h1);
    InsertFacts(us, o, i);
    hide SlotValue;
    assert h1[th].upvals == us[..i] + [o] + us[i..];
    forall x | x in h1 && h1[x].OpenUpval?
      ensures h1[x].th in h1 && h1[h1[x].th].Thread? && h1[x].slot < |h1[h1[x].th].stack| && x in h1[h1[x].th].upvals
    {
      if x != o { assert h1[x] == hp[x]; }
    }
    forall x, j | x in h1 && h1[x].Thread? && 0 <= j < |h1[x].upvals|
      ensures h1[x].upvals[j] in h1 && h1[h1[x].upvals[j]].OpenUpval? && h1[h1[x].upvals[j]].th == x
    {
      if x == th { assert vs[j] in vs; } else { assert hp[x] == h1[x]; }
    }
  }

  lemma InsertFacts(us: seq<Id>, o: Id, i: nat)
    requires i <= |us| && o !in us && forall j, k :: 0 <= j < k < |us| ==> us[j] != us[k]
    ensures var vs := us[..i] + [o] + us[i..];
      && (forall x :: x in vs <==> x in us || x == o)
      && (forall j, k :: 0 <= j < k < |vs| ==> vs[j] != vs[k])
  {
    var vs := us[..i] + [o] + us[i..];
    assert forall j :: 0 <= j < |vs| ==> vs[j] == if j < i then us[j] else if j == i then o else us[j - 1];
    assert us == us[..i] + us[i..];
  }

  lemma LinkClosed(hp: Heap, th: Id, slot: nat, o: Id, i: nat, h1: Heap, live: set<Id>)
    requires UpvalsOk(hp) && LiveClosed(hp, live) && MetasOk(hp, live) && th in live && o in live
    requires th in hp && hp[th].Thread? && i <= |hp[th].upvals| && slot < |hp[th].stack| && o in hp
      && hp[o].ClosedUpval?
    requires h1 == hp[o := OpenUpval(th, slot)][th :=
      Thread(hp[th].stack, hp[th].upvals[..i] + [o] + hp[th].upvals[i..])]
    ensures LiveClosed(h1, live) && MetasOk(h1, live)
  {
    hide RefsIn, UpvalsOk;
    LinkShape(hp, th, slot, o, i, h1);
    forall x | x in live ensures x in h1 && RefsIn(h1, h1[x], live) {
      assert RefsIn(hp, hp[x], live) && RefsIn(hp, hp[th], live);
      LinkRefs(hp, th, slot, o, i, h1, live, x);
    }
  }

  lemma LinkShape(hp: Heap, th: Id, slot: nat, o: Id, i: nat, h1: Heap)
    requires UpvalsOk(hp) && th in hp && hp[th].Thread? && i <= |hp[th].upvals| && o in hp && hp[o].ClosedUpval?
    requires h1 == hp[o := OpenUpval(th, slot)][th :=
      Thread(hp[th].stack, hp[th].upvals[..i] + [o] + hp[th].upvals[i..])]
    ensures h1.Keys == hp.Keys && h1[o] == OpenUpval(th, slot) && h1[th].Thread? && h1[th].stack == hp[th].stack
    ensures forall x :: x in hp && x != o && x != th ==> h1[x] == hp[x]
    ensures forall t, k: nat :: SlotValue(h1, t, k) == SlotValue(hp, t, k)
    ensures o !in hp[th].upvals
  {
  }

  lemma LinkRefs(hp: Heap, th: Id, slot: nat, o: Id, i: nat, h1: Heap, live: set<Id>, x: Id)
    requires th in hp && hp[th].Thread? && i <= |hp[th].upvals| && slot < |hp[th].stack| && o in live && o in hp
      && x in hp
    requires RefsIn(hp, hp[x], live) && RefsIn(hp, hp[th], live) && h1.Keys == hp.Keys && h1[o] == OpenUpval(th, slot)
    requires o != th && h1[th] == Thread(hp[th].stack, hp[th].upvals[..i] + [o] + hp[th].upvals[i..])
    requires x != o && x != th ==> h1[x] == hp[x]
    requires forall t, k: nat :: SlotValue(h1, t, k) == SlotValue(hp, t, k)
    ensures RefsIn(h1, h1[x], live)
  {
    if x == th {
      var us, vs := hp[th].upvals, h1[th].upvals;
      assert forall j :: 0 <= j < |vs| ==> vs[j] == if j < i then us[j] else if j == i then o else us[j - 1];
    }
  }

  lemma LinkKinds(s: State, th: Id, slot: nat, o: Id, i: nat)
    requires Base(s) && th in s.hp && s.hp[th].Thread? && th in Live(s) && i <= |s.hp[th].upvals|
    requires o in s.hp && s.hp[o].ClosedUpval?
    ensures var t := Linked(s, th, slot, o, i); TwupsOk(t.hp, Live(s), t.twups) && KindsOk(t.hp, t.mk, t.ls, t.an)
  {
    hide UpvalsOk, MetasOk, LiveClosed, Partition, Live, Roots, TwupsOk, KindsOk, FinOk;
    var t := Linked(s, th, slot, o, i);
    LinkTwups(s.hp, Live(s), s.twups, th, o, t.hp, t.twups);
    LinkKept(s.hp, s.mk, s.ls, s.an, th, o, t.hp);
  }

  lemma LinkTwups(hp: Heap, live: set<Id>, twups: seq<Id>, th: Id, o: Id, h1: Heap, twups1: seq<Id>)
    requires TwupsOk(hp, live, twups) && th in live && th in hp && hp[th].Thread? && o in h1 && th in h1
      && h1[o].OpenUpval? && h1[th].Thread?
    requires o in hp && hp[o].ClosedUpval? && h1 == hp[o := h1[o]][th := h1[th]]
      && twups1 == if th in twups then twups else [th] + twups
    ensures TwupsOk(h1, live, twups1)
  {
  }

  lemma LinkKept(hp: Heap, mk: Marks, ls: Objects, an: Anchors, th: Id, o: Id, h1: Heap)
    requires KindsOk(hp, mk, ls, an) && th in hp && hp[th].Thread? && o in h1 && th in h1 && h1[th].Thread?
    requires o in hp && hp[o].ClosedUpval? && h1 == hp[o := h1[o]][th := h1[th]]
    ensures KindsOk(h1, mk, ls, an)
  {
  }

  lemma LinkPhase(s: State, th: Id, slot: nat, o: Id, i: nat)
    requires Valid(s) && th in s.hp && s.hp[th].Thread? && i <= |s.hp[th].upvals|
    requires o in s.hp && s.hp[o].ClosedUpval? && o in s.mk && s.mk[o].color.White?
    ensures Phase(Linked(s, th, slot, o, i))
  {
    if KeepInvariant(s.at) {
      hide Base;
      LinkTricolor(s.hp, s.mk, s.gray, s.links.grayagain, s.ls.fixedgc, th, slot, o, i, Linked(s, th, slot, o, i).hp);
    } else {
      hide Base, MarkPhase;
    }
  }

  lemma LinkTricolor(hp: Heap, mk: Marks, gray: seq<Id>, again: seq<Id>, fixedgc: seq<Id>, th: Id, slot: nat, o: Id,
          i: nat, h1: Heap)
    requires Tricolor(hp, mk, gray, again, fixedgc) && o in mk && mk[o].color.White?
    requires th in hp && hp[th].Thread? && i <= |hp[th].upvals| && o in hp && hp[o].ClosedUpval?
    requires h1 == hp[o := OpenUpval(th, slot)][th :=
      Thread(hp[th].stack, hp[th].upvals[..i] + [o] + hp[th].upvals[i..])]
    ensures Tricolor(h1, mk, gray, again, fixedgc)
  {
    hide RefsIn, Once;
    forall x | x in mk && !mk[x].color.White? ensures Colored(h1, mk, gray, again, fixedgc, x) {
      assert Colored(hp, mk, gray, again, fixedgc, x);
      if mk[x].color.Black? { RefsInSame(hp, h1, hp[x], Marked(mk)); }
    }
  }

  /** luaF_findupval: the open upvalue for a slot of a stack, created when there is none.
      The list of a thread is sorted by slot, the highest first. */
  method FindUpval(g: GlobalState, th: Id, slot: nat, o: Id) returns (u: Id)
    requires Ok(g) && th in g.hp && g.hp[th].Thread? && th in Live(Snap(g)) && slot < |g.hp[th].stack|
    requires o !in g.hp && o !in g.mk
    modifies g`hp, g`mk, g`ls, g`sweepgc, g`twups
    ensures Ok(g) && Live(old(Snap(g))) <= Live(Snap(g))
    ensures u in g.hp && g.hp[u] == OpenUpval(th, slot) && u in g.hp[th].upvals && (u == o || g.hp == old(g.hp))
    ensures th in g.hp && g.hp[th].Thread? && g.hp[th].stack == old(g.hp)[th].stack
    ensures forall x :: x in old(g.hp) && x != th ==> x in g.hp && g.hp[x] == old(g.hp)[x]
    ensures forall x :: x in g.hp ==> x in old(g.hp) || x == o
  {
    hide Base, Live, RefSet, Phase, GenInv, UpvalsOk;
    OkBase(g);
    UpvalsShown(Snap(g), th);
    var i := 0;
    while i < |g.hp[th].upvals| && g.hp[g.hp[th].upvals[i]].slot >= slot
      invariant 0 <= i <= |g.hp[th].upvals|
    {
      if g.hp[g.hp[th].upvals[i]].slot == slot {
        return g.hp[th].upvals[i];
      }
      i := i + 1;
    }
    NewUpval(g, th, slot, o, i);
    u := o;
  }

  /** newupval: the new upvalue goes into the list of `th` at position `i`. */
  method NewUpval(g: GlobalState, th: Id, slot: nat, o: Id, i: nat)
    requires Ok(g) && th in g.hp && g.hp[th].Thread? && th in Live(Snap(g)) && slot < |g.hp[th].stack|
    requires o !in g.hp && o !in g.mk && i <= |g.hp[th].upvals|
    modifies g`hp, g`mk, g`ls, g`sweepgc, g`twups
    ensures Ok(g) && Live(Snap(g)) == Live(old(Snap(g))) + {o}
    ensures var us := old(g.hp)[th].upvals;
      g.hp == old(g.hp)[o := OpenUpval(th, slot)][th := Thread(old(g.hp)[th].stack, us[..i] + [o] + us[i..])]
  {
    hide Base, Live, RefSet, Phase, GenInv, UpvalsOk;
    var us := g.hp[th].upvals;
    FreshUpval(Snap(g), o);
    NewObject(g, o, ClosedUpval(Nil));
    ghost var t := Snap(g);
    OkBase(g);
    LinkBase(t, th, slot, o, i);
    if g.gckind.GenMinor? { LinkGen(t, g.ptr, th, slot, o, i); } else { LinkPhase(t, th, slot, o, i); }
    g.hp := g.hp[o := OpenUpval(th, slot)][th := Thread(g.hp[th].stack, us[..i] + [o] + us[i..])];
    if th !in g.twups {
      g.twups := [th] + g.twups;
    }
    SnapTwups(g, t);
    assert Snap(g) == Linked(t, th, slot, o, i);
  }

  lemma FreshUpval(s: State, o: Id)
    requires o !in s.hp && o !in s.mk
    ensures FreshOk(s, o, ClosedUpval(Nil))
  {
  }

  lemma SnapTwups(g: GlobalState, s: State)
    requires g.grayagain == s.links.grayagain && g.weak == s.links.weak && g.allweak == s.links.allweak
      && g.ephemeron == s.links.eph
    requires g.an == s.an && g.currentwhite == s.white && g.gcstate == s.at && g.gray == s.gray && g.mk == s.mk
      && g.ls == s.ls && g.sweepgc == s.sweep
    ensures Snap(g) == s.(hp := g.hp, twups := g.twups)
  {
  }

  lemma UpvalsShown(s: State, th: Id)
    requires Base(s) && th in s.hp && s.hp[th].Thread?
    ensures forall i ::
      0 <= i < |s.hp[th].upvals| ==>
      s.hp[th].upvals[i] in s.hp && s.hp[s.hp[th].upvals[i]].OpenUpval? && s.hp[s.hp[th].upvals[i]].th == th
  {
  }

  /** Closing the first open upvalue of `th` would break the generational invariant. */
  predicate CloseBreaks(s: State, gen: bool, th: Id)
    requires th in s.hp && s.hp[th].Thread? && s.hp[th].upvals != []
  {
    var u := s.hp[th].upvals[0];
    gen && u in s.hp && u in s.mk && s.hp[u].OpenUpval? && !s.mk[u].color.White? &&
    var v := SlotValue(s.hp, th, s.hp[u].slot);
    WhiteValue(s.mk, v) && v.id in s.hp && OldPast(s.hp, s.mk, v.id)
  }

  /** What closing the first upvalue makes of the state in generational mode, if that does not
      break the invariant. */
  function ClosedFirst(s: State, th: Id): State
    requires th in s.hp && s.hp[th].Thread? && s.hp[th].upvals != []
  {
    var u, h1 := s.hp[th].upvals[0], CloseFirst(s.hp, th);
    if u in s.hp && u in s.mk && s.hp[u].OpenUpval? && !s.mk[u].color.White? then
      BarrierDone(s.(hp := h1, mk := s.mk[u := s.mk[u].(color := Black)]), SlotValue(s.hp, th, s.hp[u].slot))
    else s.(hp := h1)
  }

  /** The forward barrier of an old object for `v`, where it marks `v` alone. */
  function BarrierDone(s: State, v: Value): State {
    if WhiteValue(s.mk, v) && v.id in s.hp then
      var visit := NeedsVisit(s.hp[v.id]);
      var color := if visit || s.hp[v.id].OpenUpval? then Gray else Black;
      s.(mk := s.mk[v.id := Mark(color, Old0, s.mk[v.id].fin)], gray := if visit then [v.id] + s.gray else s.gray)
    else s
  }

  /** No turn of luaF_closeupval breaks the generational invariant. */
  predicate CanClose(s: State, th: Id, level: nat)
    requires th in s.hp && s.hp[th].Thread?
    decreases |s.hp[th].upvals|
  {
    if AboveLevel(s.hp, th, level) then
      !CloseBreaks(s, true, th) && CanClose(ClosedFirst(s, th), th, level)
    else true
  }

  /** There is an upvalue to close. */
  predicate AboveLevel(hp: Heap, th: Id, level: nat)
    requires th in hp && hp[th].Thread?
  {
    && hp[th].upvals != [] && hp[th].upvals[0] in hp && hp[hp[th].upvals[0]].OpenUpval?
    && hp[hp[th].upvals[0]].slot >= level
  }

  /** luaF_closeupval: upvalues of `th` at `level` or above get their own copies. */
  method CloseUpval(g: GlobalState, th: Id, level: nat)
    requires Ok(g) && th in g.hp && g.hp[th].Thread? && (g.gckind.GenMinor? ==> CanClose(Snap(g), th, level))
    modifies g`hp, g`mk, g`gray
    ensures Ok(g) && Live(Snap(g)) == Live(old(Snap(g)))
    ensures ClosedOnly(old(g.hp), g.hp, th)
    ensures g.hp[th].Thread? && (g.hp[th].upvals != [] ==>
      g.hp[th].upvals[0] in g.hp && g.hp[g.hp[th].upvals[0]].OpenUpval? && g.hp[g.hp[th].upvals[0]].slot < level)
  {
    hide Base, Live, Phase, GenInv, UpvalsOk, ClosedOnly, MarkPhase, CloseBreaks, ClosedFirst, CanClose;
    ClosedOnlyNone(g.hp, th);
    OkBase(g);
    UpvalsShown(Snap(g), th);
    while g.hp[th].upvals != [] && g.hp[g.hp[th].upvals[0]].slot >= level
      invariant Ok(g) && Live(Snap(g)) == Live(old(Snap(g)))
      invariant th in g.hp && g.hp[th].Thread? && ClosedOnly(old(g.hp), g.hp, th)
      invariant g.gckind.GenMinor? ==> CanClose(Snap(g), th, level)
      invariant g.hp[th].upvals != [] ==>
        g.hp[th].upvals[0] in g.hp && g.hp[g.hp[th].upvals[0]].OpenUpval? && g.hp[g.hp[th].upvals[0]].th == th
      decreases |g.hp[th].upvals|
    {
      ghost var s := Snap(g);
      OkBase(g);
      BaseClose(s, th);
      if g.gckind.GenMinor? { CanCloseNext(s, th, level); } else { IncNeverBreaks(s, th); }
      CloseOne(g, th);
      ClosedOnlyStep(old(g.hp), s.hp, th);
      OkBase(g);
      UpvalsShown(Snap(g), th);
    }
  }

  lemma IncNeverBreaks(s: State, th: Id)
    requires th in s.hp && s.hp[th].Thread? && s.hp[th].upvals != []
    ensures !CloseBreaks(s, false, th)
  {
  }

  lemma CanCloseNext(s: State, th: Id, level: nat)
    requires th in s.hp && s.hp[th].Thread? && AboveLevel(s.hp, th, level) && CanClose(s, th, level)
    ensures !CloseBreaks(s, true, th)
    ensures th in ClosedFirst(s, th).hp && ClosedFirst(s, th).hp[th].Thread? && CanClose(ClosedFirst(s, th), th, level)
  {
  }

  /** One turn of luaF_closeupval, in either mode and whatever the phase. In the generational
      mode the invariant is kept exactly when the barrier marks nothing past the value. */
  method CloseOne(g: GlobalState, th: Id)
    requires Ok(g) && th in g.hp && g.hp[th].Thread? && g.hp[th].upvals != []
    modifies g`hp, g`mk, g`gray
    ensures Ok(g) <==> !CloseBreaks(old(Snap(g)), g.gckind.GenMinor?, th)
    ensures Ok(g) ==> Live(Snap(g)) == Live(old(Snap(g)))
    ensures g.hp == CloseFirst(old(g.hp), th)
    ensures g.gckind.GenMinor? && Ok(g) ==> Snap(g) == ClosedFirst(old(Snap(g)), th)
  {
    hide Base, Live, Valid, GenInv, UpvalsOk, ClosedFirst;
    if g.gckind.GenMinor? {
      CloseInGen(g, th);
    } else {
      CloseInc(g, th);
    }
  }

  method CloseInc(g: GlobalState, th: Id)
    requires Valid(Snap(g)) && !g.gckind.GenMinor? && th in g.hp && g.hp[th].Thread? && g.hp[th].upvals != []
    modifies g`hp, g`mk, g`gray
    ensures Valid(Snap(g)) && Live(Snap(g)) == Live(old(Snap(g)))
    ensures g.hp == CloseFirst(old(g.hp), th)
  {
    hide Base, Live, UpvalsOk, MarkPhase, SweepRecolor, MarksSwept, Swept, AllSwept;
    ghost var s := Snap(g);
    BaseClose(s, th);
    var u := g.hp[th].upvals[0];
    if !KeepInvariant(g.gcstate) {
      CloseSweeping(g, th, u);
      RecolorSwept(s.mk, g.mk, s.white);
      BaseFacts(Snap(g));
      SnapMarks(g, s);
      PhaseRecolored(s, Snap(g));
    } else if g.mk[u].color.White? {
      CloseUnmarked(s, th);
      g.hp := CloseFirst(g.hp, th);
      SnapMarks(g, s);
    } else {
      MarkingFacts(s);
      CloseMarking(g, th, u);
      MarkingFacts(Snap(g));
      assert g.hp.Keys == s.hp.Keys;
    }
  }

  method CloseInGen(g: GlobalState, th: Id)
    requires GenInv(Snap(g), g.ptr) && th in g.hp && g.hp[th].Thread? && g.hp[th].upvals != []
    modifies g`hp, g`mk, g`gray
    ensures GenInv(Snap(g), g.ptr) <==> !CloseBreaks(old(Snap(g)), true, th)
    ensures GenInv(Snap(g), g.ptr) ==> Live(Snap(g)) == Live(old(Snap(g)))
    ensures g.hp == CloseFirst(old(g.hp), th)
    ensures GenInv(Snap(g), g.ptr) ==> Snap(g) == ClosedFirst(old(Snap(g)), th)
  {
    hide Base, GenInv, Live, Marked, Marking, HeapReady, WellFormed, UpvalsOk, MarksPast, OldPast, CloseFirst, Olds;
    ghost var s := Snap(g);
    GenFacts(s, g.ptr);
    GenBase(s, g.ptr);
    BaseClose(s, th);
    var u := g.hp[th].upvals[0];
    g.hp := CloseFirst(g.hp, th);
    CloseReady(s, g.ptr, th);
    if g.mk[u].color.White? {
      CloseGen(s, g.ptr, th, g.mk);
    } else {
      g.mk := g.mk[u := g.mk[u].(color := Black)];
      var v := g.hp[u].v;
      if v.Ref? && g.mk[v.id].color.White? {
        CloseForward(g, th, u, v.id, s);
      } else {
        CloseGen(s, g.ptr, th, g.mk);
      }
    }
    SnapMarks(g, s);
    if GenInv(Snap(g), g.ptr) { GenFacts(Snap(g), g.ptr); }
  }

  /** The barrier for the value `v` of the upvalue `u`, just closed and black. */
  method CloseForward(g: GlobalState, th: Id, u: Id, v: Id, ghost s: State)
    requires GenInv(s, g.ptr) && th in s.hp && s.hp[th].Thread? && s.hp[th].upvals != [] && u == s.hp[th].upvals[0]
    requires u in s.hp && u in s.mk && s.hp[u].OpenUpval? && s.hp[u].th == th && u != th && !s.mk[u].color.White?
    requires SlotValue(s.hp, th, s.hp[u].slot) == Ref(v) && v in s.hp && v in s.mk && s.mk[v].color.White?
    requires Snap(g) == s.(hp := CloseFirst(s.hp, th), mk := s.mk[u := s.mk[u].(color := Black)])
    modifies g`mk, g`gray
    ensures Snap(g) == s.(hp := g.hp, mk := g.mk, gray := g.gray)
    ensures GenInv(Snap(g), g.ptr) <==> !OldPast(s.hp, s.mk, v)
    ensures GenInv(Snap(g), g.ptr) ==> Snap(g) == BarrierDone(old(Snap(g)), Ref(v))
  {
    hide Base, GenInv, Live, Marked, Marking, HeapReady, UpvalsOk, MarksPast, OldPast, CloseFirst;
    GenBase(s, g.ptr);
    BaseClose(s, th);
    CloseReady(s, g.ptr, th);
    MarkedSame(s.mk, g.mk, u);
    GrayIsOld(s, g.ptr, u);
    ghost var m1 := g.mk;
    LuaCBarrier(g, u, v);
    SnapMarks(g, s);
    CloseBarrier(s, g.ptr, th, u, m1, Snap(g), v);
  }

  /** internshrstr: a string found dead in the string table is alive again. */
  method InternFound(g: GlobalState, o: Id)
    requires Ok(g) && o in g.hp && o in g.mk && g.hp[o].Str?
    modifies g`mk
    ensures Ok(g) && Live(Snap(g)) == Live(old(Snap(g))) + {o}
    ensures o !in old(Live(Snap(g))) ==> g.mk == old(g.mk)[o := old(g.mk)[o].(color := White(g.currentwhite))]
  {
    hide Base, Phase, GenInv, UpvalsOk;
    ghost var s := Snap(g);
    if g.gckind.GenMinor? { GenFacts(s, g.ptr); }
    if g.mk[o].color == White(!g.currentwhite) {
      InternKeeps(s, o);
      g.mk := g.mk[o := g.mk[o].(color := White(g.currentwhite))];
      SnapMarks(g, s);
    }
  }

  lemma InternKeeps(s: State, o: Id)
    requires Valid(s) && o in s.hp && o in s.mk && s.hp[o].Str? && s.mk[o].color == White(!s.white)
    ensures var t := s.(mk := s.mk[o := s.mk[o].(color := White(s.white))]); Valid(t) && Live(t) == Live(s) + {o}
  {
    hide UpvalsOk, Roots, Partition, LiveClosed, MetasOk, TwupsOk, KindsOk, FinOk, Tricolor, Swept;
    var t := s.(mk := s.mk[o := s.mk[o].(color := White(s.white))]);
    assert Live(t) == Live(s) + {o};
    InternLive(s.hp, Live(s), o, s.twups);
    InternKinds(s.hp, s.mk, s.ls, s.an, o, t.mk);
    RootsSame(s, t);
    if KeepInvariant(s.at) { assert false; }
    PhaseRecolored(s, t);
  }

  lemma InternKinds(hp: Heap, mk: Marks, ls: Objects, an: Anchors, o: Id, m1: Marks)
    requires KindsOk(hp, mk, ls, an) && FinOk(mk, ls) && o in mk && o in m1 && mk[o].color.White?
    requires m1 == mk[o := m1[o]] && m1[o].fin == mk[o].fin
    ensures KindsOk(hp, m1, ls, an) && FinOk(m1, ls)
  {
  }

  lemma InternLive(hp: Heap, live: set<Id>, o: Id, twups: seq<Id>)
    requires LiveClosed(hp, live) && o in hp && hp[o].Str? && MetasOk(hp, live) && TwupsOk(hp, live, twups)
    ensures LiveClosed(hp, live + {o}) && MetasOk(hp, live + {o}) && TwupsOk(hp, live + {o}, twups)
  {
    forall x | x in live + {o} ensures x in hp && RefsIn(hp, hp[x], live + {o}) {
      if x in live { RefsInMonotone(hp, hp[x], live, live + {o}); }
    }
  }

  /** Changing the running thread, the registry or the metatables of basic types; the
      main thread stays. */
  method SetAnchors(g: GlobalState, an: Anchors)
    requires Ok(g) && AnchorsOk(Snap(g), an)
    modifies g`an
    ensures Ok(g) && g.an == an && Live(Snap(g)) == Live(old(Snap(g)))
  {
    hide Base, Phase, Live, AnchorsOk, AllAged, Queued, Ranks, Chains;
    ghost var s := Snap(g);
    OkBase(g);
    AnchorsKeep(s, an);
    g.an := an;
    assert Snap(g) == s.(an := an);
  }

  predicate AnchorsOk(s: State, an: Anchors) {
    && an.main == s.an.main && an.running in Live(s) && an.running in s.hp && s.hp[an.running].Thread?
    && In(an.registry, Live(s)) && AllIn(an.mt, Live(s))
  }

  lemma AnchorsKeep(s: State, an: Anchors)
    requires Base(s) && AnchorsOk(s, an)
    ensures Base(s.(an := an)) && Live(s.(an := an)) == Live(s) && an.main == s.an.main
    ensures Phase(s) ==> Phase(s.(an := an))
  {
    hide UpvalsOk, MetasOk, LiveClosed, Partition, TwupsOk, Tricolor;
    var t := s.(an := an);
    assert Live(t) == Live(s);
    assert Roots(t) <= Live(t) by {
      hide KindsOk, FinOk;
      ValueSetIn(an.mt, Live(s));
      ValueSetIn([an.registry], Live(s));
      assert Elements(s.ls.finobj) + Elements(s.ls.tobefnz) + Elements(s.ls.fixedgc) <= Roots(s);
      assert s.an.main in Roots(s);
    }
  }

  predicate IsSweepPhase(at: GcState) {
    at.SwpAllGc? || at.SwpFinObj? || at.SwpToBeFnz? || at.SwpEnd?
  }

  /** Position `j` of `allgc` moves to the head of `finobj`, and the sweep stays where it was. */
  function MovedToFin(s: State, j: nat): State
    requires j < |s.ls.allgc| && s.ls.allgc[j] in s.mk
  {
    var o := s.ls.allgc[j];
    s.(mk := s.mk[o := s.mk[o].(fin := true)],
       ls := s.ls.(allgc := RemoveAt(s.ls.allgc, j), finobj := [o] + s.ls.finobj),
       sweep := if s.at.SwpAllGc? && s.sweep.From? && j < s.sweep.i then From(s.sweep.i - 1)
                else if s.at.SwpFinObj? then Shift(s.sweep) else s.sweep)
  }

  lemma MovedBase(s: State, j: nat)
    requires Base(s) && j < |s.ls.allgc| && s.ls.allgc[j] in s.mk && s.ls.allgc[j] in s.hp && s.ls.allgc[j] in Live(s)
    requires s.hp[s.ls.allgc[j]].Table? || s.hp[s.ls.allgc[j]].Udata?
    ensures Base(MovedToFin(s, j)) && Live(MovedToFin(s, j)) == Live(s)
  {
    hide UpvalsOk, MetasOk, LiveClosed, TwupsOk, KindsOk, FinOk, Partition, Roots, RemoveAt;
    var t, o := MovedToFin(s, j), s.ls.allgc[j];
    assert Live(t) == Live(s);
    MovedLists(s.hp, s.ls, j);
    MovedRoots(s, t, o);
    MovedKinds(s, j);
  }

  lemma MovedLists(hp: Heap, ls: Objects, j: nat)
    requires Partition(hp, ls) && j < |ls.allgc|
    ensures Partition(hp, ls.(allgc := RemoveAt(ls.allgc, j), finobj := [ls.allgc[j]] + ls.finobj))
  {
    RemoveAtMultiset(ls.allgc, j);
    assert multiset([ls.allgc[j]] + ls.finobj) == multiset{ls.allgc[j]} + multiset(ls.finobj);
  }

  lemma MovedRoots(s: State, t: State, o: Id)
    requires t.an == s.an && t.ls == s.ls.(allgc := t.ls.allgc, finobj := [o] + s.ls.finobj)
    ensures Roots(t) == Roots(s) + {o}
  {
    assert Elements([o] + s.ls.finobj) == {o} + Elements(s.ls.finobj);
  }

  lemma MovedKinds(s: State, j: nat)
    requires Base(s) && j < |s.ls.allgc| && s.ls.allgc[j] in s.mk && s.ls.allgc[j] in s.hp
    requires s.hp[s.ls.allgc[j]].Table? || s.hp[s.ls.allgc[j]].Udata?
    ensures var t := MovedToFin(s, j); KindsOk(t.hp, t.mk, t.ls, t.an) && FinOk(t.mk, t.ls)
  {
    hide UpvalsOk, MetasOk, LiveClosed, TwupsOk, Live, Roots, RemoveAt;
    PartitionFacts(s.hp, s.ls);
  }

  lemma MovedPhase(s: State, j: nat)
    requires Valid(s) && j < |s.ls.allgc| && s.ls.allgc[j] in s.mk
    requires IsSweepPhase(s.at) ==> s.mk[s.ls.allgc[j]].color == White(s.white)
    ensures Phase(MovedToFin(s, j))
  {
    hide Base, Live, Tricolor;
    var t, o := MovedToFin(s, j), s.ls.allgc[j];
    if KeepInvariant(s.at) {
      hide Swept, AllSwept, SweptTo, RemoveAt;
      MovedMarked(s, o, t.mk);
      TricolorSame(s.hp, s.mk, t.mk, s.gray, s.links.grayagain, s.ls.fixedgc);
    } else {
      hide MarkPhase;
      SweptFinBit(s.mk, s.white, s.ls.allgc, o, t.mk);
      SweptFinBit(s.mk, s.white, s.ls.finobj, o, t.mk);
      SweptFinBit(s.mk, s.white, s.ls.tobefnz, o, t.mk);
      SweptRemove(t.mk, s.white, s.ls.allgc, j);
      if !s.at.SwpAllGc? {
        assert t.mk[o].color == White(s.white) && t.mk[o].age.New?;
        SweptCons(t.mk, s.white, s.ls.finobj, o);
      }
    }
  }

  lemma MovedMarked(s: State, o: Id, m1: Marks)
    requires MarkPhase(s) && o in s.mk && m1 == s.mk[o := s.mk[o].(fin := true)]
    ensures Marked(m1) == Marked(s.mk) && s.an.main in Marked(m1)
    ensures forall x :: x in m1 ==> m1[x].color == s.mk[x].color && m1[x].color != White(!s.white)
    ensures forall x :: x in m1 && x !in s.ls.fixedgc ==> m1[x].age.New?
  {
  }

  lemma TricolorSame(hp: Heap, mk: Marks, m1: Marks, gray: seq<Id>, again: seq<Id>, fixedgc: seq<Id>)
    requires Tricolor(hp, mk, gray, again, fixedgc) && m1.Keys == mk.Keys
      && forall o :: o in mk ==> m1[o].color == mk[o].color
    ensures Tricolor(hp, m1, gray, again, fixedgc)
  {
    assert Marked(m1) == Marked(mk);
    forall o | o in m1 && !m1[o].color.White? ensures Colored(hp, m1, gray, again, fixedgc, o) {
      assert Colored(hp, mk, gray, again, fixedgc, o);
    }
  }

  lemma SweptFinBit(mk: Marks, white: bool, l: seq<Id>, o: Id, m1: Marks)
    requires o in mk && m1 == mk[o := mk[o].(fin := true)]
    ensures forall n: nat :: Swept(mk, white, l, n) ==> Swept(m1, white, l, n)
  {
  }

  lemma SweptRemove(mk: Marks, white: bool, l: seq<Id>, j: nat)
    requires j < |l|
    ensures forall n: nat ::
      n <= |l| && Swept(mk, white, l, n) ==> Swept(mk, white, RemoveAt(l, j), if j < n then n - 1 else n)
  {
    var l1 := RemoveAt(l, j);
    assert forall x :: 0 <= x < |l1| ==> l1[x] == if x < j then l[x] else l[x + 1];
  }

  lemma SweptCons(mk: Marks, white: bool, l: seq<Id>, o: Id)
    requires o in mk && mk[o].color == White(white) && mk[o].age.New?
    ensures Swept(mk, white, l, |l|) ==> Swept(mk, white, [o] + l, |l| + 1)
    ensures forall p :: SweptTo(mk, white, l, p) ==> SweptTo(mk, white, [o] + l, Shift(p))
  {
    var l1 := [o] + l;
    assert forall j :: 0 < j < |l1| ==> l1[j] == l[j - 1];
  }

  /** correctpointers. */
  function CorrectPointers(p: Pointers, l: seq<Id>, j: nat): Pointers
    requires j < |l|
  {
    p.(survival := CheckPointer(p.survival, l, j), old1 := CheckPointer(p.old1, l, j),
       reallyold := CheckPointer(p.reallyold, l, j), firstold1 := CheckPointer(p.firstold1, l, j))
  }

  /** luaC_checkfinalizer: a live object whose metatable has a finalizer moves from
      `allgc` to `finobj`; during a sweep it counts as swept, and the sweep must not be
      left pointing at it. */
  method CheckFinalizer(g: GlobalState, o: Id)
    requires Ok(g) && o in g.hp && o in g.mk && o in Live(Snap(g)) && (g.hp[o].Table? || g.hp[o].Udata?)
    modifies g`hp, g`mk, g`gray, g`ls, g`sweepgc, g`ptr
    ensures Ok(g) && Live(Snap(g)) == Live(old(Snap(g))) && KeptLive(old(g.hp), g.hp, Live(old(Snap(g))))
    ensures o in g.mk && g.mk[o].fin && (o in g.ls.finobj || o in g.ls.tobefnz)
    ensures old(g.mk)[o].fin ==> Snap(g) == old(Snap(g)) && g.ptr == old(g.ptr)
    ensures g.ptr.finobjold1 == old(g.ptr).finobjold1
  {
    hide Base, Live, Phase, GenInv, KeptLive, Partition, UpvalsOk, SweepWork, MovedToFin, Swept, CorrectPointers;
    ghost var s := Snap(g);
    OkBase(g);
    LiveSubset(s);
    KeptLiveNone(g.hp, Live(s));
    FinFacts(s, o);
    if !g.mk[o].fin {
      if IsSweepPhase(g.gcstate) {
        if g.gckind.GenMinor? { GenBase(s, g.ptr); assert false; }
        SweepAside(g, o);
      }
      ghost var t := Snap(g);
      OkBase(g);
      TableStays(s.hp, t.hp, Live(s), o);
      FinFacts(t, o);
      var j := FindObject(g.ls.allgc, o);
      LiveSubset(t);
      MovedBase(t, j);
      if g.gckind.GenMinor? { MovedGen(t, g.ptr, j); } else { MovedPhase(t, j); }
      if !IsSweepPhase(g.gcstate) {
        CorrectedFin(g.ptr, g.ls.allgc, j); g.ptr := CorrectPointers(g.ptr, g.ls.allgc, j);
      }
      MoveToFin(g, j);
      FinFacts(Snap(g), o);
      assert MovedToFin(t, j).mk[o].fin by { MovedBit(t, j); }
    }
  }

  lemma CorrectedFin(p: Pointers, l: seq<Id>, j: nat)
    requires j < |l|
    ensures CorrectPointers(p, l, j).finobjold1 == p.finobjold1
  {
  }

  lemma MovedBit(s: State, j: nat)
    requires j < |s.ls.allgc| && s.ls.allgc[j] in s.mk
    ensures MovedToFin(s, j).mk[s.ls.allgc[j]].fin && MovedToFin(s, j).hp == s.hp
      && MovedToFin(s, j).mk.Keys == s.mk.Keys
  {
  }

  lemma TableStays(h0: Heap, h1: Heap, live: set<Id>, o: Id)
    requires KeptLive(h0, h1, live) && o in live && o in h0 && (h0[o].Table? || h0[o].Udata?)
    ensures o in h1 && h1[o] == h0[o]
  {
  }

  lemma FinFacts(s: State, o: Id)
    requires Base(s) && o in s.hp
    ensures o in s.mk && (s.mk[o].fin <==> o in s.ls.finobj || o in s.ls.tobefnz)
    ensures !s.mk[o].fin && !s.hp[o].Str? ==> o in s.ls.allgc
  {
    PartitionFacts(s.hp, s.ls);
  }

  /** The search through `allgc`. */
  method FindObject(l: seq<Id>, o: Id) returns (j: nat)
    requires o in l
    ensures j < |l| && l[j] == o && o !in l[..j]
  {
    j := 0;
    while l[j] != o
      invariant j < |l| && o in l[j..] && o !in l[..j]
      decreases |l| - j
    {
      assert l[j..] == [l[j]] + l[j + 1..];
      assert l[..j + 1] == l[..j] + [l[j]];
      j := j + 1;
    }
  }

  method MoveToFin(g: GlobalState, j: nat)
    requires j < |g.ls.allgc| && g.ls.allgc[j] in g.mk
    requires g.gcstate.SwpAllGc? ==> g.sweepgc != From(j + 1)
    modifies g`mk, g`ls, g`sweepgc
    ensures Snap(g) == MovedToFin(old(Snap(g)), j)
  {
    var o := g.ls.allgc[j];
    g.mk := g.mk[o := g.mk[o].(fin := true)];
    g.ls := g.ls.(allgc := RemoveAt(g.ls.allgc, j), finobj := [o] + g.ls.finobj);
    if g.gcstate.SwpAllGc? && g.sweepgc.From? && j < g.sweepgc.i {
      g.sweepgc := From(g.sweepgc.i - 1);
    } else if g.gcstate.SwpFinObj? {
      g.sweepgc := Shift(g.sweepgc);
    }
  }

  /** During a sweep, before `o` leaves `allgc`: it is swept, and the sweep moves on if
      it was about to continue right after `o`. */
  method SweepAside(g: GlobalState, o: Id)
    requires Valid(Snap(g)) && !g.gckind.GenMinor? && IsSweepPhase(g.gcstate)
    requires o in g.hp && o in g.mk && o in Live(Snap(g)) && o in g.ls.allgc
    modifies g`hp, g`mk, g`gray, g`ls, g`sweepgc
    ensures Valid(Snap(g)) && Live(Snap(g)) == Live(old(Snap(g))) && KeptLive(old(g.hp), g.hp, Live(old(Snap(g))))
    ensures o in g.mk && g.mk[o].color == White(g.currentwhite) && g.mk[o].fin == old(g.mk)[o].fin
    ensures g.gcstate == old(g.gcstate)
    ensures forall j: nat :: g.gcstate.SwpAllGc? && g.sweepgc == From(j + 1) && j < |g.ls.allgc| ==> g.ls.allgc[j] != o
  {
    hide Base, Live, KeptLive, Partition, UpvalsOk, SweepWork, MovedToFin, Swept, SweptTo, MarkPhase, MarksSwept,
      AllSwept, Stay;
    ghost var s := Snap(g);
    LiveSubset(s);
    ListsApart(s, o);
    KeptLiveNone(g.hp, Live(s));
    g.mk := g.mk[o := g.mk[o].(color := White(g.currentwhite))];
    MadeWhite(s, o);
    SnapMarks(g, s);
    ghost var t := Snap(g);
    if g.gcstate.SwpAllGc? && g.sweepgc.From? && g.sweepgc.i > 0 && g.sweepgc.i <= |g.ls.allgc|
      && g.ls.allgc[g.sweepgc.i - 1] == o {
      var i := g.sweepgc.i;
      SweptFrom(g.mk, g.currentwhite, g.ls.allgc, i);
      SweptBefore(g.mk, g.currentwhite, g.ls.allgc, i);
      var p := SweepToLive(g, AllGc, i);
      ghost var u := Snap(g);
      AsideWork(s, t, u, o);
      g.sweepgc := p;
      SnapSweep(g, u);
      AsideApart(u, t.ls.allgc, i, o, p);
      BaseAside(u, Snap(g));
    } else {
      PointerInside(t);
    }
  }

  lemma PointerInside(s: State)
    requires Phase(s)
    ensures s.at.SwpAllGc? && s.sweep.From? ==> s.sweep.i <= |s.ls.allgc|
  {
  }

  lemma ListsApart(s: State, o: Id)
    requires Base(s) && o in s.ls.allgc
    ensures o !in s.ls.fixedgc && o in s.hp && s.hp.Keys == s.mk.Keys
  {
    PartitionFacts(s.hp, s.ls);
  }

  lemma MadeWhite(s: State, o: Id)
    requires Valid(s) && !KeepInvariant(s.at) && o in s.mk && o in Live(s) && o !in s.ls.fixedgc
    ensures var t := s.(mk := s.mk[o := s.mk[o].(color := White(s.white))]); Valid(t) && Live(t) == Live(s)
  {
    hide Base, Swept, AllSwept, SweptTo, MarkPhase;
    var t := s.(mk := s.mk[o := s.mk[o].(color := White(s.white))]);
    BaseRecolor(s, t.mk);
    PhaseRecolored(s, t);
  }

  /** The object before the place where the sweep stopped is not `o`. */
  lemma AsideApart(s: State, l: seq<Id>, i: nat, o: Id, p: SweepPos)
    requires Base(s) && 0 < i <= |l| && l[i - 1] == o && i <= |s.ls.allgc| && s.ls.allgc[..i] == l[..i]
      && (p == NoSweep || p == From(i + 1))
    ensures forall j: nat :: p == From(j + 1) && j < |s.ls.allgc| ==> s.ls.allgc[j] != o
  {
    hide UpvalsOk, MetasOk, LiveClosed, TwupsOk;
    assert s.ls.allgc[i - 1] == s.ls.allgc[..i][i - 1] == l[..i][i - 1];
    if i < |s.ls.allgc| && s.ls.allgc[i] == o {
      PartitionFacts(s.hp, s.ls);
      var a := s.ls.allgc;
      assert a == a[..i - 1] + [a[i - 1]] + [a[i]] + a[i + 1..];
      assert multiset(a)[o] >= 2;
    }
  }

  lemma AsideWork(s: State, t: State, u: State, o: Id)
    requires Base(s) && o in s.mk && t == s.(mk := s.mk[o := s.mk[o].(color := White(s.white))]) && t.mk[o].age.New?
    requires Live(t) == Live(s) && SweepWork(t, u) && o in Live(s)
    ensures Live(u) == Live(s) && Base(u) && KeptLive(s.hp, u.hp, Live(s))
    ensures o in u.mk && u.mk[o].fin == s.mk[o].fin && u.mk[o].color == White(u.white)
    ensures u.at == s.at
  {
    hide Live, UpvalsOk, MetasOk, LiveClosed, TwupsOk, Partition, Roots;
    LiveSubset(u);
    ColorStays(t, u, o);
  }

  lemma SweptBefore(mk: Marks, white: bool, l: seq<Id>, i: nat)
    requires Swept(mk, white, l, i) && 0 < i <= |l|
    ensures l[i - 1] in mk && mk[l[i - 1]].age.New?
  {
  }

  lemma ColorStays(t: State, u: State, o: Id)
    requires o in t.mk && t.mk[o].color == White(t.white) && o in u.mk && u.white == t.white
    requires MarksSwept(t.mk, u.mk, t.white) && t.mk[o].age.New?
    ensures u.mk[o].color == White(u.white)
  {
  }

  lemma SnapSweep(g: GlobalState, s: State)
    requires g.grayagain == s.links.grayagain && g.weak == s.links.weak && g.allweak == s.links.allweak
      && g.ephemeron == s.links.eph
    requires g.an == s.an && g.twups == s.twups && g.currentwhite == s.white && g.gray == s.gray && g.ls == s.ls
      && g.hp == s.hp && g.mk == s.mk
    ensures Snap(g) == s.(at := g.gcstate, sweep := g.sweepgc)
  {
  }

  lemma NewGen(s: State, p: Pointers, o: Id, ob: Object)
    requires GenInv(s, p) && FreshOk(s, o, ob) && Base(WithNew(s, o, ob))
    ensures GenInv(WithNew(s, o, ob), p)
  {
    hide Base, RefSet, Live, RefsIn, Once, Chain, First, Ranks, AllAged, Aged;
    var t := WithNew(s, o, ob);
    BaseFacts(s);
    NewAged(s.hp, s.mk, s.gray, s.links.grayagain, s.white, o, ob);
    NewRanks(s, o, ob);
    ChainsAges(s.mk, t.mk, s.ls, p);
    ChainCons(t.mk, s.ls.allgc, p.survival, p.old1, p.reallyold, o);
    FirstCons(t.mk, s.ls.allgc, p.firstold1, o);
  }

  lemma NewAged(hp: Heap, mk: Marks, gray: seq<Id>, again: seq<Id>, white: bool, o: Id, ob: Object)
    requires AllAged(hp, mk, gray, again, white) && o !in hp && o !in mk && !ob.OpenUpval?
    ensures AllAged(hp[o := ob], mk[o := Mark(White(white), New, false)], gray, again, white)
  {
    hide RefsIn, Aged;
    var h1, m1 := hp[o := ob], mk[o := Mark(White(white), New, false)];
    forall x | x in m1 ensures Aged(h1, m1, gray, again, white, x) {
      if x == o {
        NewIsAged(h1, m1, gray, again, white, o);
      } else {
        assert Aged(hp, mk, gray, again, white, x);
        AgedFrame(hp, mk, gray, again, h1, m1, gray, again, white, x);
      }
    }
  }

  lemma NewIsAged(hp: Heap, mk: Marks, gray: seq<Id>, again: seq<Id>, white: bool, o: Id)
    requires o in hp && o in mk && mk[o] == Mark(White(white), New, false)
    ensures Aged(hp, mk, gray, again, white, o)
  {
  }

  lemma NewRanks(s: State, o: Id, ob: Object)
    requires Ranks(s.hp, s.mk) && FreshOk(s, o, ob) && s.hp.Keys == s.mk.Keys && UpvalsOk(s.hp)
    ensures Ranks(WithNew(s, o, ob).hp, WithNew(s, o, ob).mk)
  {
    hide Live, RefSet;
  }

  /** A new upvalue is younger than any thread. */
  lemma LinkGen(s: State, p: Pointers, th: Id, slot: nat, o: Id, i: nat)
    requires GenInv(s, p) && th in s.hp && s.hp[th].Thread? && i <= |s.hp[th].upvals|
    requires o in s.hp && s.hp[o].ClosedUpval? && o in s.mk && s.mk[o].color.White? && s.mk[o].age.New?
    requires Base(Linked(s, th, slot, o, i))
    ensures GenInv(Linked(s, th, slot, o, i), p)
  {
    hide Base, Live, RefsIn, Once, Chains, Aged;
    var t := Linked(s, th, slot, o, i);
    var again := s.links.grayagain;
    forall x | x in t.mk ensures Aged(t.hp, t.mk, t.gray, again, t.white, x) {
      assert Aged(s.hp, s.mk, s.gray, again, s.white, x);
      LinkedAged(s.hp, t.hp, s.mk, s.gray, again, s.white, th, o, x);
    }
  }

  lemma LinkedAged(hp: Heap, h1: Heap, mk: Marks, gray: seq<Id>, again: seq<Id>, white: bool, th: Id, o: Id, x: Id)
    requires x in hp && x in mk && x in h1 && Aged(hp, mk, gray, again, white, x) && th in hp && hp[th].Thread?
      && th in h1 && h1[th].Thread?
    requires o in mk && o in h1 && mk[o].color.White? && mk[o].age.New? && h1[o].OpenUpval?
      && (x != o && x != th ==> h1[x] == hp[x])
    ensures Aged(h1, mk, gray, again, white, x)
  {
    hide RefsIn, Olds, NotNew;
    if x != o && x != th {
      AgedFrame(hp, mk, gray, again, h1, mk, gray, again, white, x);
    }
  }

  /** The barrier for the value closed, in both cases. */
  lemma CloseBarrier(s: State, p: Pointers, th: Id, u: Id, m1: Marks, t: State, v: Id)
    requires GenInv(s, p) && Base(s) && th in s.hp && s.hp[th].Thread? && s.hp[th].upvals != []
      && u == s.hp[th].upvals[0]
    requires Base(s.(hp := CloseFirst(s.hp, th))) && t == s.(hp := CloseFirst(s.hp, th), mk := t.mk, gray := t.gray)
    requires u in s.hp && u in s.mk && s.hp[u].OpenUpval? && s.hp[u].th == th && u != th && !s.mk[u].color.White?
    requires SlotValue(s.hp, th, s.hp[u].slot) == Ref(v) && v in s.hp && v in s.mk && s.mk[v].color.White?
    requires m1 == s.mk[u := s.mk[u].(color := Black)] && Barriered(t, m1, s.gray, u, v)
    ensures GenInv(t, p) <==> !OldPast(s.hp, s.mk, v)
    ensures GenInv(t, p) ==> t == BarrierDone(s.(hp := t.hp, mk := m1), Ref(v))
  {
    hide Base, GenInv, Live, Marked, Marking, HeapReady, UpvalsOk, MarksPast, OldPast, MadeOld, JustMarked, CloseFirst;
    GrayIsOld(s, p, u);
    GenFacts(s, p);
    PastClosed(s.hp, th, s.mk, m1, v);
    BarrierMakesOld(t.hp, m1, s.gray, t.mk, t.gray, v);
    if OldPast(s.hp, s.mk, v) {
      WhitesYoung(s, p);
      ClosedNotThread(s, th, v);
      BaseFacts(s.(hp := t.hp));
      ForwardBreaks(m1, s.gray, p, t, v);
    } else {
      NotPast(s.hp, s.mk, v);
      CloseOldGen(s, p, th, t.mk, t.gray, v);
      MadeOldDone(s.(hp := t.hp, mk := m1), t, v);
    }
  }

  lemma MadeOldDone(s: State, t: State, v: Id)
    requires MadeOld(s.hp, s.mk, s.gray, t.mk, t.gray, v) && t == s.(mk := t.mk, gray := t.gray)
    ensures t == BarrierDone(s, Ref(v))
  {
  }

  lemma CloseReady(s: State, p: Pointers, th: Id)
    requires GenInv(s, p) && Base(s) && th in s.hp && s.hp[th].Thread? && s.hp[th].upvals != []
    ensures HeapReady(CloseFirst(s.hp, th), s.hp.Keys) && CloseFirst(s.hp, th).Keys == s.hp.Keys == s.mk.Keys
      && Marked(s.mk) <= s.hp.Keys
    ensures var u := s.hp[th].upvals[0];
      && u in s.hp && s.hp[u].OpenUpval? && s.hp[u].th == th && u != th
      && CloseFirst(s.hp, th)[u] == ClosedUpval(SlotValue(s.hp, th, s.hp[u].slot))
        && In(SlotValue(s.hp, th, s.hp[u].slot), s.hp.Keys)
  {
    hide GenInv, Base, HeapReady, Marked, UpvalsOk;
    GenFacts(s, p);
    BaseClose(s, th);
    NoneDead(s.(hp := CloseFirst(s.hp, th)));
    BaseFacts(s.(hp := CloseFirst(s.hp, th)));
    var u := s.hp[th].upvals[0];
    LiveRefsIn(s, u);
  }

  lemma GrayIsOld(s: State, p: Pointers, o: Id)
    requires GenInv(s, p) && o in s.mk && !s.mk[o].color.White?
    ensures s.mk[o].age.IsOld()
  {
    assert Aged(s.hp, s.mk, s.gray, s.links.grayagain, s.white, o);
  }

  /** Whether marking goes past the value closed does not depend on the closing. */
  lemma PastClosed(hp: Heap, th: Id, m0: Marks, m1: Marks, v: Id)
    requires th in hp && hp[th].Thread? && hp[th].upvals != []
    requires var u := hp[th].upvals[0];
      u in hp && hp[u].OpenUpval? && u != th && u != v && u in m0 && !m0[u].color.White?
      && m1 == m0[u := m0[u].(color := Black)]
    requires v in hp
    ensures v in CloseFirst(hp, th) && OldPast(CloseFirst(hp, th), m1, v) == OldPast(hp, m0, v)
    ensures MarksPast(CloseFirst(hp, th), m1, v) == MarksPast(hp, m0, v)
  {
    var h1 := CloseFirst(hp, th);
    if hp[v].OpenUpval? {
      assert SlotValue(h1, hp[v].th, hp[v].slot) == SlotValue(hp, hp[v].th, hp[v].slot);
    }
  }

  lemma ClosedNotThread(s: State, th: Id, v: Id)
    requires Base(s) && th in s.hp && s.hp[th].Thread? && s.hp[th].upvals != []
    requires Base(s.(hp := CloseFirst(s.hp, th))) && v in CloseFirst(s.hp, th)
    ensures CloseFirst(s.hp, th)[v].OpenUpval? ==> CloseFirst(s.hp, th)[v].th != v
  {
    hide MetasOk, LiveClosed, Partition, TwupsOk, KindsOk, FinOk, Roots, Live, CloseFirst;
  }

  /** Closing an upvalue that is white, or whose value is old. */
  lemma CloseGen(s: State, p: Pointers, th: Id, m1: Marks)
    requires GenInv(s, p) && th in s.hp && s.hp[th].Thread? && s.hp[th].upvals != []
      && Base(s.(hp := CloseFirst(s.hp, th)))
    requires var u := s.hp[th].upvals[0];
      && u in s.hp && u in s.mk && s.hp[u].OpenUpval? && s.hp[u].th == th && u != th
      && (if s.mk[u].color.White? then m1 == s.mk
          else m1 == s.mk[u := s.mk[u].(color := Black)] && !WhiteValue(s.mk, SlotValue(s.hp, th, s.hp[u].slot)))
      && In(SlotValue(s.hp, th, s.hp[u].slot), s.mk.Keys)
    ensures GenInv(s.(hp := CloseFirst(s.hp, th), mk := m1), p)
  {
    hide Base, Queued, Ranks, Chains, AllAged, RefsIn, CloseFirst;
    var u := s.hp[th].upvals[0];
    var v := SlotValue(s.hp, th, s.hp[u].slot);
    GenFacts(s, p);
    if v.Ref? && !s.mk[v.id].color.White? { GrayIsOld(s, p, v.id); }
    CloseAged(s.hp, s.mk, s.gray, s.links.grayagain, s.white, th, m1);
    CloseRest(s, p, th, m1);
  }

  lemma CloseRest(s: State, p: Pointers, th: Id, m1: Marks)
    requires th in s.hp && s.hp[th].Thread? && s.hp[th].upvals != []
    requires Base(s) && Base(s.(hp := CloseFirst(s.hp, th))) && Ranks(s.hp, s.mk) && Chains(s.mk, s.ls, p)
      && s.an.main in Marked(s.mk)
    requires var u := s.hp[th].upvals[0];
      && u in s.hp && u in s.mk && s.hp[u].OpenUpval? && s.hp[u].th == th && u != th
      && (m1 == s.mk || (!s.mk[u].color.White? && m1 == s.mk[u := s.mk[u].(color := Black)]))
    ensures Base(s.(hp := CloseFirst(s.hp, th), mk := m1)) && Ranks(CloseFirst(s.hp, th), m1)
      && Chains(m1, s.ls, p) && s.an.main in Marked(m1)
  {
    hide Base, Chains, CloseFirst, Ranks;
    var u, t := s.hp[th].upvals[0], s.(hp := CloseFirst(s.hp, th));
    CloseRanks(s.hp, th, s.mk, m1);
    FixedNotUpval(s, u);
    BaseRecolor(t, m1);
    ChainsAges(s.mk, m1, s.ls, p);
  }

  lemma CloseRanks(hp: Heap, th: Id, mk: Marks, m1: Marks)
    requires th in hp && hp[th].Thread? && hp[th].upvals != [] && Ranks(hp, mk)
    requires var u := hp[th].upvals[0];
      u in hp && hp[u].OpenUpval? && hp[u].th == th && u != th && u in mk && m1.Keys == mk.Keys
    requires forall x :: x in mk ==> m1[x].age == mk[x].age
    ensures Ranks(CloseFirst(hp, th), m1)
  {
    CloseShape(hp, th);
    hide CloseFirst;
  }

  /** The upvalue closed turns from gray to black, its value being old. */
  lemma CloseAged(hp: Heap, mk: Marks, gray: seq<Id>, again: seq<Id>, white: bool, th: Id, m1: Marks)
    requires AllAged(hp, mk, gray, again, white) && Queued(hp, mk, gray, again)
    requires th in hp && hp[th].Thread? && hp[th].upvals != []
    requires var u := hp[th].upvals[0];
      && u in hp && hp[u].OpenUpval? && hp[u].th == th && u != th
      && (if mk[u].color.White? then m1 == mk
          else m1 == mk[u := mk[u].(color := Black)] && In(SlotValue(hp, th, hp[u].slot), Olds(mk)))
    ensures AllAged(CloseFirst(hp, th), m1, gray, again, white) && Queued(CloseFirst(hp, th), m1, gray, again)
  {
    var u, h1 := hp[th].upvals[0], CloseFirst(hp, th);
    CloseShape(hp, th);
    CloseAges(mk, m1, u);
    CloseQueued(hp, h1, th, u, mk, m1, gray, again);
    hide RefsIn, Queued, CloseFirst, Olds, NotNew, Edges, Held;
    assert Aged(hp, mk, gray, again, white, u) && Aged(hp, mk, gray, again, white, th);
    forall x | x in m1 ensures Aged(h1, m1, gray, again, white, x) {
      assert Aged(hp, mk, gray, again, white, x);
      if x == u {
        CloseAgedUpval(hp, h1, mk, m1, gray, again, u);
      } else if x == th {
        CloseAgedThread(hp, h1, mk, m1, gray, again, th);
      } else {
        AgedFrame(hp, mk, gray, again, h1, m1, gray, again, white, x);
      }
    }
  }

  lemma CloseAgedUpval(hp: Heap, h1: Heap, mk: Marks, m1: Marks, gray: seq<Id>, again: seq<Id>, u: Id)
    requires u in hp && u in h1 && u in mk && u in m1 && hp[u].OpenUpval? && h1[u].ClosedUpval?
    requires Held(hp[u], mk[u], u, gray, again) && (mk[u].age.IsOld() <==> !mk[u].color.White?)
    requires if mk[u].color.White? then m1[u] == mk[u]
             else m1[u] == mk[u].(color := Black) && In(h1[u].v, Olds(m1)) && Olds(m1) <= NotNew(m1)
    ensures Held(h1[u], m1[u], u, gray, again) && Edges(h1, m1, u)
  {
    hide Olds, NotNew;
  }

  lemma CloseAgedThread(hp: Heap, h1: Heap, mk: Marks, m1: Marks, gray: seq<Id>, again: seq<Id>, th: Id)
    requires th in hp && th in h1 && th in mk && th in m1 && m1[th] == mk[th] && hp[th].Thread? && h1[th].Thread?
    requires Held(hp[th], mk[th], th, gray, again)
    ensures Held(h1[th], m1[th], th, gray, again) && Edges(h1, m1, th)
  {
  }

  lemma CloseQueued(hp: Heap, h1: Heap, th: Id, u: Id, mk: Marks, m1: Marks, gray: seq<Id>, again: seq<Id>)
    requires Queued(hp, mk, gray, again) && h1.Keys == hp.Keys && mk.Keys == m1.Keys
    requires th in hp && u in hp && hp[th].Thread? && h1[th].Thread? && hp[u].OpenUpval?
    requires forall x :: x in hp && x != u && x != th ==> h1[x] == hp[x]
    requires forall x :: x in mk && x != u ==> m1[x] == mk[x]
    ensures Queued(h1, m1, gray, again)
  {
  }

  lemma CloseAges(mk: Marks, m1: Marks, u: Id)
    requires u in mk && (m1 == mk || m1 == mk[u := mk[u].(color := Black)])
    ensures Olds(m1) == Olds(mk) && NotNew(m1) == NotNew(mk) && Olds(mk) <= NotNew(mk) && m1.Keys == mk.Keys
    ensures forall x :: x in mk && x != u ==> m1[x] == mk[x]
  {
  }

  /** Closing an upvalue whose value the barrier makes old. */
  lemma CloseOldGen(s: State, p: Pointers, th: Id, m2: Marks, g2: seq<Id>, v: Id)
    requires GenInv(s, p) && th in s.hp && s.hp[th].Thread? && s.hp[th].upvals != []
      && Base(s.(hp := CloseFirst(s.hp, th)))
    requires var u := s.hp[th].upvals[0];
      && u in s.hp && u in s.mk && s.hp[u].OpenUpval? && s.hp[u].th == th && u != th && u != v && !s.mk[u].color.White?
      && SlotValue(s.hp, th, s.hp[u].slot) == Ref(v)
      && MadeOld(CloseFirst(s.hp, th), s.mk[u := s.mk[u].(color := Black)], s.gray, m2, g2, v)
    requires v in s.hp && v in s.mk && s.mk[v].color.White? && !OldPast(s.hp, s.mk, v)
    ensures GenInv(s.(hp := CloseFirst(s.hp, th), mk := m2, gray := g2), p)
  {
    hide Base, Queued, Ranks, Chains, AllAged, RefsIn, CloseFirst, MadeOld, OldPast, Olds, Marked;
    var u := s.hp[th].upvals[0];
    var m1 := m2[u := s.mk[u]];
    MadeOldClosed(s.hp, th, s.mk, s.gray, m2, g2, v);
    GenFacts(s, p);
    assert s.hp[v := s.hp[v]] == s.hp;
    ForwardOld(s, p, v, s.hp[v], v, m1, g2);
    var t := s.(mk := m1, gray := g2);
    CloseOldSlot(m1, v);
    CloseAged(s.hp, m1, g2, s.links.grayagain, s.white, th, m2);
    BaseClose(t, th);
    CloseRest(t, p, th, m2);
  }

  lemma CloseOldSlot(mk: Marks, v: Id)
    requires v in mk && mk[v].age.Old0?
    ensures In(Ref(v), Olds(mk))
  {
  }

  lemma MadeOldClosed(hp: Heap, th: Id, m0: Marks, g0: seq<Id>, m2: Marks, g2: seq<Id>, v: Id)
    requires th in hp && hp[th].Thread? && hp[th].upvals != []
    requires var u := hp[th].upvals[0];
      && u in hp && u in m0 && hp[u].OpenUpval? && u != th && u != v
      && MadeOld(CloseFirst(hp, th), m0[u := m0[u].(color := Black)], g0, m2, g2, v)
    requires v in hp && v in m0
    ensures var u := hp[th].upvals[0];
      u in m2 && MadeOld(hp, m0, g0, m2[u := m0[u]], g2, v) && m2[u] == m0[u].(color := Black)
  {
    var u := hp[th].upvals[0];
    assert m2[u := m0[u]] == m0[v := m2[v]];
  }

  /** Marks that differ in the finalizer bit say the same about age and colour. */
  lemma FinBitAged(hp: Heap, mk: Marks, gray: seq<Id>, again: seq<Id>, white: bool, m1: Marks)
    requires AllAged(hp, mk, gray, again, white) && Queued(hp, mk, gray, again)
    requires m1.Keys == mk.Keys && forall x :: x in mk ==> m1[x].color == mk[x].color && m1[x].age == mk[x].age
    ensures AllAged(hp, m1, gray, again, white) && Queued(hp, m1, gray, again) && Marked(m1) == Marked(mk)
    ensures Ranks(hp, mk) ==> Ranks(hp, m1)
  {
    hide RefsIn, Once, Held, Aged;
    assert Olds(m1) == Olds(mk) && NotNew(m1) == NotNew(mk);
    forall x | x in m1 ensures Aged(hp, m1, gray, again, white, x) {
      assert Aged(hp, mk, gray, again, white, x);
      FinBitOne(hp, mk, gray, again, white, m1, x);
    }
  }

  lemma FinBitOne(hp: Heap, mk: Marks, gray: seq<Id>, again: seq<Id>, white: bool, m1: Marks, x: Id)
    requires x in hp && x in mk && x in m1 && Aged(hp, mk, gray, again, white, x)
    requires m1[x].color == mk[x].color && m1[x].age == mk[x].age && Olds(m1) == Olds(mk) && NotNew(m1) == NotNew(mk)
    ensures Aged(hp, m1, gray, again, white, x)
  {
    hide RefsIn, Olds, NotNew;
  }

  /** The pointers of a list are right again when an object has left it. */
  lemma ChainRemove(mk: Marks, l: seq<Id>, sur: Pointer, old1: Pointer, rold: Pointer, j: nat)
    requires Chain(mk, l, sur, old1, rold) && j < |l| && NoneTwice(l)
    ensures Chain(mk, RemoveAt(l, j), CheckPointer(sur, l, j), CheckPointer(old1, l, j), CheckPointer(rold, l, j))
  {
    var a: nat, b: nat, d: nat :| ChainAt(mk, l, sur, old1, rold, a, b, d);
    PointerRemove(sur, l, a, j);
    PointerRemove(old1, l, b, j);
    PointerRemove(rold, l, d, j);
    var l1 := RemoveAt(l, j);
    assert forall i :: 0 <= i < |l1| ==> l1[i] == if i < j then l[i] else l[i + 1];
    hide PointsAt, CheckPointer, RemoveAt;
    assert ChainAt(mk, l1, CheckPointer(sur, l, j), CheckPointer(old1, l, j), CheckPointer(rold, l, j),
                   After(a, j), After(b, j), After(d, j));
  }

  lemma FirstRemove(mk: Marks, l: seq<Id>, p: Pointer, j: nat)
    requires First(mk, l, p) && j < |l| && NoneTwice(l)
    ensures First(mk, RemoveAt(l, j), CheckPointer(p, l, j))
  {
    var f: nat :| FirstAt(mk, l, p, f);
    PointerRemove(p, l, f, j);
    var l1 := RemoveAt(l, j);
    assert forall i :: 0 <= i < |l1| ==> l1[i] == if i < j then l[i] else l[i + 1];
    hide PointsAt, CheckPointer, RemoveAt;
    assert FirstAt(mk, l1, CheckPointer(p, l, j), After(f, j));
  }

  lemma ListNoneTwice(s: State, w: Which)
    requires Partition(s.hp, s.ls)
    ensures NoneTwice(ListOf(s.ls, w))
  {
    PartitionFacts(s.hp, s.ls);
    NoneTwiceCount(ListOf(s.ls, w));
  }

  /** In generational mode an object that gets a finalizer changes lists with its age. */
  lemma MovedGen(s: State, p: Pointers, j: nat)
    requires GenInv(s, p) && j < |s.ls.allgc| && s.ls.allgc[j] in s.mk && Base(MovedToFin(s, j))
    ensures GenInv(MovedToFin(s, j), CorrectPointers(p, s.ls.allgc, j))
  {
    hide Base, AllAged, Queued, Chain, First, CheckPointer, RemoveAt, Ranks;
    var t, l, o := MovedToFin(s, j), s.ls.allgc, s.ls.allgc[j];
    BaseFacts(s);
    ListNoneTwice(s, AllGc);
    FinBitAged(s.hp, s.mk, s.gray, s.links.grayagain, s.white, t.mk);
    ChainsAges(s.mk, t.mk, s.ls, p);
    ChainRemove(t.mk, l, p.survival, p.old1, p.reallyold, j);
    FirstRemove(t.mk, l, p.firstold1, j);
    ChainCons(t.mk, s.ls.finobj, p.finobjsur, p.finobjold1, p.finobjrold, o);
  }
}
