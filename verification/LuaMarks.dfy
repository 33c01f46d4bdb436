/** The `marked` byte of every object (colour, age, finalizer bit) and what a
    marking step may do to it. */
module LuaMarks {
  import opened LuaHeap

  /** Two whites: one is current, the other marks the dead during a sweep. */
  datatype Color = White(other: bool) | Gray | Black

  datatype Age = New | Survival | Old0 | Old1 | Old | Touched1 | Touched2 {
    predicate IsOld() { !New? && !Survival? }
  }

  datatype Mark = Mark(color: Color, age: Age, fin: bool)

  type Marks = map<Id, Mark>

  ghost function Marked(mk: Marks): set<Id> {
    set o | o in mk && !mk[o].color.White?
  }

  ghost function Whites(mk: Marks): set<Id> {
    set o | o in mk && mk[o].color.White?
  }

  /** Objects that must be visited later rather than when first marked. */
  predicate NeedsVisit(ob: Object) {
    ob.Table? || ob.Closure? || ob.Thread? || (ob.Udata? && ob.uvs != [])
  }

  ghost function NewlyMarked(m0: Marks, m1: Marks): set<Id> {
    set o | o in m0 && o in m1 && m0[o].color.White? && !m1[o].color.White?
  }

  ghost function NewlyGray(hp: Heap, m0: Marks, m1: Marks): set<Id> {
    set o | o in NewlyMarked(m0, m1) && o in hp && NeedsVisit(hp[o])
  }

  /** State of an object right after it left white. */
  ghost predicate JustMarked(hp: Heap, mk: Marks, o: Id)
    requires o in hp && o in mk
  {
    if NeedsVisit(hp[o]) || hp[o].OpenUpval? then
      mk[o].color.Gray? && (hp[o].OpenUpval? ==> RefsIn(hp, hp[o], Marked(mk)))
    else
      mk[o].color.Black? && RefsIn(hp, hp[o], Marked(mk))
  }

  predicate WhiteValue(mk: Marks, v: Value) {
    v.Ref? && v.id in mk && mk[v.id].color.White?
  }

  /** Marking `o` marks another object at once: the value of an upvalue, or the metatable of
      a userdata without user values. */
  predicate MarksPast(hp: Heap, mk: Marks, o: Id)
    requires o in hp
  {
    match hp[o]
    case ClosedUpval(v) => v != Ref(o) && WhiteValue(mk, v)
    case OpenUpval(th, slot) => SlotValue(hp, th, slot) != Ref(o) && WhiteValue(mk, SlotValue(hp, th, slot))
    case Udata(meta, uvs) => uvs == [] && meta != Ref(o) && WhiteValue(mk, meta)
    case _ => false
  }

  /** A marking step: white objects may leave white, nothing else moves, and the gray
      list gains exactly the newly marked objects that still need a visit. */
  ghost predicate Marking(hp: Heap, m0: Marks, g0: seq<Id>, m1: Marks, g1: seq<Id>) {
    && m0.Keys == m1.Keys == hp.Keys
    && (forall o :: o in m0 && !m0[o].color.White? ==> m1[o] == m0[o])
    && (forall o :: o in m0 ==> m1[o].age == m0[o].age && m1[o].fin == m0[o].fin)
    && (forall o :: o in m0 && m1[o].color.White? ==> m1[o] == m0[o])
    && (forall o :: o in NewlyMarked(m0, m1) ==> JustMarked(hp, m1, o))
    && multiset(g1) == multiset(g0) + multiset(NewlyGray(hp, m0, m1))
  }

  lemma MarkingGrows(hp: Heap, m0: Marks, g0: seq<Id>, m1: Marks, g1: seq<Id>)
    requires Marking(hp, m0, g0, m1, g1)
    ensures m0.Keys == m1.Keys == hp.Keys && Marked(m0) <= Marked(m1) && Whites(m1) <= Whites(m0)
    ensures forall o :: o in m0 && (!m0[o].color.White? || m1[o].color.White?) ==> m1[o] == m0[o]
    ensures NewlyMarked(m0, m1) == Marked(m1) - Marked(m0)
    ensures |Whites(m1)| <= |Whites(m0)|
    ensures forall o :: o in g0 ==> o in g1
  {
    SubsetSize(Whites(m1), Whites(m0));
    forall o | o in g0 ensures o in g1 {
      assert o in multiset(g0);
      assert o in multiset(g1);
    }
  }

  /** A step that marks nothing changes nothing. */
  lemma MarkingIdle(hp: Heap, m0: Marks, g0: seq<Id>, m1: Marks, g1: seq<Id>)
    requires Marking(hp, m0, g0, m1, g1) && |Whites(m1)| == |Whites(m0)|
    ensures m1 == m0 && multiset(g1) == multiset(g0) && |g1| == |g0|
  {
    MarkingGrows(hp, m0, g0, m1, g1);
    SubsetSize(Whites(m1), Whites(m0));
    forall o | o in m0 ensures m1[o] == m0[o] {
      if m0[o].color.White? { assert o in Whites(m1); }
    }
    assert NewlyGray(hp, m0, m1) == {};
    assert |multiset(g1)| == |multiset(g0)|;
  }

  lemma SubsetSize<T>(a: set<T>, b: set<T>)
    requires a <= b
    ensures |a| <= |b|
    ensures |a| == |b| ==> a == b
  {
    assert b == a + (b - a);
  }

  lemma JustMarkedMonotone(hp: Heap, m1: Marks, m2: Marks, o: Id)
    requires o in hp && o in m1 && o in m2 && m2[o] == m1[o]
    requires JustMarked(hp, m1, o) && Marked(m1) <= Marked(m2)
    ensures JustMarked(hp, m2, o)
  {
  }

  lemma MarkingTrans(hp: Heap, m0: Marks, g0: seq<Id>, m1: Marks, g1: seq<Id>, m2: Marks, g2: seq<Id>)
    requires Marking(hp, m0, g0, m1, g1) && Marking(hp, m1, g1, m2, g2)
    ensures Marking(hp, m0, g0, m2, g2)
  {
    MarkingGrows(hp, m0, g0, m1, g1);
    MarkingGrows(hp, m1, g1, m2, g2);
    forall o | o in NewlyMarked(m0, m2) ensures JustMarked(hp, m2, o) {
      if o in Marked(m1) {
        assert o in NewlyMarked(m0, m1);
        JustMarkedMonotone(hp, m1, m2, o);
      } else {
        assert o in NewlyMarked(m1, m2);
      }
    }
    GrayUnion(hp, m0, m1, m2);
  }

  lemma GrayUnion(hp: Heap, m0: Marks, m1: Marks, m2: Marks)
    requires m0.Keys == m1.Keys == m2.Keys
    requires Marked(m0) <= Marked(m1) <= Marked(m2)
    ensures multiset(NewlyGray(hp, m0, m2)) == multiset(NewlyGray(hp, m0, m1)) + multiset(NewlyGray(hp, m1, m2))
  {
    var a, b, u := NewlyGray(hp, m0, m1), NewlyGray(hp, m1, m2), NewlyGray(hp, m0, m2);
    forall o ensures o in u <==> o in a || o in b
    {
      if o in m0 { assert o in Marked(m1) || o !in Marked(m1); assert o in Marked(m1) ==> o in Marked(m2); }
    }
    assert a !! b;
    assert u == a + b;
  }

  /** Marking `o` itself, then whatever is marked on its behalf. */
  lemma MarkingFrom(hp: Heap, m0: Marks, g: seq<Id>, o: Id, c: Color, m1: Marks, m2: Marks, g2: seq<Id>)
    requires m0.Keys == hp.Keys && o in m0 && m0[o].color.White? && !c.White?
    requires !NeedsVisit(hp[o])
    requires m1 == m0[o := m0[o].(color := c)]
    requires Marking(hp, m1, g, m2, g2) && JustMarked(hp, m2, o)
    ensures Marking(hp, m0, g, m2, g2)
  {
    assert NewlyGray(hp, m0, m2) == NewlyGray(hp, m1, m2);
    assert NewlyMarked(m0, m2) == NewlyMarked(m1, m2) + {o};
  }

  lemma MarkingSelf(hp: Heap, m0: Marks, g: seq<Id>, o: Id, c: Color, m1: Marks)
    requires m0.Keys == hp.Keys && o in m0 && m0[o].color.White? && !c.White?
    requires m1 == m0[o := m0[o].(color := c)] && JustMarked(hp, m1, o)
    ensures Marking(hp, m0, g, m1, if NeedsVisit(hp[o]) then [o] + g else g)
    ensures Marked(m1) == Marked(m0) + {o}
    ensures Whites(m1) == Whites(m0) - {o} && |Whites(m1)| < |Whites(m0)|
  {
    NewlySelf(hp, m0, o, m1);
    assert multiset([o] + g) == multiset(g) + multiset{o};
  }

  lemma NewlySelf(hp: Heap, m0: Marks, o: Id, m1: Marks)
    requires o in hp && o in m0 && m0[o].color.White? && o in m1 && !m1[o].color.White?
    requires m1 == m0[o := m1[o]]
    ensures NewlyMarked(m0, m1) == {o}
    ensures NewlyGray(hp, m0, m1) == if NeedsVisit(hp[o]) then {o} else {}
    ensures Marked(m1) == Marked(m0) + {o}
    ensures Whites(m1) == Whites(m0) - {o} && |Whites(m1)| < |Whites(m0)|
  {
  }

  lemma MarkingNothing(hp: Heap, m: Marks, g: seq<Id>)
    requires m.Keys == hp.Keys
    ensures Marking(hp, m, g, m, g)
  {
    assert NewlyGray(hp, m, m) == {};
  }

  /** Dead keys and emptied entries do not disturb what was marked. */
  lemma MarkingShrunk(h0: Heap, h1: Heap, m0: Marks, g0: seq<Id>, m1: Marks, g1: seq<Id>)
    requires HeapShrunk(h0, h1) && Marking(h0, m0, g0, m1, g1)
    ensures Marking(h1, m0, g0, m1, g1)
  {
    forall o | o in NewlyMarked(m0, m1) ensures JustMarked(h1, m1, o) {
      assert Shrunk(h0[o], h1[o]) && JustMarked(h0, m1, o);
      if RefsIn(h0, h0[o], Marked(m1)) { ShrunkRefs(h0, h1, o, Marked(m1)); }
    }
    assert NewlyGray(h0, m0, m1) == NewlyGray(h1, m0, m1) by {
      forall o | o in h0 ensures NeedsVisit(h0[o]) <==> NeedsVisit(h1[o]) { assert Shrunk(h0[o], h1[o]); }
    }
  }

  /** `b` is the table `a` with keys of empty entries turned dead. */
  predicate DeadKeysOnly(a: Object, b: Object) {
    a.Table? && b.Table? && b == a.(hash := b.hash) && |b.hash| == |a.hash|
    && forall i ::
      0 <= i < |a.hash| ==>
      b.hash[i] == a.hash[i] || (a.hash[i].val == Nil && b.hash[i].val == Nil && !b.hash[i].key.Ref?)
  }

  /** Part of the visit of table `h`: marking, plus dead keys in `h` itself. */
  ghost predicate Walk(h: Id, h0: Heap, m0: Marks, g0: seq<Id>, h1: Heap, m1: Marks, g1: seq<Id>) {
    && h in h0 && h in h1
    && h1 == h0[h := h1[h]]
    && (h1[h] == h0[h] || DeadKeysOnly(h0[h], h1[h]))
    && HeapShrunk(h0, h1)
    && Marking(h1, m0, g0, m1, g1)
  }

  lemma WalkMark(h: Id, h0: Heap, m0: Marks, g0: seq<Id>, h1: Heap, m1: Marks, g1: seq<Id>, m2: Marks, g2: seq<Id>)
    requires Walk(h, h0, m0, g0, h1, m1, g1) && Marking(h1, m1, g1, m2, g2)
    ensures Walk(h, h0, m0, g0, h1, m2, g2)
    ensures m0.Keys == m1.Keys == m2.Keys == h1.Keys && Marked(m0) <= Marked(m1) <= Marked(m2)
  {
    MarkingTrans(h1, m0, g0, m1, g1, m2, g2);
    MarkingGrows(h1, m0, g0, m1, g1);
    MarkingGrows(h1, m1, g1, m2, g2);
  }

  lemma WalkClear(h: Id, h0: Heap, m0: Marks, g0: seq<Id>, h1: Heap, m1: Marks, g1: seq<Id>, h2: Heap)
    requires Walk(h, h0, m0, g0, h1, m1, g1)
    requires h in h2 && h2 == h1[h := h2[h]] && DeadKeysOnly(h1[h], h2[h]) && HeapShrunk(h1, h2)
    ensures Walk(h, h0, m0, g0, h2, m1, g1)
  {
    hide HeapShrunk, Marking, DeadKeysOnly;
    ShrunkTrans(h0, h1, h2);
    MarkingShrunk(h1, h2, m0, g0, m1, g1);
    if h1[h] != h0[h] { DeadKeysMore(h0[h], h1[h], h2[h]); }
  }

  lemma DeadKeysMore(a: Object, b: Object, c: Object)
    requires DeadKeysOnly(a, b) && DeadKeysOnly(b, c)
    ensures DeadKeysOnly(a, c)
  {
  }

  lemma WalkStart(h: Id, hp: Heap, m: Marks, g: seq<Id>)
    requires h in hp && m.Keys == hp.Keys
    ensures Walk(h, hp, m, g, hp, m, g)
  {
    MarkingNothing(hp, m, g);
  }

  /** The four lists a visited object can be put back into. */
  datatype Links = Links(grayagain: seq<Id>, weak: seq<Id>, allweak: seq<Id>, eph: seq<Id>)

  /** `o` was put back into at most one list. */
  predicate Relinked(o: Id, k0: Links, k1: Links) {
    || k1 == k0
    || k1 == k0.(grayagain := [o] + k0.grayagain)
    || k1 == k0.(weak := [o] + k0.weak)
    || k1 == k0.(allweak := [o] + k0.allweak)
    || k1 == k0.(eph := [o] + k0.eph)
  }

  /** Outcome of visiting `o`. In the atomic phase its visit is complete; before it, `o`
      is black with all references marked or it is kept to be visited again. */
  ghost predicate Settled(atomic: bool, hp: Heap, o: Id, m0: Marks, m1: Marks, k0: Links, k1: Links)
    requires o in hp && o in m0 && o in m1
  {
    && Relinked(o, k0, k1)
    && m1[o].color == (if k1 == k0 then Black else Gray)
    && m1[o].fin == m0[o].fin
    && (m1[o].age == m0[o].age || (m0[o].age.Touched2? && m1[o].age.Old?))
    && (if atomic then Visited(hp, o, Marked(m1), k1.weak, k1.allweak, k1.eph)
        else if k1 == k0 then RefsIn(hp, hp[o], Marked(m1)) && !hp[o].Thread?
        else k1 == k0.(grayagain := [o] + k0.grayagain))
    && (k1 == k0 && (hp[o].Table? || hp[o].Udata?) ==> !m1[o].age.Touched1? && !m1[o].age.Touched2?)
    && (hp[o].Thread? && m0[o].age.IsOld() ==> k1 != k0)
    && (k1.weak != k0.weak || k1.allweak != k0.allweak ==> hp[o].Table? && !hp[o].mode.Strong?)
    && (k1.eph != k0.eph ==> hp[o].Table? && hp[o].mode.Ephemeron? && In(hp[o].meta, Marked(m1)))
  }

  /** The whole visit of a gray object `o`, taken from its list and painted black. */
  ghost predicate Visit(atomic: bool, o: Id, h0: Heap, m0: Marks, g0: seq<Id>, k0: Links, h1: Heap, m1: Marks,
          g1: seq<Id>, k1: Links) {
    && o in m0 && o in m1 && o in h1
    && Walk(o, h0, m0, g0, h1, m1[o := m0[o]], g1)
    && Settled(atomic, h1, o, m0, m1, k0, k1)
  }

  /** Repainting `o` after its references were walked. */
  lemma VisitEnd(atomic: bool, o: Id, h0: Heap, m0: Marks, g0: seq<Id>, k0: Links, h1: Heap, m1: Marks, g1: seq<Id>,
          m2: Marks, k1: Links)
    requires Walk(o, h0, m0, g0, h1, m1, g1)
    requires o in m0 && m0[o].color.Black? && o in m1
    requires o in m2 && m2 == m1[o := m2[o]] && Settled(atomic, h1, o, m0, m2, k0, k1)
    ensures Visit(atomic, o, h0, m0, g0, k0, h1, m2, g1, k1)
  {
    assert m1[o] == m0[o];
    assert m2[o := m0[o]] == m1;
  }

  /** The colour and age of a marked object play no part in what else gets marked. */
  lemma MarkingAside(hp: Heap, o: Id, m0: Marks, m0': Marks, g0: seq<Id>, m1: Marks, g1: seq<Id>)
    requires o in m0 && o in m0' && m0' == m0[o := m0'[o]] && !m0[o].color.White? && !m0'[o].color.White?
    requires o in m1 && Marking(hp, m0', g0, m1, g1)
    ensures Marking(hp, m0, g0, m1[o := m0[o]], g1)
  {
    var m1' := m1[o := m0[o]];
    assert m1[o] == m0'[o];
    NewlySame(hp, o, m0, m0', m1);
    JustSame(hp, o, m0, m0', m1, m1');
    hide NewlyMarked, NewlyGray, JustMarked;
    assert multiset(g1) == multiset(g0) + multiset(NewlyGray(hp, m0, m1'));
    assert m0.Keys == m1'.Keys == hp.Keys;
  }

  lemma JustSame(hp: Heap, o: Id, m0: Marks, m0': Marks, m1: Marks, m1': Marks)
    requires o in m0 && o in m0' && m0' == m0[o := m0'[o]] && !m0[o].color.White? && !m0'[o].color.White?
    requires o in m1 && m1[o] == m0'[o] && m0.Keys == m1.Keys == hp.Keys && m1' == m1[o := m0[o]]
    requires forall x :: x in NewlyMarked(m0', m1) ==> JustMarked(hp, m1, x)
    ensures forall x :: x in NewlyMarked(m0, m1') ==> JustMarked(hp, m1', x)
  {
    assert Marked(m1') == Marked(m1);
    NewlySame(hp, o, m0, m0', m1);
    forall x | x in NewlyMarked(m0, m1') ensures JustMarked(hp, m1', x) {
      assert x in NewlyMarked(m0', m1) && x != o;
      assert JustMarked(hp, m1, x);
    }
  }

  lemma NewlySame(hp: Heap, o: Id, m0: Marks, m0': Marks, m1: Marks)
    requires o in m0 && o in m0' && m0' == m0[o := m0'[o]] && !m0[o].color.White? && !m0'[o].color.White?
    requires o in m1
    ensures NewlyMarked(m0, m1[o := m0[o]]) == NewlyMarked(m0', m1)
    ensures NewlyGray(hp, m0, m1[o := m0[o]]) == NewlyGray(hp, m0', m1)
  {
  }

  lemma MarkedSame(m0: Marks, m1: Marks, o: Id)
    requires o in m0 && o in m1 && m1 == m0[o := m1[o]] && !m0[o].color.White? && !m1[o].color.White?
    ensures Marked(m1) == Marked(m0) && Whites(m1) == Whites(m0)
  {
  }

  /** A visit may begin by marking what `o` refers to before its own traversal. */
  lemma VisitAfter(atomic: bool, o: Id, h0: Heap, m0: Marks, g0: seq<Id>, m1: Marks, g1: seq<Id>, k0: Links, h1: Heap,
          m2: Marks, g2: seq<Id>, k1: Links)
    requires o in m0 && !m0[o].color.White? && Marking(h0, m0, g0, m1, g1)
    requires Visit(atomic, o, h0, m1, g1, k0, h1, m2, g2, k1)
    ensures Visit(atomic, o, h0, m0, g0, k0, h1, m2, g2, k1)
  {
    hide Settled, Marking, HeapShrunk;
    MarkingGrows(h0, m0, g0, m1, g1);
    MarkingShrunk(h0, h1, m0, g0, m1, g1);
    MarkingTrans(h1, m0, g0, m1, g1, m2[o := m0[o]], g2);
    SettledFrom(atomic, h1, o, m0, m1, m2, k0, k1);
  }

  lemma SettledFrom(atomic: bool, hp: Heap, o: Id, m0: Marks, m1: Marks, m2: Marks, k0: Links, k1: Links)
    requires o in hp && o in m0 && o in m1 && o in m2 && m1[o] == m0[o]
    requires Settled(atomic, hp, o, m1, m2, k0, k1)
    ensures Settled(atomic, hp, o, m0, m2, k0, k1)
  {
  }
}
