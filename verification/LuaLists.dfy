/** Which gray list each object is in, from the start of the atomic phase to its end. The lists
    are threaded through the objects, so an object is in one of them at most. */
module LuaLists {
  import opened LuaHeap
  import opened LuaMarks

  /** How often `o` is linked in the four lists a visited object can go back to. */
  ghost function InLinks(o: Id, k: Links): nat {
    multiset(k.grayagain)[o] + multiset(k.weak)[o] + multiset(k.allweak)[o] + multiset(k.eph)[o]
  }

  /** The same, with the list of gray objects and the list set aside. */
  ghost function Occurs(o: Id, gray: seq<Id>, saved: set<Id>, k: Links): nat {
    multiset(gray)[o] + (if o in saved then 1 else 0) + InLinks(o, k)
  }

  predicate IsTouched(a: Age) {
    a.Touched1? || a.Touched2?
  }

  /** Gray objects, objects touched by a barrier and old threads wait in some list. */
  predicate MustWait(ob: Object, m: Mark) {
    (m.color.Gray? && NeedsVisit(ob)) || IsTouched(m.age) || (ob.Thread? && m.age.IsOld())
  }

  ghost predicate ListedAt(hp: Heap, mk: Marks, gray: seq<Id>, saved: set<Id>, k: Links, o: Id) {
    if o in hp && o in mk then
      && Occurs(o, gray, saved, k) <= 1
      && (MustWait(hp[o], mk[o]) ==> Occurs(o, gray, saved, k) == 1)
      && (Occurs(o, gray, saved, k) == 1 ==> !mk[o].color.White? && NeedsVisit(hp[o]))
      && (InLinks(o, k) == 1 ==> mk[o].color.Gray?)
      && FinishedColor(hp[o], mk[o])
    else Occurs(o, gray, saved, k) == 0
  }

  /** Objects that are never visited have their final colour once marked, and only tables
      and userdata are touched. */
  predicate FinishedColor(ob: Object, m: Mark) {
    && (!m.color.White? && !NeedsVisit(ob) && !ob.Str? ==> m.color == if ob.OpenUpval? then Gray else Black)
    && (IsTouched(m.age) ==> ob.Table? || ob.Udata?)
  }

  ghost predicate Listed(hp: Heap, mk: Marks, gray: seq<Id>, saved: set<Id>, k: Links) {
    forall o :: ListedAt(hp, mk, gray, saved, k, o)
  }

  predicate NoneTwice(l: seq<Id>) {
    forall i, j :: 0 <= i < j < |l| ==> l[i] != l[j]
  }

  lemma {:induction false} NoneTwiceCount(l: seq<Id>)
    ensures NoneTwice(l) <==> forall o :: multiset(l)[o] <= 1
    ensures NoneTwice(l) ==> forall o :: multiset(l)[o] == if o in l then 1 else 0
  {
    if l != [] {
      var a, x := l[..|l| - 1], l[|l| - 1];
      assert l == a + [x];
      NoneTwiceCount(a);
      assert forall o :: multiset(l)[o] == multiset(a)[o] + if o == x then 1 else 0;
      assert x in a <==> multiset(a)[x] >= 1;
      if NoneTwice(l) {
        assert NoneTwice(a) by { assert forall i :: 0 <= i < |a| ==> a[i] == l[i]; }
        assert x !in a by { assert forall i :: 0 <= i < |a| ==> a[i] == l[i]; }
      }
      if forall o :: multiset(l)[o] <= 1 {
        assert forall o :: multiset(a)[o] <= multiset(l)[o];
        assert multiset(l)[x] <= 1;
        assert x !in a;
      }
    }
  }

  lemma ConsCount(o: Id, l: seq<Id>)
    ensures forall x :: multiset([o] + l)[x] == multiset(l)[x] + if x == o then 1 else 0
  {
    assert multiset([o] + l) == multiset{o} + multiset(l);
  }

  /** Marking more: new gray objects enter the gray list. */
  lemma ListedMark(hp: Heap, m0: Marks, g0: seq<Id>, m1: Marks, g1: seq<Id>, saved: set<Id>, k: Links)
    requires Listed(hp, m0, g0, saved, k) && Marking(hp, m0, g0, m1, g1)
    ensures Listed(hp, m1, g1, saved, k)
  {
    hide RefsIn;
    forall o ensures ListedAt(hp, m1, g1, saved, k, o) {
      assert ListedAt(hp, m0, g0, saved, k, o);
      assert multiset(g1)[o] == multiset(g0)[o] + multiset(NewlyGray(hp, m0, m1))[o];
      if o in NewlyMarked(m0, m1) { assert JustMarked(hp, m1, o); }
    }
  }

  /** Entries removed from tables are of no concern. */
  lemma ListedShrunk(h0: Heap, h1: Heap, mk: Marks, gray: seq<Id>, saved: set<Id>, k: Links)
    requires HeapShrunk(h0, h1) && Listed(h0, mk, gray, saved, k)
    ensures Listed(h1, mk, gray, saved, k)
  {
    hide Occurs, InLinks;
    forall o ensures ListedAt(h1, mk, gray, saved, k, o) {
      assert ListedAt(h0, mk, gray, saved, k, o);
      if o in h0 { assert Shrunk(h0[o], h1[o]); }
    }
  }

  /** The visit of the first gray object takes it off the list; what has to wait for more
      is in another list afterwards. */
  lemma ListedVisit(atomic: bool, o: Id, h0: Heap, m0: Marks, g0: seq<Id>, k0: Links, h1: Heap, m1: Marks, g1: seq<Id>,
          k1: Links, saved: set<Id>)
    requires o in m0 && m0[o].color.Black? && o in h0 && NeedsVisit(h0[o])
    requires Listed(h0, m0, [o] + g0, saved, k0)
    requires Visit(atomic, o, h0, m0, g0, k0, h1, m1, g1, k1)
    ensures Listed(h1, m1, g1, saved, k1)
  {
    hide Listed, Settled, Marking, HeapShrunk;
    var m1' := m1[o := m0[o]];
    ListedShrunk(h0, h1, m0, [o] + g0, saved, k0);
    MarkingCons(h1, o, m0, g0, m1', g1);
    ListedMark(h1, m0, [o] + g0, m1', [o] + g1, saved, k0);
    ShapeStays(h0, h1, o);
    SettledShape(atomic, h1, o, m0, m1, k0, k1);
    ListedSettled(o, h1, m1', g1, k0, m1, k1, saved);
  }

  lemma ShapeStays(h0: Heap, h1: Heap, o: Id)
    requires HeapShrunk(h0, h1) && o in h0
    ensures o in h1 && (NeedsVisit(h0[o]) ==> NeedsVisit(h1[o]))
  {
    assert Shrunk(h0[o], h1[o]);
  }

  lemma MarkingCons(hp: Heap, o: Id, m0: Marks, g0: seq<Id>, m1: Marks, g1: seq<Id>)
    requires Marking(hp, m0, g0, m1, g1)
    ensures Marking(hp, m0, [o] + g0, m1, [o] + g1)
  {
    assert multiset([o] + g0) == multiset{o} + multiset(g0);
    assert multiset([o] + g1) == multiset{o} + multiset(g1);
  }

  /** What the lists need to know of an object that was visited. */
  lemma SettledShape(atomic: bool, hp: Heap, o: Id, m0: Marks, m1: Marks, k0: Links, k1: Links)
    requires o in hp && o in m0 && o in m1 && Settled(atomic, hp, o, m0, m1, k0, k1)
    ensures Relinked(o, k0, k1) && m1[o].color == (if k1 == k0 then Black else Gray)
    ensures k1 == k0 && (hp[o].Table? || hp[o].Udata?) ==> !IsTouched(m1[o].age)
    ensures k1 == k0 ==> !(hp[o].Thread? && m1[o].age.IsOld())
    ensures IsTouched(m1[o].age) ==> IsTouched(m0[o].age)
  {
  }

  lemma ListedSettled(o: Id, hp: Heap, m0: Marks, g: seq<Id>, k0: Links, m1: Marks, k1: Links, saved: set<Id>)
    requires o in hp && NeedsVisit(hp[o]) && o in m0 && o in m1 && m1 == m0[o := m1[o]]
    requires Listed(hp, m0, [o] + g, saved, k0)
    requires Relinked(o, k0, k1) && m1[o].color == (if k1 == k0 then Black else Gray)
    requires k1 == k0 && (hp[o].Table? || hp[o].Udata?) ==> !IsTouched(m1[o].age)
    requires k1 == k0 ==> !(hp[o].Thread? && m1[o].age.IsOld())
    requires IsTouched(m1[o].age) ==> IsTouched(m0[o].age)
    ensures Listed(hp, m1, g, saved, k1)
  {
    ConsCount(o, g);
    RelinkCount(o, k0, k1);
    assert ListedAt(hp, m0, [o] + g, saved, k0, o);
    forall x ensures ListedAt(hp, m1, g, saved, k1, x) {
      assert ListedAt(hp, m0, [o] + g, saved, k0, x);
    }
  }

  lemma RelinkCount(o: Id, k0: Links, k1: Links)
    requires Relinked(o, k0, k1)
    ensures forall x :: InLinks(x, k1) == InLinks(x, k0) + if x == o && k1 != k0 then 1 else 0
  {
    ConsCount(o, k0.grayagain);
    ConsCount(o, k0.weak);
    ConsCount(o, k0.allweak);
    ConsCount(o, k0.eph);
  }

  /** The list of gray objects is the one that was set aside. */
  lemma ListedUnsave(hp: Heap, mk: Marks, saved: seq<Id>, k: Links, s: set<Id>)
    requires NoneTwice(saved) && (forall o :: o in s <==> o in saved) && Listed(hp, mk, [], s, k)
    ensures Listed(hp, mk, saved, {}, k)
  {
    NoneTwiceCount(saved);
    forall o ensures ListedAt(hp, mk, saved, {}, k, o) {
      assert ListedAt(hp, mk, [], s, k, o);
    }
  }

  /** A pass over the ephemeron tables sets their list aside. */
  lemma ListedPass(hp: Heap, mk: Marks, k: Links, s: set<Id>)
    requires Listed(hp, mk, [], {}, k) && forall o :: o in s <==> o in k.eph
    ensures Listed(hp, mk, [], s, k.(eph := [])) && NoneTwice(k.eph)
  {
    NoneTwiceCount(k.eph);
    forall o ensures multiset(k.eph)[o] == (if o in s then 1 else 0) {
      assert ListedAt(hp, mk, [], {}, k, o);
      assert o in k.eph <==> multiset(k.eph)[o] >= 1;
    }
    forall o ensures ListedAt(hp, mk, [], s, k.(eph := []), o) {
      assert ListedAt(hp, mk, [], {}, k, o);
    }
  }

  /** The next of those tables is taken for a visit and painted black. */
  lemma ListedNext(hp: Heap, mk: Marks, w: Id, s0: set<Id>, s1: set<Id>, k: Links)
    requires Listed(hp, mk, [], s0, k) && w in s0 && s1 == s0 - {w} && w in mk
    ensures Listed(hp, mk[w := mk[w].(color := Black)], [w], s1, k)
  {
    var m1 := mk[w := mk[w].(color := Black)];
    forall o ensures ListedAt(hp, m1, [w], s1, k, o) {
      assert ListedAt(hp, mk, [], s0, k, o);
    }
  }

  lemma ListedBlack(hp: Heap, mk: Marks, o: Id, g: seq<Id>, saved: set<Id>, k: Links)
    requires Listed(hp, mk, [o] + g, saved, k) && o in mk
    ensures Listed(hp, mk[o := mk[o].(color := Black)], [o] + g, saved, k)
  {
    ConsCount(o, g);
    var m1, g1 := mk[o := mk[o].(color := Black)], [o] + g;
    forall x ensures ListedAt(hp, m1, g1, saved, k, x) {
      assert ListedAt(hp, mk, [o] + g, saved, k, x);
    }
  }
}
