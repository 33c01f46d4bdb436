/** What holds of every marked object while the collector is marking. */
module LuaTricolor {
  import opened LuaHeap
  import opened LuaMarks
  import opened LuaLists

  /** The tri-colour invariant: a black object refers to no white one, and every gray
      object is in a list to be visited again, open upvalues and fixed strings aside. */
  ghost predicate Tricolor(hp: Heap, mk: Marks, gray: seq<Id>, again: seq<Id>, fixedgc: seq<Id>) {
    && mk.Keys == hp.Keys
    && (forall o :: o in mk && !mk[o].color.White? ==> Colored(hp, mk, gray, again, fixedgc, o))
    && (forall o :: o in gray || o in again ==> o in mk && mk[o].color.Gray? && NeedsVisit(hp[o]))
    && Once(gray, again)
  }

  ghost predicate Colored(hp: Heap, mk: Marks, gray: seq<Id>, again: seq<Id>, fixedgc: seq<Id>, o: Id)
    requires o in mk && o in hp
  {
    && (mk[o].color.Black? ==> RefsIn(hp, hp[o], Marked(mk)) && !hp[o].Thread? && !hp[o].OpenUpval?)
    && (mk[o].color.Gray? ==> o in gray || o in again || hp[o].OpenUpval? || (o in fixedgc && hp[o].Str?))
  }

  lemma ColoredKept(o: Id, h0: Heap, m0: Marks, g0: seq<Id>, again: seq<Id>, h1: Heap, m1: Marks, g1: seq<Id>,
          again': seq<Id>, fixedgc: seq<Id>, x: Id)
    requires HeapShrunk(h0, h1) && x in h0 && x in m0 && x in m1 && m1[x] == m0[x] && x != o
    requires Colored(h0, m0, [o] + g0, again, fixedgc, x) && Marked(m0) <= Marked(m1)
    requires (x in g0 ==> x in g1) && (x in again ==> x in again')
    ensures Colored(h1, m1, g1, again', fixedgc, x)
  {
    SameShapes(h0, h1);
    if m1[x].color.Black? {
      ShrunkRefs(h0, h1, x, Marked(m0));
      RefsInMonotone(h1, h1[x], Marked(m0), Marked(m1));
    }
  }

  /** The lists are threaded through the objects, so no object is in two places. */
  ghost predicate Once(gray: seq<Id>, again: seq<Id>) {
    forall o :: multiset(gray)[o] + multiset(again)[o] <= 1
  }

  lemma OnceHead(o: Id, g: seq<Id>, again: seq<Id>)
    requires Once([o] + g, again)
    ensures o !in g && o !in again && Once(g, again) && Once(g, [o] + again)
  {
    assert multiset([o] + g) == multiset{o} + multiset(g);
    assert multiset([o] + again) == multiset{o} + multiset(again);
    assert forall x :: x in g <==> x in multiset(g);
    assert forall x :: x in again <==> x in multiset(again);
    assert multiset([o] + g)[o] + multiset(again)[o] <= 1;
    forall x ensures multiset(g)[x] + multiset(again)[x] <= 1 && multiset(g)[x] + multiset([o] + again)[x] <= 1 {
      assert multiset([o] + g)[x] + multiset(again)[x] <= 1;
    }
  }

  lemma OnceMark(hp: Heap, m0: Marks, g0: seq<Id>, m1: Marks, g1: seq<Id>, again: seq<Id>)
    requires Marking(hp, m0, g0, m1, g1) && Once(g0, again)
    requires forall o :: o in g0 || o in again ==> o in Marked(m0)
    ensures Once(g1, again)
  {
    forall x ensures multiset(g1)[x] + multiset(again)[x] <= 1 {
      assert multiset(g0)[x] + multiset(again)[x] <= 1;
      if x in NewlyGray(hp, m0, m1) {
        assert x !in g0 && x !in again;
        assert x !in multiset(g0) && x !in multiset(again);
      }
    }
  }

  /** An open upvalue needs its value marked, unless its thread is still to be visited
      or is not marked and still `unchecked` for upvalues. */
  ghost predicate UpvalFine(hp: Heap, u: Id, s: set<Id>, gray: seq<Id>, saved: set<Id>, unchecked: set<Id>)
    requires u in hp && hp[u].OpenUpval?
  {
    || RefsIn(hp, hp[u], s)
    || hp[u].th in gray || hp[u].th in saved
    || (hp[u].th in unchecked && hp[u].th !in s)
  }

  /** During the atomic phase every marked object has been visited or is waiting, in
      `gray` or among `saved`. */
  ghost predicate AtomicInv(hp: Heap, mk: Marks, gray: seq<Id>, saved: set<Id>, k: Links, unchecked: set<Id>) {
    && mk.Keys == hp.Keys
    && (forall o :: o in Marked(mk) && o !in gray && o !in saved ==>
          if hp[o].OpenUpval? then UpvalFine(hp, o, Marked(mk), gray, saved, unchecked)
          else Visited(hp, o, Marked(mk), k.weak, k.allweak, k.eph))
    && (forall o :: o in gray || o in saved ==> o in Marked(mk) && NeedsVisit(hp[o]))
    && WeakListsOk(hp, Marked(mk), k)
    && Listed(hp, mk, gray, saved, k)
  }

  /** The lists of weak tables hold marked tables only, `ephemeron` ephemeron tables only. */
  ghost predicate WeakListsOk(hp: Heap, s: set<Id>, k: Links) {
    && (forall o :: o in k.weak || o in k.allweak ==> o in s && o in hp && hp[o].Table? && !hp[o].mode.Strong?)
    && (forall o :: o in k.eph ==> o in s && o in hp && hp[o].Table? && hp[o].mode.Ephemeron? && In(hp[o].meta, s))
  }

  lemma WeakListsKept(h0: Heap, h1: Heap, s: set<Id>, t: set<Id>, k: Links)
    requires WeakListsOk(h0, s, k) && HeapShrunk(h0, h1) && s <= t
    ensures WeakListsOk(h1, t, k)
  {
    assert forall x :: x in h0 ==> Shrunk(h0[x], h1[x]);
  }

  /** Marked threads with open upvalues are linked in `twups` or about to be visited. */
  ghost predicate TwupsInv(hp: Heap, mk: Marks, gray: seq<Id>, saved: set<Id>, twups: seq<Id>) {
    && (forall t :: t in Marked(mk) && t in hp && hp[t].Thread? && hp[t].upvals != [] ==>
          t in twups || t in gray || t in saved)
    && (forall t :: t in twups ==> t in hp && hp[t].Thread?)
  }

  /** The invariant of the marking phase is what the atomic phase starts from. */
  lemma TricolorStartsAtomic(hp: Heap, mk: Marks, gray: seq<Id>, again: seq<Id>, fixedgc: seq<Id>, saved: set<Id>,
          k: Links, twups: seq<Id>)
    requires WellFormed(hp) && Tricolor(hp, mk, gray, again, fixedgc)
    requires forall o :: o in saved <==> o in again
    requires k.weak == k.allweak == k.eph == []
    requires forall t :: t in hp && hp[t].Thread? && hp[t].upvals != [] ==> t in twups
    requires forall t :: t in twups ==> t in hp && hp[t].Thread?
    requires forall o :: o in mk && o in hp ==> if hp[o].Str? then !IsTouched(mk[o].age) else mk[o].age.New?
    requires k.grayagain == []
    ensures AtomicInv(hp, mk, gray, saved, k, set t | t in twups) && NoneTwice(again)
    ensures TwupsInv(hp, mk, gray, saved, twups)
  {
    hide RefsIn, WellFormed, Visited, Listed;
    var u := set t | t in twups;
    TricolorListed(hp, mk, gray, again, fixedgc, saved, k);
    forall o | o in Marked(mk) && o !in gray && o !in saved
      ensures if hp[o].OpenUpval? then UpvalFine(hp, o, Marked(mk), gray, saved, u)
              else Visited(hp, o, Marked(mk), k.weak, k.allweak, k.eph)
    {
      assert Colored(hp, mk, gray, again, fixedgc, o);
      if hp[o].OpenUpval? {
        UpvalThread(hp, o);
        if hp[o].th in Marked(mk) { assert Colored(hp, mk, gray, again, fixedgc, hp[o].th); }
      } else {
        ColoredVisited(hp, mk, gray, again, fixedgc, o, k);
      }
    }
  }

  lemma TricolorListed(hp: Heap, mk: Marks, gray: seq<Id>, again: seq<Id>, fixedgc: seq<Id>, saved: set<Id>, k: Links)
    requires Tricolor(hp, mk, gray, again, fixedgc) && k == Links([], [], [], [])
    requires forall o :: o in saved <==> o in again
    requires forall o :: o in mk && o in hp ==> if hp[o].Str? then !IsTouched(mk[o].age) else mk[o].age.New?
    ensures Listed(hp, mk, gray, saved, k) && NoneTwice(again)
  {
    NoneTwiceCount(again);
    assert NoneTwice(again) by {
      forall o ensures multiset(again)[o] <= 1 { assert multiset(gray)[o] + multiset(again)[o] <= 1; }
    }
    forall o ensures ListedAt(hp, mk, gray, saved, k, o) {
      assert multiset(gray)[o] + multiset(again)[o] <= 1;
      assert o in gray <==> multiset(gray)[o] >= 1;
      if o in mk && !mk[o].color.White? { assert Colored(hp, mk, gray, again, fixedgc, o); }
    }
  }

  lemma UpvalThread(hp: Heap, u: Id)
    requires WellFormed(hp) && u in hp && hp[u].OpenUpval?
    ensures hp[u].th in hp && hp[hp[u].th].Thread? && hp[hp[u].th].upvals != []
  {
    assert u in hp[hp[u].th].upvals;
  }

  lemma ColoredVisited(hp: Heap, mk: Marks, gray: seq<Id>, again: seq<Id>, fixedgc: seq<Id>, o: Id, k: Links)
    requires o in hp && o in mk && !mk[o].color.White? && !hp[o].OpenUpval?
    requires Colored(hp, mk, gray, again, fixedgc, o) && o !in gray && o !in again
    ensures Visited(hp, o, Marked(mk), k.weak, k.allweak, k.eph)
  {
  }

  /** Marking more keeps the invariant: new objects are complete or in `gray`. */
  lemma AtomicMark(hp: Heap, m0: Marks, g0: seq<Id>, m1: Marks, g1: seq<Id>, saved: set<Id>, k: Links,
          unchecked: set<Id>)
    requires AtomicInv(hp, m0, g0, saved, k, unchecked) && Marking(hp, m0, g0, m1, g1)
    requires WellFormed(hp)
    ensures AtomicInv(hp, m1, g1, saved, k, unchecked)
  {
    hide Listed;
    ListedMark(hp, m0, g0, m1, g1, saved, k);
    MarkingGrows(hp, m0, g0, m1, g1);
    GrayHasNew(hp, m0, g0, m1, g1);
    WeakListsKept(hp, hp, Marked(m0), Marked(m1), k);
    forall o | o in Marked(m1) && o !in g1 && o !in saved
      ensures if hp[o].OpenUpval? then UpvalFine(hp, o, Marked(m1), g1, saved, unchecked)
              else Visited(hp, o, Marked(m1), k.weak, k.allweak, k.eph)
    {
      if o in Marked(m0) {
        if hp[o].OpenUpval? {
          UpvalFineMonotone(hp, m0, g0, m1, g1, o, saved, unchecked);
        } else {
          VisitedMonotone(hp, o, Marked(m0), k.weak, k.allweak, k.eph, Marked(m1), k.weak, k.allweak, k.eph);
        }
      } else {
        assert o in NewlyMarked(m0, m1) && JustMarked(hp, m1, o);
      }
    }
  }

  lemma UpvalFineMonotone(hp: Heap, m0: Marks, g0: seq<Id>, m1: Marks, g1: seq<Id>, u: Id, saved: set<Id>,
          unchecked: set<Id>)
    requires u in hp && hp[u].OpenUpval? && hp[u].th in hp && hp[hp[u].th].Thread?
    requires Marking(hp, m0, g0, m1, g1) && UpvalFine(hp, u, Marked(m0), g0, saved, unchecked)
    ensures UpvalFine(hp, u, Marked(m1), g1, saved, unchecked)
  {
    MarkingGrows(hp, m0, g0, m1, g1);
    GrayHasNew(hp, m0, g0, m1, g1);
    if RefsIn(hp, hp[u], Marked(m0)) {
    } else if hp[u].th !in Marked(m0) && hp[u].th in Marked(m1) {
      assert hp[u].th in NewlyGray(hp, m0, m1);
    }
  }

  lemma GrayHasNew(hp: Heap, m0: Marks, g0: seq<Id>, m1: Marks, g1: seq<Id>)
    requires Marking(hp, m0, g0, m1, g1)
    ensures forall o :: o in g1 <==> o in g0 || o in NewlyGray(hp, m0, m1)
  {
    forall o ensures o in g1 <==> o in g0 || o in NewlyGray(hp, m0, m1) {
      assert o in g1 <==> o in multiset(g1);
      assert o in g0 <==> o in multiset(g0);
    }
  }

  /** Visiting a waiting object settles it and loses nothing. */
  lemma AtomicVisit(o: Id, h0: Heap, m0: Marks, g0: seq<Id>, k0: Links, h1: Heap, m1: Marks, g1: seq<Id>, k1: Links,
          saved: set<Id>, unchecked: set<Id>)
    requires o in m0 && m0[o].color.Black? && WellFormed(h0)
    requires AtomicInv(h0, m0, [o] + g0, saved, k0, unchecked)
    requires Visit(true, o, h0, m0, g0, k0, h1, m1, g1, k1)
    ensures AtomicInv(h1, m1, g1, saved, k1, unchecked)
  {
    hide Settled, Visited, RefsIn, UpvalFine, Visit, Marking, HeapShrunk, WellFormed, Listed;
    assert o in [o] + g0;
    ListedVisit(true, o, h0, m0, g0, k0, h1, m1, g1, k1, saved);
    VisitFacts(o, h0, m0, g0, k0, h1, m1, g1, k1);
    WeakListsKept(h0, h1, Marked(m0), Marked(m1), k0);
    WeakListsVisit(o, h1, m0, m1, k0, k1);
    forall x | x in Marked(m1) && x !in g1 && x !in saved
      ensures if h1[x].OpenUpval? then UpvalFine(h1, x, Marked(m1), g1, saved, unchecked)
              else Visited(h1, x, Marked(m1), k1.weak, k1.allweak, k1.eph)
    {
      if x == o {
        SettledVisited(o, h1, m0, m1, k0, k1);
      } else if x in Marked(m0) {
        if h1[x].OpenUpval? {
          UpvalFineVisit(o, h0, m0, g0, k0, h1, m1, g1, k1, saved, unchecked, x);
        } else {
          ShrunkVisited(h0, h1, x, Marked(m0), k0.weak, k0.allweak, k0.eph);
          VisitedMonotone(h1, x, Marked(m0), k0.weak, k0.allweak, k0.eph, Marked(m1), k1.weak, k1.allweak, k1.eph);
        }
      } else {
        JustMarkedDone(h1, m0, g0, m1[o := m0[o]], g1, x);
      }
    }
  }

  lemma VisitFacts(o: Id, h0: Heap, m0: Marks, g0: seq<Id>, k0: Links, h1: Heap, m1: Marks, g1: seq<Id>, k1: Links)
    requires o in m0 && m0[o].color.Black? && WellFormed(h0) && m0.Keys == h0.Keys && NeedsVisit(h0[o])
    requires Visit(true, o, h0, m0, g0, k0, h1, m1, g1, k1)
    ensures HeapShrunk(h0, h1) && m1.Keys == h1.Keys == h0.Keys && WellFormed(h1)
    ensures Marked(m1) == Marked(m1[o := m0[o]]) && Marked(m0) <= Marked(m1)
    ensures forall x ::
      x in h0 ==> (NeedsVisit(h0[x]) <==> NeedsVisit(h1[x])) && (h0[x].OpenUpval? <==> h1[x].OpenUpval?)
    ensures forall x :: x in g1 <==> x in g0 || x in NewlyGray(h1, m0, m1[o := m0[o]])
    ensures Marking(h1, m0, g0, m1[o := m0[o]], g1)
    ensures forall x :: x in g1 && x !in g0 ==> x in Marked(m1) && x in h1 && NeedsVisit(h1[x])
    ensures forall x :: x in k0.weak ==> x in k1.weak
    ensures forall x :: x in k0.allweak ==> x in k1.allweak
    ensures forall x :: x in k0.eph ==> x in k1.eph
    ensures Settled(true, h1, o, m0, m1, k0, k1)
    ensures o in Marked(m1)
  {
    hide Marking, WellFormed, RefsIn, Visited;
    var m1' := m1[o := m0[o]];
    MarkingGrows(h1, m0, g0, m1', g1);
    GrayHasNew(h1, m0, g0, m1', g1);
    ShrunkClosed(h0, h1);
    assert !m1[o].color.White?;
    assert Marked(m1) == Marked(m1');
    forall x | x in h0 ensures (NeedsVisit(h0[x]) <==> NeedsVisit(h1[x])) && (h0[x].OpenUpval? <==> h1[x].OpenUpval?) {
      assert Shrunk(h0[x], h1[x]);
    }
  }

  lemma WeakListsVisit(o: Id, hp: Heap, m0: Marks, m1: Marks, k0: Links, k1: Links)
    requires o in hp && o in m0 && o in m1 && Settled(true, hp, o, m0, m1, k0, k1) && o in Marked(m1)
    requires WeakListsOk(hp, Marked(m1), k0)
    ensures WeakListsOk(hp, Marked(m1), k1)
  {
  }

  lemma SettledVisited(o: Id, hp: Heap, m0: Marks, m1: Marks, k0: Links, k1: Links)
    requires o in hp && o in m0 && o in m1 && Settled(true, hp, o, m0, m1, k0, k1) && NeedsVisit(hp[o])
    ensures !hp[o].OpenUpval? && Visited(hp, o, Marked(m1), k1.weak, k1.allweak, k1.eph)
  {
  }

  lemma JustMarkedDone(hp: Heap, m0: Marks, g0: seq<Id>, m1: Marks, g1: seq<Id>, x: Id)
    requires Marking(hp, m0, g0, m1, g1) && x in Marked(m1) && x !in Marked(m0) && x !in g1
    ensures x in hp && RefsIn(hp, hp[x], Marked(m1))
    ensures forall w, a, e :: Visited(hp, x, Marked(m1), w, a, e)
    ensures hp[x].OpenUpval? ==> forall g, s, r :: UpvalFine(hp, x, Marked(m1), g, s, r)
  {
    GrayHasNew(hp, m0, g0, m1, g1);
    assert x in NewlyMarked(m0, m1);
  }

  lemma UpvalFineVisit(o: Id, h0: Heap, m0: Marks, g0: seq<Id>, k0: Links, h1: Heap, m1: Marks, g1: seq<Id>, k1: Links,
          saved: set<Id>, unchecked: set<Id>, u: Id)
    requires o in m0 && m0[o].color.Black? && WellFormed(h0) && m0.Keys == h0.Keys && NeedsVisit(h0[o])
    requires Visit(true, o, h0, m0, g0, k0, h1, m1, g1, k1)
    requires u in h0 && h0[u].OpenUpval? && u != o && UpvalFine(h0, u, Marked(m0), [o] + g0, saved, unchecked)
    ensures u in h1 && h1[u].OpenUpval? && UpvalFine(h1, u, Marked(m1), g1, saved, unchecked)
  {
    VisitFacts(o, h0, m0, g0, k0, h1, m1, g1, k1);
    var th := h0[u].th;
    assert Shrunk(h0[u], h1[u]) && Shrunk(h0[th], h1[th]);
    if RefsIn(h0, h0[u], Marked(m0)) {
      ShrunkRefs(h0, h1, u, Marked(m0));
    } else if th == o {
      assert RefsIn(h1, h1[o], Marked(m1));
    } else if th in unchecked && th !in Marked(m0) && th in Marked(m1) {
      assert th in NewlyGray(h1, m0, m1[o := m0[o]]);
    }
  }

  lemma TwupsMark(hp: Heap, m0: Marks, g0: seq<Id>, m1: Marks, g1: seq<Id>, saved: set<Id>, twups: seq<Id>)
    requires TwupsInv(hp, m0, g0, saved, twups) && Marking(hp, m0, g0, m1, g1)
    ensures TwupsInv(hp, m1, g1, saved, twups)
  {
    MarkingGrows(hp, m0, g0, m1, g1);
    GrayHasNew(hp, m0, g0, m1, g1);
  }

  lemma TwupsVisit(o: Id, h0: Heap, m0: Marks, g0: seq<Id>, k0: Links, h1: Heap, m1: Marks, g1: seq<Id>, k1: Links,
          saved: set<Id>, t0: seq<Id>, t1: seq<Id>)
    requires o in m0 && m0[o].color.Black? && WellFormed(h0) && m0.Keys == h0.Keys && NeedsVisit(h0[o])
    requires Visit(true, o, h0, m0, g0, k0, h1, m1, g1, k1)
    requires TwupsInv(h0, m0, [o] + g0, saved, t0)
    requires t1 == if h0[o].Thread? && o !in t0 && h0[o].upvals != [] then [o] + t0 else t0
    ensures TwupsInv(h1, m1, g1, saved, t1)
  {
    hide Visit, Settled, Visited, RefsIn, Marking, WellFormed;
    VisitFacts(o, h0, m0, g0, k0, h1, m1, g1, k1);
    ThreadsSame(h0, h1);
    hide NewlyGray, Shrunk, HeapShrunk;
    forall t | t in Marked(m1) && t in h1 && h1[t].Thread? && h1[t].upvals != []
      ensures t in t1 || t in g1 || t in saved
    {
      if t !in Marked(m0) { NewInGray(h1, m0, m1, o, t); }
    }
  }

  lemma ThreadsSame(h0: Heap, h1: Heap)
    requires HeapShrunk(h0, h1)
    ensures forall t :: t in h0 ==> t in h1 && (h0[t].Thread? <==> h1[t].Thread?)
    ensures forall t :: t in h0 && h0[t].Thread? ==> h1[t].upvals == h0[t].upvals
  {
    assert forall x :: x in h0 ==> Shrunk(h0[x], h1[x]);
  }

  lemma NewInGray(hp: Heap, m0: Marks, m1: Marks, o: Id, t: Id)
    requires o in m0 && m0[o].color.Black? && t in Marked(m1) && t !in Marked(m0) && t in hp && hp[t].Thread?
      && m0.Keys == m1.Keys
    ensures t in NewlyGray(hp, m0, m1[o := m0[o]])
  {
  }

  /** Visiting during the propagation phase keeps the tri-colour invariant. */
  lemma TricolorVisit(o: Id, h0: Heap, m0: Marks, g0: seq<Id>, k0: Links, h1: Heap, m1: Marks, g1: seq<Id>, k1: Links,
          fixedgc: seq<Id>)
    requires o in m0 && m0[o].color.Gray? && WellFormed(h0)
    requires Tricolor(h0, m0, [o] + g0, k0.grayagain, fixedgc)
    requires Visit(false, o, h0, m0[o := m0[o].(color := Black)], g0, k0, h1, m1, g1, k1)
    ensures Tricolor(h1, m1, g1, k1.grayagain, fixedgc)
  {
    hide Marking, HeapShrunk, WellFormed, Once, Visit, RefsIn;
    var mb := m0[o := m0[o].(color := Black)];
    var m1' := m1[o := mb[o]];
    OnceHead(o, g0, k0.grayagain);
    EarlyVisitFacts(o, h0, m0, g0, k0, h1, mb, m1, g1, k1, fixedgc);
    OnceMark(h1, mb, g0, m1', g1, k0.grayagain);
    OnceAgain(o, g1, k0.grayagain, k1.grayagain);
    forall x | x in m1 && !m1[x].color.White? ensures Colored(h1, m1, g1, k1.grayagain, fixedgc, x) {
      if x == o {
      } else if x in Marked(m0) {
        assert Colored(h0, m0, [o] + g0, k0.grayagain, fixedgc, x);
        ColoredKept(o, h0, m0, g0, k0.grayagain, h1, m1, g1, k1.grayagain, fixedgc, x);
      } else {
        assert x in NewlyMarked(mb, m1');
        NewInColor(h1, mb, g0, m1', g1, x);
        assert Colored(h1, m1', g1, k1.grayagain, fixedgc, x);
      }
    }
    TricolorLists(o, h0, m0, g0, k0, h1, mb, m1, g1, k1);
  }

  lemma OnceAgain(o: Id, g: seq<Id>, a0: seq<Id>, a1: seq<Id>)
    requires Once(g, a0) && o !in g && o !in a0 && (a1 == a0 || a1 == [o] + a0)
    ensures Once(g, a1)
  {
    forall x ensures multiset(g)[x] + multiset(a1)[x] <= 1 {
      assert multiset(g)[x] + multiset(a0)[x] <= 1;
      assert multiset([o] + a0) == multiset{o} + multiset(a0);
      assert o !in multiset(g) && o !in multiset(a0);
    }
  }

  lemma EarlyVisitFacts(o: Id, h0: Heap, m0: Marks, g0: seq<Id>, k0: Links, h1: Heap, mb: Marks, m1: Marks,
          g1: seq<Id>, k1: Links, fixedgc: seq<Id>)
    requires o in m0 && m0[o].color.Gray? && mb == m0[o := m0[o].(color := Black)] && o !in g0
    requires Visit(false, o, h0, mb, g0, k0, h1, m1, g1, k1)
    ensures HeapShrunk(h0, h1) && Marking(h1, mb, g0, m1[o := mb[o]], g1)
    ensures m1.Keys == m0.Keys == h0.Keys == h1.Keys
    ensures Marked(m0) == Marked(mb) && Marked(m1) == Marked(m1[o := mb[o]]) && Marked(m0) <= Marked(m1)
    ensures forall x :: x in m0 && !mb[x].color.White? && x != o ==> m1[x] == m0[x]
    ensures forall x :: x in g0 ==> x in g1
    ensures NewlyMarked(mb, m1[o := mb[o]]) == Marked(m1) - Marked(m0)
    ensures k1.grayagain == k0.grayagain || (k1.grayagain == [o] + k0.grayagain && m1[o].color.Gray?)
    ensures !NeedsVisit(h1[o]) || Colored(h1, m1, g1, k1.grayagain, fixedgc, o)
    ensures NeedsVisit(h1[o]) <==> NeedsVisit(h0[o])
    ensures NeedsVisit(h0[o]) ==> o !in g1
  {
    var m1' := m1[o := mb[o]];
    MarkedSame(m0, mb, o);
    MarkedSame(m1', m1, o);
    MarkingGrows(h1, mb, g0, m1', g1);
    GrayHasNew(h1, mb, g0, m1', g1);
    SameShapes(h0, h1);
  }

  lemma TricolorLists(o: Id, h0: Heap, m0: Marks, g0: seq<Id>, k0: Links, h1: Heap, mb: Marks, m1: Marks, g1: seq<Id>,
          k1: Links)
    requires o in m0 && mb == m0[o := m0[o].(color := Black)] && o in m1 && HeapShrunk(h0, h1)
    requires Marking(h1, mb, g0, m1[o := mb[o]], g1) && o !in g0 && o !in k0.grayagain && m0.Keys == h0.Keys
      && NeedsVisit(h0[o])
    requires forall x :: x in g0 || x in k0.grayagain ==> x in m0 && m0[x].color.Gray? && NeedsVisit(h0[x])
    requires k1.grayagain == k0.grayagain || (k1.grayagain == [o] + k0.grayagain && m1[o].color.Gray?)
    ensures forall x :: x in g1 || x in k1.grayagain ==> x in m1 && m1[x].color.Gray? && NeedsVisit(h1[x])
  {
    hide Marking, HeapShrunk, RefsIn;
    SameShapes(h0, h1);
    MarkingGrows(h1, mb, g0, m1[o := mb[o]], g1);
    forall x | x in g1 || x in k1.grayagain ensures x in m1 && m1[x].color.Gray? && NeedsVisit(h1[x]) {
      if x in g1 && x !in g0 { NewInColor(h1, mb, g0, m1[o := mb[o]], g1, x); }
    }
  }

  lemma NewInColor(hp: Heap, m0: Marks, g0: seq<Id>, m1: Marks, g1: seq<Id>, x: Id)
    requires Marking(hp, m0, g0, m1, g1) && (x in NewlyMarked(m0, m1) || (x in g1 && x !in g0))
    ensures x in hp && x in NewlyMarked(m0, m1) && x in m1
    ensures forall again, fixedgc :: Colored(hp, m1, g1, again, fixedgc, x)
    ensures x in g1 && x !in g0 ==> m1[x].color.Gray? && NeedsVisit(hp[x])
  {
    GrayHasNew(hp, m0, g0, m1, g1);
    assert JustMarked(hp, m1, x);
  }

  lemma SameShapes(h0: Heap, h1: Heap)
    requires HeapShrunk(h0, h1)
    ensures forall x :: x in h0 ==>
              && x in h1
              && (h0[x].Table? <==> h1[x].Table?) && (!h0[x].Table? ==> h1[x] == h0[x])
              && (NeedsVisit(h0[x]) <==> NeedsVisit(h1[x]))
  {
    assert forall x :: x in h0 ==> Shrunk(h0[x], h1[x]);
  }

  /** Entries removed from weak tables disturb nothing. */
  lemma AtomicShrunk(h0: Heap, h1: Heap, mk: Marks, gray: seq<Id>, saved: set<Id>, k: Links, unchecked: set<Id>,
          twups: seq<Id>)
    requires HeapShrunk(h0, h1)
    ensures AtomicInv(h0, mk, gray, saved, k, unchecked) ==> AtomicInv(h1, mk, gray, saved, k, unchecked)
    ensures TwupsInv(h0, mk, gray, saved, twups) ==> TwupsInv(h1, mk, gray, saved, twups)
  {
    hide Listed;
    SameShapes(h0, h1);
    if AtomicInv(h0, mk, gray, saved, k, unchecked) {
      ListedShrunk(h0, h1, mk, gray, saved, k);
      WeakListsKept(h0, h1, Marked(mk), Marked(mk), k);
      forall o | o in Marked(mk) && o !in gray && o !in saved
        ensures if h1[o].OpenUpval? then UpvalFine(h1, o, Marked(mk), gray, saved, unchecked)
                else Visited(h1, o, Marked(mk), k.weak, k.allweak, k.eph)
      {
        if h1[o].OpenUpval? {
          if RefsIn(h0, h0[o], Marked(mk)) { ShrunkRefs(h0, h1, o, Marked(mk)); }
        } else {
          ShrunkVisited(h0, h1, o, Marked(mk), k.weak, k.allweak, k.eph);
        }
      }
    }
  }

  /** A larger set of threads may be called unchecked. */
  lemma AtomicUnchecked(hp: Heap, mk: Marks, gray: seq<Id>, saved: set<Id>, k: Links, u0: set<Id>, u1: set<Id>)
    requires AtomicInv(hp, mk, gray, saved, k, u0) && u0 <= u1
    ensures AtomicInv(hp, mk, gray, saved, k, u1)
  {
    hide Listed;
    forall o | o in Marked(mk) && o !in gray && o !in saved
      ensures if hp[o].OpenUpval? then UpvalFine(hp, o, Marked(mk), gray, saved, u1)
              else Visited(hp, o, Marked(mk), k.weak, k.allweak, k.eph)
    {
    }
  }

  lemma UpvalFineMark(hp: Heap, m0: Marks, g0: seq<Id>, m1: Marks, g1: seq<Id>, u: Id, saved: set<Id>,
          unchecked: set<Id>)
    requires WellFormed(hp) && Marking(hp, m0, g0, m1, g1) && u in hp && hp[u].OpenUpval? && u in Marked(m1)
    requires u in Marked(m0) ==> UpvalFine(hp, u, Marked(m0), g0, saved, unchecked)
    ensures UpvalFine(hp, u, Marked(m1), g1, saved, unchecked)
  {
    if u in Marked(m0) {
      UpvalFineMonotone(hp, m0, g0, m1, g1, u, saved, unchecked);
    } else {
      assert u in NewlyMarked(m0, m1) && JustMarked(hp, m1, u);
    }
  }

  /** Thread `t` has been checked once all its marked upvalues are fine without it. */
  lemma AtomicChecked(hp: Heap, mk: Marks, gray: seq<Id>, saved: set<Id>, k: Links, unchecked: set<Id>, t: Id)
    requires WellFormed(hp) && AtomicInv(hp, mk, gray, saved, k, unchecked) && t in hp && hp[t].Thread?
    requires forall j ::
      0 <= j < |hp[t].upvals| && hp[t].upvals[j] in Marked(mk) && hp[t].upvals[j] in hp
      && hp[hp[t].upvals[j]].OpenUpval? ==>
               UpvalFine(hp, hp[t].upvals[j], Marked(mk), gray, saved, unchecked - {t})
    ensures AtomicInv(hp, mk, gray, saved, k, unchecked - {t})
  {
    hide RefsIn, Listed;
    forall o | o in Marked(mk) && o !in gray && o !in saved
      ensures if hp[o].OpenUpval? then UpvalFine(hp, o, Marked(mk), gray, saved, unchecked - {t})
              else Visited(hp, o, Marked(mk), k.weak, k.allweak, k.eph)
    {
      if hp[o].OpenUpval? && hp[o].th == t {
        assert o in hp[t].upvals;
      }
    }
  }

  /** The saved list becomes the gray list. */
  lemma AtomicUnsave(hp: Heap, mk: Marks, saved: seq<Id>, ss: set<Id>, k: Links, unchecked: set<Id>, twups: seq<Id>)
    requires AtomicInv(hp, mk, [], ss, k, unchecked) && TwupsInv(hp, mk, [], ss, twups)
    requires NoneTwice(saved) && forall o :: o in ss <==> o in saved
    ensures AtomicInv(hp, mk, saved, {}, k, unchecked) && TwupsInv(hp, mk, saved, {}, twups)
  {
    hide Listed;
    ListedUnsave(hp, mk, saved, k, ss);
  }

  /** References of anything but an open upvalue do not depend on the rest of the heap. */
  lemma RefsInSame(h0: Heap, h1: Heap, ob: Object, s: set<Id>)
    requires !ob.OpenUpval?
    ensures RefsIn(h0, ob, s) <==> RefsIn(h1, ob, s)
  {
  }

  /** Marking anything keeps the tri-colour invariant. */
  lemma TricolorMark(hp: Heap, m0: Marks, g0: seq<Id>, m1: Marks, g1: seq<Id>, again: seq<Id>, fixedgc: seq<Id>)
    requires Tricolor(hp, m0, g0, again, fixedgc) && Marking(hp, m0, g0, m1, g1)
    ensures Tricolor(hp, m1, g1, again, fixedgc)
  {
    hide RefsIn, Once;
    MarkingGrows(hp, m0, g0, m1, g1);
    OnceMark(hp, m0, g0, m1, g1, again);
    forall o | o in m1 && !m1[o].color.White? ensures Colored(hp, m1, g1, again, fixedgc, o) {
      if o in Marked(m0) {
        assert Colored(hp, m0, g0, again, fixedgc, o);
        if m0[o].color.Black? { RefsInMonotone(hp, hp[o], Marked(m0), Marked(m1)); }
      } else {
        assert o in NewlyMarked(m0, m1);
        NewInColor(hp, m0, g0, m1, g1, o);
      }
    }
    forall o | o in g1 || o in again ensures o in m1 && m1[o].color.Gray? && NeedsVisit(hp[o]) {
      if o in g1 && o !in g0 { NewInColor(hp, m0, g0, m1, g1, o); }
    }
  }

  /** New contents for `o` that suit its colour; no other object is affected. */
  lemma TricolorStore(h0: Heap, h1: Heap, mk: Marks, gray: seq<Id>, again: seq<Id>, fixedgc: seq<Id>, o: Id)
    requires Tricolor(h0, mk, gray, again, fixedgc)
    requires o in h0 && o in h1 && h1 == h0[o := h1[o]]
    requires NeedsVisit(h1[o]) <==> NeedsVisit(h0[o])
    requires h0[o].OpenUpval? ==> !mk[o].color.Gray? || h1[o].OpenUpval?
    requires !h0[o].Str? && (h1[o].Thread? <==> h0[o].Thread?) && (h1[o].OpenUpval? ==> h0[o].OpenUpval?)
    requires mk[o].color.Black? ==> RefsIn(h1, h1[o], Marked(mk))
    ensures Tricolor(h1, mk, gray, again, fixedgc)
  {
    hide RefsIn, Once;
    forall x | x in mk && !mk[x].color.White? ensures Colored(h1, mk, gray, again, fixedgc, x) {
      assert Colored(h0, mk, gray, again, fixedgc, x);
      if x != o && !h0[x].OpenUpval? { RefsInSame(h0, h1, h0[x], Marked(mk)); }
    }
  }
}
