/** What a young collection makes of an object that no list mentions: it does not look at it. This
    is what the generational invariant is for; here it is not assumed. */
module LuaUnseen {
  import opened LuaHeap
  import opened LuaMarks
  import opened LuaLists
  import opened LuaTricolor
  import opened LuaGc
  import opened LuaState
  import opened LuaSweep
  import opened LuaObjects
  import opened LuaYoung

  /** No open upvalues, and no weak tables but `t`. */
  predicate Plain(hp: Heap, t: Id) {
    forall o :: o in hp ==> PlainObject(hp[o], o == t)
  }

  predicate PlainObject(ob: Object, weak: bool) {
    !ob.OpenUpval? && (ob.Thread? ==> ob.upvals == []) && (ob.Table? && !weak ==> ob.mode.Strong?)
  }

  /** An object of the gray list. */
  predicate Waiting(hp: Heap, mk: Marks, t: Id, o: Id) {
    o in hp && o in mk && !mk[o].color.White? && NeedsVisit(hp[o]) && o != t
  }

  predicate AllWaiting(hp: Heap, mk: Marks, t: Id, l: seq<Id>) {
    forall o :: o in l ==> Waiting(hp, mk, t, o)
  }

  /** `t` is marked and in no list that will be looked at; `saved` waits besides the lists. */
  ghost predicate Unseen(g: GlobalState, t: Id, c: set<Id>, saved: seq<Id>)
    reads g
  {
    && g.MarkReady(c) && Plain(g.hp, t) && t in g.mk && !g.mk[t].color.White?
    && Waitings(g.hp, g.mk, t, g.gray, g.grayagain + saved)
    && g.weak == [] && g.allweak == [] && g.ephemeron == [] && g.twups == []
  }

  /** What waits, does so in one place. */
  ghost predicate Waitings(hp: Heap, mk: Marks, t: Id, gray: seq<Id>, again: seq<Id>) {
    AllWaiting(hp, mk, t, gray) && AllWaiting(hp, mk, t, again) && Once(gray, again)
  }

  /** What happens to everything else while `t` is not seen. */
  ghost predicate UnseenStep(h0: Heap, m0: Marks, h1: Heap, m1: Marks, t: Id) {
    && HeapShrunk(h0, h1) && MarksProgress(m0, m1)
    && t in h0 && t in h1 && h1[t] == h0[t] && t in m0 && t in m1 && m1[t] == m0[t]
  }

  lemma UnseenNone(hp: Heap, mk: Marks, t: Id)
    requires t in hp && t in mk
    ensures UnseenStep(hp, mk, hp, mk, t)
  {
  }

  lemma UnseenTrans(h0: Heap, m0: Marks, h1: Heap, m1: Marks, h2: Heap, m2: Marks, t: Id)
    requires UnseenStep(h0, m0, h1, m1, t) && UnseenStep(h1, m1, h2, m2, t)
    ensures UnseenStep(h0, m0, h2, m2, t)
  {
    hide HeapShrunk;
    ShrunkTrans(h0, h1, h2);
  }

  lemma WaitingLater(h0: Heap, m0: Marks, h1: Heap, m1: Marks, t: Id, l: seq<Id>)
    requires HeapShrunk(h0, h1) && MarksProgress(m0, m1) && AllWaiting(h0, m0, t, l)
    ensures AllWaiting(h1, m1, t, l)
  {
    forall o | o in l ensures Waiting(h1, m1, t, o) {
      assert Waiting(h0, m0, t, o) && Shrunk(h0[o], h1[o]);
    }
  }

  lemma PlainLater(h0: Heap, h1: Heap, t: Id)
    requires Plain(h0, t) && HeapShrunk(h0, h1)
    ensures Plain(h1, t)
  {
    forall o | o in h1 ensures PlainObject(h1[o], o == t) {
      assert PlainObject(h0[o], o == t) && Shrunk(h0[o], h1[o]);
    }
  }

  /** Marking puts into the gray list what was white. */
  lemma UnseenMarking(hp: Heap, m0: Marks, g0: seq<Id>, m1: Marks, g1: seq<Id>, t: Id, again: seq<Id>)
    requires Marking(hp, m0, g0, m1, g1) && t in hp && t in m0 && !m0[t].color.White?
    requires Waitings(hp, m0, t, g0, again)
    ensures UnseenStep(hp, m0, hp, m1, t) && Waitings(hp, m1, t, g1, again)
  {
    hide Once, JustMarked;
    forall o | o in g0 || o in again ensures o in Marked(m0) { assert Waiting(hp, m0, t, o); }
    OnceMark(hp, m0, g0, m1, g1, again);
    WaitingLater(hp, m0, hp, m1, t, again);
    NewWaiting(hp, m0, g0, m1, g1, t);
  }

  lemma NewWaiting(hp: Heap, m0: Marks, g0: seq<Id>, m1: Marks, g1: seq<Id>, t: Id)
    requires Marking(hp, m0, g0, m1, g1) && t in m0 && !m0[t].color.White? && AllWaiting(hp, m0, t, g0)
    ensures AllWaiting(hp, m1, t, g1)
  {
    hide JustMarked;
    GrayHasNew(hp, m0, g0, m1, g1);
    forall o | o in g1 ensures Waiting(hp, m1, t, o) {
      if o in g0 { assert Waiting(hp, m0, t, o); }
    }
  }

  /** A visit: the object is not `t` and no weak table, so it goes to `grayagain` at most. */
  lemma UnseenVisit(o: Id, h0: Heap, m0: Marks, g0: seq<Id>, k0: Links, h1: Heap, m1: Marks, g1: seq<Id>, k1: Links,
          t: Id, saved: seq<Id>)
    requires Plain(h0, t) && t in h0 && t in m0 && !m0[t].color.White? && o in m0
    requires Waitings(h0, m0, t, [o] + g0, k0.grayagain + saved)
    requires Visit(true, o, h0, Blackened(m0, o), g0, k0, h1, m1, g1, k1)
    ensures UnseenStep(h0, m0, h1, m1, t) && Waitings(h1, m1, t, g1, k1.grayagain + saved)
    ensures k1.weak == k0.weak && k1.allweak == k0.allweak && k1.eph == k0.eph
    ensures |Whites(m1)| < |Whites(m0)| || (|Whites(m1)| == |Whites(m0)| && |g1| == |g0|)
  {
    var again := k0.grayagain + saved;
    assert ([o] + g0)[0] == o && ([o] + g0)[1..] == g0;
    assert Waiting(h0, m0, t, o) && AllWaiting(h0, m0, t, g0);
    VisitProgress(o, h0, m0, g0, k0, h1, m1, g1, k1);
    var mb := Blackened(m0, o);
    var m1' := m1[o := mb[o]];
    hide Visited, RefsIn, JustMarked, Whites, Once;
    VisitLists(o, h0, m0, h1, m1, k0, k1, t);
    OnceHead(o, g0, again);
    AllBlackened(h0, h1, m0, o, t, g0, again);
    OnceMark(h1, mb, g0, m1', g1, again);
    GrayHasNew(h1, mb, g0, m1', g1);
    OnceAgain(o, g1, again, k1.grayagain + saved) by {
      assert [o] + again == [o] + k0.grayagain + saved;
    }
    NewWaiting(h1, mb, g0, m1', g1, t);
    WaitingLater(h0, m0, h1, m1, t, [o] + again);
    assert m1[o].color == mb[o].color || !m1[o].color.White?;
    assert AllWaiting(h1, m1, t, g1) by {
      forall x | x in g1 ensures Waiting(h1, m1, t, x) { assert Waiting(h1, m1', t, x); }
    }
    assert AllWaiting(h1, m1, t, k1.grayagain + saved) by {
      forall x | x in k1.grayagain + saved ensures x in [o] + again {}
    }
  }

  lemma AllBlackened(h0: Heap, h1: Heap, m0: Marks, o: Id, t: Id, g0: seq<Id>, again: seq<Id>)
    requires HeapShrunk(h0, h1) && Waiting(h0, m0, t, o) && AllWaiting(h0, m0, t, g0) && AllWaiting(h0, m0, t, again)
    ensures AllWaiting(h1, Blackened(m0, o), t, g0) && AllWaiting(h0, m0, t, [o] + again)
    ensures forall x :: x in g0 || x in again ==> x in Marked(Blackened(m0, o))
  {
    forall x | x in g0 || x in again ensures Waiting(h1, Blackened(m0, o), t, x) {
      assert Waiting(h0, m0, t, x) && Shrunk(h0[x], h1[x]);
    }
  }

  lemma VisitLists(o: Id, h0: Heap, m0: Marks, h1: Heap, m1: Marks, k0: Links, k1: Links, t: Id)
    requires Plain(h0, t) && o in h0 && o in h1 && o != t && Shrunk(h0[o], h1[o]) && o in m0 && o in m1
    requires Settled(true, h1, o, Blackened(m0, o), m1, k0, k1)
    ensures k1.weak == k0.weak && k1.allweak == k0.allweak && k1.eph == k0.eph
    ensures k1.grayagain == k0.grayagain || k1.grayagain == [o] + k0.grayagain
  {
    assert PlainObject(h0[o], false);
  }

  method PropagateUnseen(g: GlobalState, t: Id, ghost c: set<Id>, ghost saved: seq<Id>)
    requires Unseen(g, t, c, saved) && g.gcstate.Atomic?
    modifies g`hp, g`mk, g`gray, g`grayagain, g`weak, g`allweak, g`ephemeron, g`twups
    ensures Unseen(g, t, c, saved) && g.gray == [] && UnseenStep(old(g.hp), old(g.mk), g.hp, g.mk, t)
  {
    hide HeapReady, Visit, HeapShrunk, MarksProgress, Whites, Once;
    UnseenNone(g.hp, g.mk, t);
    while g.gray != []
      invariant Unseen(g, t, c, saved) && UnseenStep(old(g.hp), old(g.mk), g.hp, g.mk, t)
      decreases |Whites(g.mk)|, |g.gray|
    {
      ghost var o, h0, m0, g0, k0 := g.gray[0], g.hp, g.mk, g.gray[1..], g.Lists();
      assert g.gray == [o] + g0;
      assert Waiting(h0, m0, t, o) && PlainObject(h0[o], false);
      g.PropagateMark(c);
      UnseenVisit(o, h0, m0, g0, k0, g.hp, g.mk, g.gray, g.Lists(), t, saved);
      PlainStep(h0, m0, g.hp, g.mk, t);
      UnseenTrans(old(g.hp), old(g.mk), h0, m0, g.hp, g.mk, t);
    }
  }

  lemma PlainStep(h0: Heap, m0: Marks, h1: Heap, m1: Marks, t: Id)
    requires UnseenStep(h0, m0, h1, m1, t) && Plain(h0, t)
    ensures Plain(h1, t) && (!m0[t].color.White? ==> !m1[t].color.White?)
  {
    hide HeapShrunk;
    PlainLater(h0, h1, t);
  }

  /** The roots are marked. */
  method RootsUnseen(g: GlobalState, t: Id, ghost c: set<Id>, ghost saved: seq<Id>)
    requires Unseen(g, t, c, saved) && g.RootsIn(c)
    modifies g`mk, g`gray
    ensures Unseen(g, t, c, saved) && UnseenStep(g.hp, old(g.mk), g.hp, g.mk, t)
  {
    hide HeapReady, Marking, HeapShrunk, MarksProgress, Plain, Waitings;
    ghost var m0, again := g.mk, g.grayagain + saved;
    g.MarkValue(Ref(g.an.running), c);
    UnseenMarking(g.hp, m0, old(g.gray), g.mk, g.gray, t, again);
    ghost var m1, g1 := g.mk, g.gray;
    g.MarkValue(g.an.registry, c);
    UnseenMarking(g.hp, m1, g1, g.mk, g.gray, t, again);
    ghost var m2, g2 := g.mk, g.gray;
    g.MarkMt(c);
    UnseenMarking(g.hp, m2, g2, g.mk, g.gray, t, again);
    UnseenTrans(g.hp, m0, g.hp, m1, g.hp, m2, t);
    UnseenTrans(g.hp, m0, g.hp, m2, g.hp, g.mk, t);
  }

  /** The marking of the atomic phase: the roots, what they lead to, and what was kept for it. */
  method RemarkUnseen(g: GlobalState, t: Id, ghost c: set<Id>)
    requires Unseen(g, t, c, []) && g.gcstate.Propagate? && g.RootsIn(c)
    modifies g`hp, g`mk, g`gray, g`grayagain, g`weak, g`allweak, g`ephemeron, g`twups, g`gcstate
    ensures Unseen(g, t, c, []) && UnseenStep(old(g.hp), old(g.mk), g.hp, g.mk, t) && g.gray == []
  {
    hide HeapReady, HeapShrunk, MarksProgress, Plain, Waitings, UnseenStep, Marked;
    var saved := g.grayagain;
    assert g.grayagain + [] == [] + saved;
    g.grayagain := [];
    g.gcstate := Atomic;
    ghost var h0, m0 := g.hp, g.mk;
    RootsUnseen(g, t, c, saved);
    ghost var m3 := g.mk;
    PropagateUnseen(g, t, c, saved);
    UnseenTrans(h0, m0, h0, m3, g.hp, g.mk, t);
    assert g.twups == [];
    ghost var h4, m4 := g.hp, g.mk;
    SavedNext(h4, m4, t, g.grayagain, saved);
    g.gray := saved;
    assert g.grayagain + [] == g.grayagain;
    PropagateUnseen(g, t, c, []);
    UnseenTrans(h0, m0, h4, m4, g.hp, g.mk, t);
  }

  /** atomic, in a heap without finalizers. The parts of it that look at open upvalues, at
      ephemerons and at other weak tables have empty lists to go through. */
  method AtomicUnseen(g: GlobalState, t: Id, ghost c: set<Id>)
    requires Unseen(g, t, c, []) && g.gcstate.Propagate? && g.RootsIn(c) && g.ls.finobj == [] && g.ls.tobefnz == []
    modifies g`hp, g`mk, g`gray, g`grayagain, g`weak, g`allweak, g`ephemeron, g`twups
    modifies g`gcstate, g`currentwhite, g`ls, g`ptr
    ensures Unseen(g, t, c, []) && UnseenStep(old(g.hp), old(g.mk), g.hp, g.mk, t) && g.gray == []
    ensures g.currentwhite == !old(g.currentwhite) && g.ls == old(g.ls)
      && g.ptr == old(g.ptr).(finobjsur := g.ptr.finobjsur)
  {
    hide HeapReady, Plain, Waitings, UnseenStep, Separated, SurMoved, Marked;
    RemarkUnseen(g, t, c);
    assert g.ephemeron == [] && g.weak == [] && g.allweak == [];
    ghost var k := g.SeparateToBeFnz(false);
    NoneSeparated(Marked(g.mk), g.ls.finobj, k, g.ls.tobefnz);
    g.currentwhite := !g.currentwhite;
  }

  lemma SavedNext(hp: Heap, mk: Marks, t: Id, again: seq<Id>, saved: seq<Id>)
    requires Waitings(hp, mk, t, [], again + saved)
    ensures Waitings(hp, mk, t, saved, again)
  {
    forall o ensures multiset(saved)[o] + multiset(again)[o] <= 1 {
      var none: seq<Id> := [];
      assert multiset(none)[o] + multiset(again + saved)[o] <= 1;
    }
    assert forall o :: o in saved || o in again ==> o in again + saved;
  }

  lemma NoneSeparated(s: set<Id>, fin: seq<Id>, k: nat, tob: seq<Id>)
    requires Separated(s, false, [], k, fin, [], tob)
    ensures fin == [] && tob == []
  {
  }

  /** Old1 objects have become old, and nothing else has changed. */
  ghost predicate RipenedOnly(m0: Marks, m1: Marks) {
    m1.Keys == m0.Keys
      && forall o :: o in m0 ==> m1[o] == m0[o] || (m0[o].age.Old1? && m1[o] == m0[o].(age := Old))
  }

  /** No old1 object of the list is white or has to be visited again. */
  predicate Old1sDone(hp: Heap, mk: Marks, l: seq<Id>) {
    forall o :: o in l ==> o in mk && o in hp && (mk[o].age.Old1? ==> !mk[o].color.White? && !NeedsVisit(hp[o]))
  }

  /** The old1 objects of `allgc` ripen, from the first one on. */
  method MarkOldUnseen(g: GlobalState, t: Id, ghost c: set<Id>) returns (ghost a: Marks)
    requires Unseen(g, t, c, []) && !g.mk[t].age.Old1? && NoneTwice(g.ls.allgc) && Old1sDone(g.hp, g.mk, g.ls.allgc)
    requires g.ptr.firstold1.To? ==> g.ptr.firstold1.id in g.ls.allgc
    modifies g`mk, g`gray, g`ptr
    ensures Unseen(g, t, c, []) && RipenedOnly(old(g.mk), a) && UnseenStep(g.hp, a, g.hp, g.mk, t)
      && a[t] == old(g.mk)[t]
    ensures g.ptr == old(g.ptr).(firstold1 := Null)
  {
    hide HeapReady, Remarked, Waitings, Plain, RipenedOnly, UnseenStep, Old1s, ListOf, Marked, Ripened, NoneTwice;
    ghost var m0, g0, h0 := g.mk, g.gray, g.hp;
    UnseenNone(g.hp, g.mk, t);
    RipenedNone(m0);
    ListShown(g.ls);
    a := g.mk;
    if g.ptr.firstold1 != Null {
      RemarkedNone(g.hp, g.mk, g.gray);
      NoUpvals(g.hp, t);
      var i := FindObject(g.ls.allgc, g.ptr.firstold1.id);
      ghost var k, ga := MarkOld(g, AllGc, i, g.ptr.reallyold, c, m0, g0, {}, g.gray);
      g.ptr := g.ptr.(firstold1 := Null);
      ghost var done := {} + Old1s(m0, g.ls.allgc[i..k]);
      NoVisits(h0, m0, g.ls.allgc, i, k);
      a := Ripened(h0, m0, done);
      RemarkedUnseen(h0, m0, g0, done, ga, g.mk, g.gray, t, g.grayagain + []);
    }
  }

  lemma RipenedNone(mk: Marks)
    ensures RipenedOnly(mk, mk)
  {
  }

  lemma NoVisits(hp: Heap, mk: Marks, l: seq<Id>, i: nat, k: nat)
    requires Old1sDone(hp, mk, l) && i <= k <= |l|
    ensures forall o :: o in {} + Old1s(mk, l[i..k]) ==> o in hp && !NeedsVisit(hp[o])
  {
  }

  lemma NoUpvals(hp: Heap, t: Id)
    requires Plain(hp, t)
    ensures forall o :: o in hp ==> !hp[o].OpenUpval?
  {
    forall o | o in hp ensures !hp[o].OpenUpval? { assert PlainObject(hp[o], o == t); }
  }

  lemma RemarkedUnseen(hp: Heap, m0: Marks, g0: seq<Id>, done: set<Id>, ga: seq<Id>, m1: Marks, g1: seq<Id>, t: Id,
          again: seq<Id>)
    requires Remarked(hp, m0, g0, done, ga, m1, g1) && t in hp && t in m0 && !m0[t].color.White? && !m0[t].age.Old1?
    requires Waitings(hp, m0, t, g0, again) && forall o :: o in done ==> o in hp && !NeedsVisit(hp[o])
    ensures RipenedOnly(m0, Ripened(hp, m0, done)) && Ripened(hp, m0, done)[t] == m0[t]
    ensures UnseenStep(hp, Ripened(hp, m0, done), hp, m1, t) && Waitings(hp, m1, t, g1, again)
    ensures t in m1 && !m1[t].color.White?
  {
    hide RefsIn, JustMarked, Marking, Once;
    var a := Ripened(hp, m0, done);
    assert BlackVisits(hp, m0, done) == {};
    assert multiset(ga) == multiset(g0);
    assert forall o :: o in ga <==> o in multiset(ga);
    assert forall o :: o in g0 <==> o in multiset(g0);
    forall o | o in m0 ensures a[o] == m0[o] || (m0[o].age.Old1? && a[o] == m0[o].(age := Old)) {}
    assert AllWaiting(hp, a, t, ga) && AllWaiting(hp, a, t, again) by {
      forall o | o in ga || o in again ensures Waiting(hp, a, t, o) { assert Waiting(hp, m0, t, o); }
    }
    OnceSame(g0, ga, again);
    UnseenMarking(hp, a, ga, m1, g1, t, again);
  }

  lemma OnceSame(g0: seq<Id>, g1: seq<Id>, again: seq<Id>)
    requires Once(g0, again) && multiset(g1) == multiset(g0)
    ensures Once(g1, again)
  {
    forall o ensures multiset(g1)[o] + multiset(again)[o] <= 1 {
      assert multiset(g0)[o] + multiset(again)[o] <= 1;
    }
  }

  /** One turn of sweepgen. */
  method SweepOneUnseen(g: GlobalState, n: nat) returns (n1: nat)
    requires g.hp.Keys == g.mk.Keys && n < |g.ls.allgc| && g.ls.allgc[n] in g.mk
    requires forall o :: o in g.hp ==> !g.hp[o].OpenUpval?
    modifies g`hp, g`mk, g`ls
    ensures var curr := old(g.ls.allgc)[n];
      if old(g.mk)[curr].color.White? then
        && n1 == n && g.hp == old(g.hp) - {curr} && g.mk == old(g.mk) - {curr}
        && g.ls == old(g.ls).(allgc := RemoveAt(old(g.ls.allgc), n))
      else
        && n1 == n + 1 && g.hp == old(g.hp) && g.ls == old(g.ls)
        && g.mk == old(g.mk)[curr := AgedMark(old(g.mk)[curr], g.currentwhite)]
  {
    var curr := g.ls.allgc[n];
    if g.mk[curr].color.White? {
      g.hp := FreeObject(g.hp, curr);
      g.mk := g.mk - {curr};
      g.ls := g.ls.(allgc := RemoveAt(g.ls.allgc, n));
      n1 := n;
    } else {
      g.mk := g.mk[curr := AgedMark(g.mk[curr], g.currentwhite)];
      n1 := n + 1;
    }
  }

  /** The objects of `part` were swept: the white ones are gone, the others one step older. */
  ghost predicate PartSwept(h0: Heap, m0: Marks, part: seq<Id>, h1: Heap, m1: Marks, white: bool) {
    && h1.Keys == m1.Keys
    && (forall o :: o in m1 <==> o in m0 && !(o in part && m0[o].color.White?))
    && (forall o :: o in m1 ==> m1[o] == if o in part then AgedMark(m0[o], white) else m0[o])
    && (forall o :: o in h1 ==> o in h0 && h1[o] == h0[o])
  }

  /** Position `n` of the list `l` was position `k` of `l0`, and what stood before was swept. */
  ghost predicate Passing(h0: Heap, m0: Marks, l0: seq<Id>, i: nat, k: nat, h: Heap, m: Marks, l: seq<Id>, n: nat,
          white: bool) {
    && i <= k <= |l0| && i <= n <= |l| && l[n..] == l0[k..] && NoneTwice(l)
    && PartSwept(h0, m0, l0[i..k], h, m, white) && (forall o :: o in l ==> o in m)
    && ((forall o :: o in l0[i..k] ==> o in m0 && !m0[o].color.White?) ==> l == l0)
  }

  lemma PassingStart(hp: Heap, mk: Marks, l: seq<Id>, i: nat, white: bool)
    requires hp.Keys == mk.Keys && i <= |l| && NoneTwice(l) && forall o :: o in l ==> o in mk
    ensures Passing(hp, mk, l, i, i, hp, mk, l, i, white)
  {
    assert l[i..i] == [];
  }

  lemma PassingFacts(h0: Heap, m0: Marks, l0: seq<Id>, i: nat, k: nat, h: Heap, m: Marks, l: seq<Id>, n: nat,
          white: bool)
    requires Passing(h0, m0, l0, i, k, h, m, l, n, white)
    ensures h.Keys == m.Keys && i <= n <= |l| && i <= k <= |l0| && |l| - n == |l0| - k && NoneTwice(l)
    ensures forall o :: o in h ==> o in h0 && h[o] == h0[o]
    ensures forall o :: o in l ==> o in m
    ensures n < |l| ==> k < |l0| && l[n] == l0[k] && l[n] in m
  {
    assert |l[n..]| == |l0[k..]|;
    if n < |l| { assert l[n..][0] == l0[k..][0]; }
  }

  lemma PassingNext(h0: Heap, m0: Marks, l0: seq<Id>, i: nat, k: nat, h: Heap, m: Marks, l: seq<Id>, n: nat,
          white: bool, h1: Heap, m1: Marks, l1: seq<Id>, n1: nat)
    requires Passing(h0, m0, l0, i, k, h, m, l, n, white) && NoneTwice(l0) && n < |l| && k < |l0| && l[n] == l0[k]
      && l[n] in m
    requires if m[l[n]].color.White? then n1 == n && h1 == h - {l[n]} && m1 == m - {l[n]} && l1 == RemoveAt(l, n)
      else n1 == n + 1 && h1 == h && l1 == l && m1 == m[l[n] := AgedMark(m[l[n]], white)]
    ensures Passing(h0, m0, l0, i, k + 1, h1, m1, l1, n1, white)
  {
    hide AgedMark, RemoveAt, NoneTwice;
    NextSwept(l, n, l0, i, k);
    NextRemoved(l, n);
    var x := l[n];
    assert x in l0[i..k + 1] && m[x] == m0[x];
    assert PartSwept(h0, m0, l0[i..k + 1], h1, m1, white);
  }

  lemma NextSwept(l: seq<Id>, n: nat, l0: seq<Id>, i: nat, k: nat)
    requires n < |l| && i <= k < |l0| && l[n..] == l0[k..] && NoneTwice(l0)
    ensures l[n + 1..] == l0[k + 1..] && l0[k] !in l0[i..k]
    ensures forall o :: o in l0[i..k + 1] <==> o in l0[i..k] || o == l0[k]
  {
    assert l[n..][1..] == l[n + 1..] && l0[k..][1..] == l0[k + 1..];
    assert l0[i..k + 1] == l0[i..k] + [l0[k]];
    assert forall j :: i <= j < k ==> l0[i..k][j - i] == l0[j];
  }

  lemma NextRemoved(l: seq<Id>, n: nat)
    requires n < |l| && NoneTwice(l)
    ensures |RemoveAt(l, n)| == |l| - 1 && RemoveAt(l, n)[n..] == l[n + 1..] && NoneTwice(RemoveAt(l, n))
    ensures forall o :: o in RemoveAt(l, n) <==> o in l && o != l[n]
  {
    hide NoneTwice;
    RemovedMembers(l, n);
    RemovedOnce(l, n);
    assert RemoveAt(l, n)[n..] == l[n + 1..];
  }

  lemma RemovedOnce(l: seq<Id>, n: nat)
    requires n < |l| && NoneTwice(l)
    ensures NoneTwice(RemoveAt(l, n)) && l[n] !in RemoveAt(l, n)
  {
    var r := RemoveAt(l, n);
    assert forall j :: 0 <= j < |r| ==> r[j] == if j < n then l[j] else l[j + 1];
  }

  lemma RemovedMembers(l: seq<Id>, n: nat)
    requires n < |l|
    ensures forall o :: o in l && o != l[n] ==> o in RemoveAt(l, n)
    ensures forall o :: o in RemoveAt(l, n) ==> o in l
  {
    assert l == l[..n] + [l[n]] + l[n + 1..];
  }

  /** sweepgen on `allgc`, from position `i` up to the pointer `limit`, whatever else refers to
      the dead objects. */
  method SweepUnseen(g: GlobalState, i: nat, limit: Pointer, first: Pointer)
    returns (n: nat, now: Pointer, ghost k: nat)
    requires g.hp.Keys == g.mk.Keys && i <= |g.ls.allgc| && NoneTwice(g.ls.allgc)
    requires forall o :: o in g.ls.allgc ==> o in g.mk
    requires forall o :: o in g.hp ==> !g.hp[o].OpenUpval?
    requires first.To? ==> first.id in g.ls.allgc[..i]
    modifies g`hp, g`mk, g`ls
    ensures Passing(old(g.hp), old(g.mk), old(g.ls.allgc), i, k, g.hp, g.mk, g.ls.allgc, n, g.currentwhite)
    ensures k == |old(g.ls.allgc)| || limit == To(old(g.ls.allgc)[k])
    ensures forall j :: i <= j < k ==> limit != To(old(g.ls.allgc)[j])
    ensures g.ls == old(g.ls).(allgc := g.ls.allgc) && (now.To? ==> now.id in g.ls.allgc[..n])
  {
    hide RemoveAt, NoneTwice, AgedMark, Passing;
    n, now, k := i, first, i;
    ghost var h0, m0, l0 := g.hp, g.mk, g.ls.allgc;
    PassingStart(h0, m0, l0, i, g.currentwhite);
    PassingFacts(h0, m0, l0, i, k, g.hp, g.mk, g.ls.allgc, n, g.currentwhite);
    while n < |g.ls.allgc| && limit != To(g.ls.allgc[n])
      invariant Passing(h0, m0, l0, i, k, g.hp, g.mk, g.ls.allgc, n, g.currentwhite)
      invariant g.ls == old(g.ls).(allgc := g.ls.allgc) && i <= k <= |l0| && n <= |g.ls.allgc|
      invariant forall j :: i <= j < k ==> limit != To(l0[j])
      invariant now.To? ==> now.id in g.ls.allgc[..n]
      decreases |l0| - k
    {
      PassingFacts(h0, m0, l0, i, k, g.hp, g.mk, g.ls.allgc, n, g.currentwhite);
      ghost var h, m, l := g.hp, g.mk, g.ls.allgc;
      var curr := g.ls.allgc[n];
      var n1 := SweepOneUnseen(g, n);
      PassingNext(h0, m0, l0, i, k, h, m, l, n, g.currentwhite, g.hp, g.mk, g.ls.allgc, n1);
      FrontKept(l, n, g.ls.allgc, n1);
      if n1 == n + 1 && now == Null && g.mk[curr].age.Old1? {
        now := To(curr);
      }
      n, k := n1, k + 1;
    }
    PassingFacts(h0, m0, l0, i, k, g.hp, g.mk, g.ls.allgc, n, g.currentwhite);
  }

  lemma FrontKept(l: seq<Id>, n: nat, l1: seq<Id>, n1: nat)
    requires n < |l| && ((n1 == n + 1 && l1 == l) || (n1 == n && l1 == RemoveAt(l, n)))
    ensures n1 <= |l1| && forall o :: o in l[..n] || (n1 == n + 1 && o == l[n]) ==> o in l1[..n1]
  {
    if n1 == n + 1 {
      assert l[..n + 1] == l[..n] + [l[n]];
    } else {
      assert l1[..n] == l[..n];
    }
  }

  /** What marking does: marks grow, and ages settle. */
  ghost predicate MarkedOn(m0: Marks, m1: Marks) {
    && m1.Keys == m0.Keys
    && forall o :: o in m0 ==>
         && (!m0[o].color.White? ==> !m1[o].color.White?)
         && (m1[o].age == m0[o].age || (m1[o].age.Old? && (m0[o].age.Touched2? || m0[o].age.Old1?)))
  }

  lemma MarkedFrom(m0: Marks, a: Marks, h0: Heap, h1: Heap, m1: Marks, t: Id)
    requires RipenedOnly(m0, a) && UnseenStep(h0, a, h1, m1, t) && t in m0 && a[t] == m0[t]
    ensures MarkedOn(m0, m1) && t in m1 && m1[t] == m0[t] && HeapShrunk(h0, h1) && t in h0 && t in h1 && h1[t] == h0[t]
  {
  }

  /** What sweeping makes of the mark of an object that stays, listed or not. */
  predicate MarkEnd(ob: Object, m1: Mark, swept: bool, listed: bool, white: bool, m2: Mark) {
    var m := if swept then AgedMark(m1, white) else m1;
    m2 == m || (listed && m2 == CorrectMark(ob, m))
  }

  /** The white objects of `part` are gone, the others have their next age, and those of the
      list `again` are settled. */
  ghost predicate Ended(h1: Heap, m1: Marks, part: seq<Id>, again: seq<Id>, h2: Heap, m2: Marks, white: bool) {
    && h2.Keys == m2.Keys
    && (forall o :: o in m2 <==> o in m1 && !(o in part && m1[o].color.White?))
    && (forall o :: o in h2 ==> o in h1 && h2[o] == h1[o] && MarkEnd(h2[o], m1[o], o in part, o in again, white, m2[o]))
  }

  lemma EndedIs(h1: Heap, m1: Marks, part: seq<Id>, again: seq<Id>, h2: Heap, mw: Marks, m2: Marks, white: bool)
    requires PartSwept(h1, m1, part, h2, mw, white) && Corrected(h2, mw, m2, Elements(again))
    ensures Ended(h1, m1, part, again, h2, m2, white)
  {
    hide AgedMark, CorrectMark;
    forall o | o in h2 ensures MarkEnd(h2[o], m1[o], o in part, o in again, white, m2[o]) {
      assert mw[o] == if o in part then AgedMark(m1[o], white) else m1[o];
    }
  }

  /** Two parts of the list swept one after the other. */
  lemma PartsBoth(h1: Heap, m1: Marks, l0: seq<Id>, a: nat, hx: Heap, mx: Marks, lx: seq<Id>, n: nat, k1: nat, h2: Heap,
          m2: Marks, l2: seq<Id>, n2: nat, b: nat, white: bool)
    requires Passing(h1, m1, l0, 0, a, hx, mx, lx, n, white) && Passing(hx, mx, lx, n, k1, h2, m2, l2, n2, white)
    requires a <= b <= |l0| && k1 - n == b - a && NoneTwice(l0)
    ensures PartSwept(h1, m1, l0[..b], h2, m2, white)
    ensures (forall o :: o in l0[..b] ==> o in m1 && !m1[o].color.White?) ==> l2 == l0 && n == a
  {
    hide PartSwept, NoneTwice;
    PassingFacts(h1, m1, l0, 0, a, hx, mx, lx, n, white);
    assert lx[n..k1] == lx[n..][..b - a] == l0[a..][..b - a] == l0[a..b];
    assert l0[..b] == l0[0..a] + l0[a..b];
    Apart(l0, a, b);
    PartsCompose(h1, m1, l0[0..a], hx, mx, l0[a..b], h2, m2, white);
    if forall o :: o in l0[..b] ==> o in m1 && !m1[o].color.White? {
      NoneWhite(h1, m1, l0[0..a], hx, mx, l0[a..b], white);
      assert lx == l0;
    }
  }

  lemma PartsCompose(h1: Heap, m1: Marks, p: seq<Id>, hx: Heap, mx: Marks, q: seq<Id>, h2: Heap, m2: Marks, white: bool)
    requires PartSwept(h1, m1, p, hx, mx, white) && PartSwept(hx, mx, q, h2, m2, white)
      && forall o :: o in p ==> o !in q
    ensures PartSwept(h1, m1, p + q, h2, m2, white)
  {
    hide AgedMark;
    forall o | o in m1 ensures o in m2 <==> !((o in p || o in q) && m1[o].color.White?) {
      if o in mx { assert mx[o] == if o in p then AgedMark(m1[o], white) else m1[o]; }
    }
  }

  lemma NoneWhite(h1: Heap, m1: Marks, p: seq<Id>, hx: Heap, mx: Marks, q: seq<Id>, white: bool)
    requires PartSwept(h1, m1, p, hx, mx, white) && forall o :: o in p ==> o !in q
    requires forall o :: o in p + q ==> o in m1 && !m1[o].color.White?
    ensures forall o :: o in q ==> o in mx && !mx[o].color.White?
  {
  }

  lemma Apart(l: seq<Id>, a: nat, b: nat)
    requires a <= b <= |l| && NoneTwice(l)
    ensures forall o :: o in l[0..a] ==> o !in l[a..b]
  {
  }

  /** Both parts of `allgc` are swept, and the pointers advance. */
  method PartsUnseen(g: GlobalState, ghost a: nat, ghost b: nat)
    requires g.hp.Keys == g.mk.Keys && NoneTwice(g.ls.allgc) && (forall o :: o in g.ls.allgc ==> o in g.mk)
    requires forall o :: o in g.hp ==> !g.hp[o].OpenUpval?
    requires a <= b && PointsAt(g.ptr.survival, g.ls.allgc, a) && PointsAt(g.ptr.old1, g.ls.allgc, b)
      && g.ptr.firstold1.Null?
    modifies g`hp, g`mk, g`ls, g`ptr
    ensures PartSwept(old(g.hp), old(g.mk), old(g.ls.allgc)[..b], g.hp, g.mk, g.currentwhite)
    ensures (forall o :: o in old(g.ls.allgc)[..b] ==> o in old(g.mk) && !old(g.mk)[o].color.White?) ==>
      g.ls == old(g.ls) && g.ptr.old1 == old(g.ptr).survival
    ensures g.ls == old(g.ls).(allgc := g.ls.allgc) && PointsAt(g.ptr.survival, g.ls.allgc, 0)
      && g.ptr.reallyold == old(g.ptr).old1 && (g.ptr.firstold1.To? ==> g.ptr.firstold1.id in g.ls.allgc)
  {
    hide Passing, PartSwept, NoneTwice, PointsAt, HeadOf;
    ghost var h1, m1, l0 := g.hp, g.mk, g.ls.allgc;
    ghost var k: nat, k1: nat;
    var n, first;
    n, first, k := SweepUnseen(g, 0, g.ptr.survival, Null);
    ghost var hx, mx, lx := g.hp, g.mk, g.ls.allgc;
    PassingFacts(h1, m1, l0, 0, k, hx, mx, lx, n, g.currentwhite);
    StopsAt(g.ptr.survival, l0, a, 0, k);
    NextPoint(g.ptr.old1, h1, m1, l0, a, b, hx, mx, lx, n, g.currentwhite);
    var n2;
    n2, first, k1 := SweepUnseen(g, n, g.ptr.old1, first);
    PassingFacts(hx, mx, lx, n, k1, g.hp, g.mk, g.ls.allgc, n2, g.currentwhite);
    StopsAt(g.ptr.old1, lx, n + (b - a), n, k1);
    PartsBoth(h1, m1, l0, a, hx, mx, lx, n, k1, g.hp, g.mk, g.ls.allgc, n2, b, g.currentwhite);
    var mid := if n < |g.ls.allgc| then To(g.ls.allgc[n]) else Null;
    g.ptr := g.ptr.(reallyold := g.ptr.old1, old1 := mid, survival := HeadOf(g.ls.allgc), firstold1 := first);
    HeadPoints(g.ls.allgc);
    PointIs(old(g.ptr).survival, l0, a);
  }

  lemma HeadPoints(l: seq<Id>)
    ensures PointsAt(HeadOf(l), l, 0)
  {
  }

  lemma PointIs(p: Pointer, l: seq<Id>, i: nat)
    requires PointsAt(p, l, i)
    ensures i <= |l| && p == if i < |l| then To(l[i]) else Null
  {
  }

  lemma NextPoint(p: Pointer, h1: Heap, m1: Marks, l0: seq<Id>, a: nat, b: nat, hx: Heap, mx: Marks, lx: seq<Id>,
          n: nat, white: bool)
    requires Passing(h1, m1, l0, 0, a, hx, mx, lx, n, white) && a <= b && PointsAt(p, l0, b)
    ensures PointsAt(p, lx, n + (b - a))
  {
    hide PartSwept;
    assert |lx[n..]| == |l0[a..]|;
    if b < |l0| { assert lx[n..][b - a] == l0[a..][b - a]; }
  }

  /** What a young collection needs in order to pass `t` by: `t` is old, and the parts of `allgc`
      that are swept, up to positions `a` and `b`, end before it. */
  ghost predicate YoungReady(g: GlobalState, t: Id, c: set<Id>, a: nat, b: nat)
    reads g
  {
    && Unseen(g, t, c, []) && g.gcstate.Propagate? && g.RootsIn(c) && g.ls.finobj == [] && g.ls.tobefnz == []
    && !g.mk[t].age.Old1? && NoneTwice(g.ls.allgc) && Old1sDone(g.hp, g.mk, g.ls.allgc)
    && (g.ptr.firstold1.To? ==> g.ptr.firstold1.id in g.ls.allgc)
    && a <= b && PointsAt(g.ptr.survival, g.ls.allgc, a) && PointsAt(g.ptr.old1, g.ls.allgc, b)
  }

  lemma ListMarks(m0: Marks, m1: Marks, h0: Heap, l: seq<Id>)
    requires Old1sDone(h0, m0, l) && MarkedOn(m0, m1)
    ensures forall o :: o in l ==> o in m1
  {
  }

  /** What waits was marked, so the sweep leaves it. */
  lemma AgainSwept(h1: Heap, m1: Marks, part: seq<Id>, hw: Heap, mw: Marks, white: bool, t: Id, again: seq<Id>)
    requires PartSwept(h1, m1, part, hw, mw, white) && Waitings(h1, m1, t, [], again + [])
    ensures hw.Keys == mw.Keys && NoneTwice(again) && t !in again && forall o :: o in again ==> o in mw
  {
    hide AgedMark;
    assert again + [] == again;
    var none: seq<Id> := [];
    forall o ensures multiset(again)[o] <= 1 {
      assert multiset(none)[o] + multiset(again)[o] <= 1;
    }
    NoneTwiceCount(again);
    forall o | o in again ensures o in mw && o != t { assert Waiting(h1, m1, t, o); }
  }

  /** What is left of the list waits for the next collection. */
  lemma KeptWaits(hw: Heap, h1: Heap, m1: Marks, part: seq<Id>, mw: Marks, m2: Marks, t: Id, again: seq<Id>,
          white: bool)
    requires PartSwept(h1, m1, part, hw, mw, white) && Waitings(h1, m1, t, [], again + [])
    requires NoneTwice(again) && Corrected(hw, mw, m2, Elements(again))
    ensures AllWaiting(hw, m2, t, Kept(hw, mw, again)) && NoneTwice(Kept(hw, mw, again))
  {
    hide AgedMark, Kept;
    KeptIn(hw, mw, again);
    assert again + [] == again;
    forall o | o in Kept(hw, mw, again) ensures Waiting(hw, m2, t, o) {
      assert Waiting(h1, m1, t, o);
    }
  }

  /** The marking half. */
  method MarkUnseen(g: GlobalState, t: Id, ghost c: set<Id>, ghost a: nat, ghost b: nat)
    requires YoungReady(g, t, c, a, b)
    modifies g`hp, g`mk, g`gray, g`grayagain, g`weak, g`allweak, g`ephemeron, g`twups
    modifies g`gcstate, g`currentwhite, g`ls, g`ptr
    ensures Unseen(g, t, c, []) && MarkedOn(old(g.mk), g.mk) && HeapShrunk(old(g.hp), g.hp) && g.gray == []
    ensures t in g.hp && t in old(g.hp) && g.hp[t] == old(g.hp)[t] && g.mk[t] == old(g.mk)[t]
    ensures g.currentwhite == !old(g.currentwhite) && g.ls == old(g.ls)
      && g.ptr == old(g.ptr).(finobjsur := g.ptr.finobjsur, firstold1 := Null)
  {
    hide HeapReady, HeapShrunk, MarksProgress, Plain, Waitings, UnseenStep, Marked, RipenedOnly, MarkedOn;
    ghost var h0, m0 := g.hp, g.mk;
    ghost var ripe := MarkOldUnseen(g, t, c);
    ghost var m2 := g.mk;
    AtomicUnseen(g, t, c);
    UnseenTrans(h0, ripe, h0, m2, g.hp, g.mk, t);
    MarkedFrom(m0, ripe, h0, g.hp, g.mk, t);
  }

  /** The other half: sweeping, and correcting the list of gray objects. */
  method FinishUnseen(g: GlobalState, t: Id, ghost c: set<Id>, ghost a: nat, ghost b: nat)
    requires Unseen(g, t, c, []) && g.gray == [] && NoneTwice(g.ls.allgc) && (forall o :: o in g.ls.allgc ==> o in g.mk)
    requires a <= b && PointsAt(g.ptr.survival, g.ls.allgc, a) && PointsAt(g.ptr.old1, g.ls.allgc, b)
      && g.ptr.firstold1.Null?
    modifies g`hp, g`mk, g`grayagain, g`weak, g`allweak, g`ephemeron, g`gcstate, g`ls, g`ptr
    ensures Ended(old(g.hp), old(g.mk), old(g.ls.allgc)[..b], old(g.grayagain), g.hp, g.mk, g.currentwhite)
    ensures t !in old(g.grayagain)
    ensures g.gcstate.Propagate? && g.weak == g.allweak == g.ephemeron == []
    ensures AllWaiting(g.hp, g.mk, t, g.grayagain) && NoneTwice(g.grayagain)
    ensures (forall o :: o in old(g.ls.allgc)[..b] ==> o in old(g.mk) && !old(g.mk)[o].color.White?) ==>
      g.ls == old(g.ls) && g.ptr.old1 == old(g.ptr).survival
    ensures g.ls == old(g.ls).(allgc := g.ls.allgc) && PointsAt(g.ptr.survival, g.ls.allgc, 0)
      && g.ptr.reallyold == old(g.ptr).old1 && (g.ptr.firstold1.To? ==> g.ptr.firstold1.id in g.ls.allgc)
  {
    hide HeapReady, Plain, Waitings, Marked, PartSwept, Corrected, Kept, NoneTwice, Ended;
    ghost var h1, m1, l0, again := g.hp, g.mk, g.ls.allgc, g.grayagain;
    NoUpvals(g.hp, t);
    g.gcstate := SwpAllGc;
    PartsUnseen(g, a, b);
    ghost var mw := g.mk;
    AgainSwept(h1, m1, l0[..b], g.hp, mw, g.currentwhite, t, again);
    assert g.grayagain + g.weak + g.allweak + g.ephemeron == again;
    CorrectGrayLists(g);
    EndedIs(h1, m1, l0[..b], again, g.hp, mw, g.mk, g.currentwhite);
    KeptWaits(g.hp, h1, m1, l0[..b], mw, g.mk, t, again, g.currentwhite);
    g.gcstate := Propagate;
  }

  /** youngcollection, staying in minor mode, in a state that need not have the generational
      invariant. `h1` and `m1` are the heap and the marks at the end of the atomic phase. */
  method YoungUnseen(g: GlobalState, t: Id, ghost c: set<Id>, ghost a: nat, ghost b: nat)
    returns (ghost h1: Heap, ghost m1: Marks, ghost again: seq<Id>)
    requires YoungReady(g, t, c, a, b)
    modifies g`hp, g`mk, g`gray, g`grayagain, g`weak, g`allweak, g`ephemeron, g`twups
    modifies g`gcstate, g`currentwhite, g`ls, g`ptr
    ensures HeapShrunk(old(g.hp), h1) && MarkedOn(old(g.mk), m1) && Marked(m1) <= c
    ensures t in h1 && h1[t] == old(g.hp)[t] && t in m1 && m1[t] == old(g.mk)[t] && t !in again
    ensures Ended(h1, m1, old(g.ls.allgc)[..b], again, g.hp, g.mk, g.currentwhite)
    ensures g.currentwhite == !old(g.currentwhite) && g.gcstate.Propagate?
    ensures g.gray == g.weak == g.allweak == g.ephemeron == g.twups == [] && AllWaiting(g.hp, g.mk, t, g.grayagain)
      && NoneTwice(g.grayagain)
    ensures (forall o :: o in old(g.ls.allgc)[..b] ==> o in m1 && !m1[o].color.White?) ==>
      g.ls == old(g.ls) && g.ptr.old1 == old(g.ptr).survival
    ensures g.ls == old(g.ls).(allgc := g.ls.allgc) && PointsAt(g.ptr.survival, g.ls.allgc, 0)
      && g.ptr.reallyold == old(g.ptr).old1 && (g.ptr.firstold1.To? ==> g.ptr.firstold1.id in g.ls.allgc)
  {
    hide HeapReady, HeapShrunk, Plain, Waitings, Marked, NoneTwice, MarkedOn, Ended, Old1sDone, AllWaiting;
    ghost var m0 := g.mk;
    MarkUnseen(g, t, c, a, b);
    h1, m1, again := g.hp, g.mk, g.grayagain;
    ListMarks(m0, m1, old(g.hp), g.ls.allgc);
    FinishUnseen(g, t, c, a, b);
  }
}
