/** Entering the generational mode and leaving it. */
module LuaModes {
  import opened LuaHeap
  import opened LuaMarks
  import opened LuaLists
  import opened LuaTricolor
  import opened LuaGc
  import opened LuaState
  import opened LuaGen
  import opened LuaSweep
  import opened LuaMutator
  import opened LuaObjects
  import opened LuaStep
  import opened LuaYoung

  /** An object as sweep2old leaves it: old, threads and open upvalues gray, the rest black. */
  predicate OldAt(hp: Heap, mk: Marks, o: Id) {
    o in hp && o in mk && mk[o].age.Old? && mk[o].color == if hp[o].Thread? || hp[o].OpenUpval? then Gray else Black
  }

  /** The objects of `done` are old, and `again` is the list of the threads among them. */
  ghost predicate MadeOldSet(hp: Heap, mk: Marks, done: set<Id>, again: seq<Id>) {
    && (forall o :: o in done ==> OldAt(hp, mk, o))
    && NoneTwice(again) && (forall o :: o in again <==> o in done && o in hp && hp[o].Thread?)
  }

  /** Freeing dead objects leaves old ones old; an upvalue it closes turns from gray to black. */
  lemma OldKept(s: State, t: State, done: set<Id>, again: seq<Id>)
    requires MadeOldSet(s.hp, s.mk, done, again) && done <= Live(s) && UpvalsOk(s.hp) && t.hp.Keys == t.mk.Keys
    requires GenSwept(s.hp, s.mk, t.hp, t.mk, Live(s), {}, s.white) && KeptLive(s.hp, t.hp, Live(s))
    ensures MadeOldSet(t.hp, t.mk, done, again)
  {
    hide Live, UpvalsOk, NoneTwice;
    forall o | o in done ensures OldAt(t.hp, t.mk, o) && (t.hp[o].Thread? <==> s.hp[o].Thread?) {
      assert OldAt(s.hp, s.mk, o);
      assert GenSweptAt(s.hp, s.mk, t.hp, t.mk, Live(s), {}, s.white, o);
    }
  }

  /** A live object becomes old. */
  method MakeOld(g: GlobalState, o: Id, ghost done: set<Id>, again: seq<Id>) returns (again1: seq<Id>)
    requires Base(Snap(g)) && o in g.mk && !g.mk[o].color.White? && o !in g.ls.fixedgc && o !in done
    requires MadeOldSet(g.hp, g.mk, done, again)
    modifies g`mk
    ensures SweepWork(old(Snap(g)), Snap(g)) && Base(Snap(g)) && g.mk == old(g.mk)[o := g.mk[o]]
      && !g.mk[o].color.White?
    ensures MadeOldSet(g.hp, g.mk, done + {o}, again1)
  {
    hide Base, SweepWork, Partition, MadeOldSet, Live;
    ghost var s := Snap(g);
    BaseFacts(s);
    if g.hp[o].Thread? {
      again1 := [o] + again;
      g.mk := g.mk[o := g.mk[o].(color := Gray, age := Old)];
    } else {
      again1 := again;
      g.mk := g.mk[o := g.mk[o].(color := if g.hp[o].OpenUpval? then Gray else Black, age := Old)];
    }
    MadeOldMore(g.hp, s.mk, g.mk, done, again, o, again1);
    SnapMarks(g, s);
    MadeOldWork(s, Snap(g), o);
  }

  lemma MadeOldWork(s: State, t: State, o: Id)
    requires Base(s) && o in s.mk && !s.mk[o].color.White? && o !in s.ls.fixedgc && o in t.mk
    requires t == s.(mk := s.mk[o := t.mk[o]]) && !t.mk[o].color.White? && t.mk[o].fin == s.mk[o].fin
      && t.mk[o].age.Old?
    ensures SweepWork(s, t) && Base(t)
  {
    hide Base, KeptLive, Live;
    LiveSubset(s);
    BaseRecolor(s, t.mk);
    KeptLiveNone(s.hp, Live(s));
  }

  lemma MadeOldMore(hp: Heap, m0: Marks, m1: Marks, done: set<Id>, again: seq<Id>, o: Id, again1: seq<Id>)
    requires MadeOldSet(hp, m0, done, again) && o !in done && OldAt(hp, m1, o) && m1.Keys == m0.Keys
      && forall x :: x in m0 && x != o ==> m1[x] == m0[x]
    requires again1 == if hp[o].Thread? then [o] + again else again
    ensures MadeOldSet(hp, m1, done + {o}, again1)
  {
    if hp[o].Thread? {
      assert forall i :: 0 < i < |again1| ==> again1[i] == again[i - 1] && again[i - 1] in again;
    }
  }

  /** sweep2old on the list `w`: dead objects are freed, the others become old. */
  method Sweep2Old(g: GlobalState, w: Which, ghost done: set<Id>, again: seq<Id>)
    returns (ghost done1: set<Id>, again1: seq<Id>)
    requires Base(Snap(g)) && !KeepInvariant(g.gcstate) && QuietSweep(Snap(g), Incremental)
    requires MadeOldSet(g.hp, g.mk, done, again) && done <= Live(Snap(g))
      && forall o :: o in ListOf(g.ls, w) ==> o !in done
    modifies g`hp, g`mk, g`gray, g`ls
    ensures SweepWork(old(Snap(g)), Snap(g)) && g.gray == old(g.gray) && Base(Snap(g))
      && Live(Snap(g)) == Live(old(Snap(g)))
    ensures QuietSweep(Snap(g), Incremental) && forall v :: v != w ==> ListOf(g.ls, v) == ListOf(old(g.ls), v)
    ensures MadeOldSet(g.hp, g.mk, done1, again1) && done1 == done + Elements(ListOf(g.ls, w)) && done1 <= Live(Snap(g))
    ensures Elements(ListOf(g.ls, w)) <= Elements(ListOf(old(g.ls), w))
  {
    hide Base, Live, KeptLive, MarksSwept, Partition, UpvalsOk, SweepWork, GenSwept, QuietSweep, MadeOldSet, RemoveAt,
      WithList, ListOf, Elements;
    ghost var s0 := Snap(g);
    var n := 0;
    again1, done1 := again, done;
    SweepWorkNone(s0);
    DoneNone(ListOf(g.ls, w), done);
    while n < |ListOf(g.ls, w)|
      invariant 0 <= n <= |ListOf(g.ls, w)| && SweepWork(s0, Snap(g)) && g.gray == s0.gray && Base(Snap(g))
        && Live(Snap(g)) == Live(s0)
      invariant QuietSweep(Snap(g), Incremental) && forall v :: v != w ==> ListOf(g.ls, v) == ListOf(s0.ls, v)
      invariant MadeOldSet(g.hp, g.mk, done1, again1) && done1 == done + Elements(ListOf(g.ls, w)[..n])
        && done1 <= Live(s0)
      invariant forall o :: o in ListOf(g.ls, w) ==> o !in done
      invariant Elements(ListOf(g.ls, w)) <= Elements(ListOf(s0.ls, w))
      decreases |ListOf(g.ls, w)| - n
    {
      ghost var s, l := Snap(g), ListOf(g.ls, w);
      var curr := ListOf(g.ls, w)[n];
      BaseFacts(s0);
      BaseFacts(s);
      ListFacts(s, w, n);
      ListNoneTwice(s, w);
      if g.mk[curr].color.White? {
        QuietDead(s, curr);
        QuietAny(s, g.gckind);
        SweepDead(g, w, n);
        SweepWorkBase(s, Snap(g));
        BaseFacts(Snap(g));
        WorkFacts(s, Snap(g));
        OldKept(s, Snap(g), done1, again1);
        QuietFreed(s, Snap(g));
        SweepWorkTrans(s0, s, Snap(g));
        ListWith(s.ls, w, RemoveAt(l, n));
        RemovedFront(l, n);
        OtherLists(s.ls, w, RemoveAt(l, n));
      } else {
        DoneNext(l, n, done);
        again1 := MakeOld(g, curr, done1, again1);
        QuietMade(s, Snap(g), curr);
        LiveMeans(s, curr);
        SweepWorkBase(s, Snap(g));
        SweepWorkTrans(s0, s, Snap(g));
        done1 := done1 + {curr};
        n := n + 1;
      }
    }
    assert ListOf(g.ls, w)[..n] == ListOf(g.ls, w);
  }

  lemma DoneNone(l: seq<Id>, done: set<Id>)
    ensures done == done + Elements(l[..0]) && Elements(l) <= Elements(l)
  {
  }

  lemma DoneNext(l: seq<Id>, n: nat, done: set<Id>)
    requires n < |l| && NoneTwice(l) && forall o :: o in l ==> o !in done
    ensures done + Elements(l[..n + 1]) == done + Elements(l[..n]) + {l[n]} && l[n] !in done + Elements(l[..n])
  {
    assert l[..n + 1] == l[..n] + [l[n]];
    assert forall i :: 0 <= i < n ==> l[..n][i] == l[i];
  }

  lemma RemovedFront(l: seq<Id>, n: nat)
    requires n < |l|
    ensures RemoveAt(l, n)[..n] == l[..n] && |RemoveAt(l, n)| == |l| - 1 && Elements(RemoveAt(l, n)) <= Elements(l)
    ensures forall o :: o in RemoveAt(l, n) ==> o in l
  {
  }

  lemma OtherLists(ls: Objects, w: Which, l: seq<Id>)
    ensures forall v :: v != w ==> ListOf(WithList(ls, w, l), v) == ListOf(ls, v)
  {
  }

  lemma QuietDead(s: State, o: Id)
    requires QuietSweep(s, Incremental) && o in s.mk && s.mk[o].color.White?
    ensures o !in Live(s)
  {
  }

  lemma QuietFreed(s: State, t: State)
    requires QuietSweep(s, Incremental) && GenSwept(s.hp, s.mk, t.hp, t.mk, Live(s), {}, s.white) && t.white == s.white
    ensures QuietSweep(t, Incremental)
  {
    QuietStill(s, t, Incremental);
  }

  lemma QuietMade(s: State, t: State, o: Id)
    requires QuietSweep(s, Incremental) && o in s.mk && o in t.mk && t.mk == s.mk[o := t.mk[o]]
      && !t.mk[o].color.White? && t.white == s.white
    ensures QuietSweep(t, Incremental)
  {
  }

  lemma QuietAny(s: State, kind: GcKind)
    requires QuietSweep(s, Incremental)
    ensures QuietSweep(s, kind)
  {
  }

  /** The three sweeps of atomic2gen, and its pointers. */
  method SweepAll2Old(g: GlobalState) returns (again: seq<Id>, ghost done: set<Id>)
    requires Base(Snap(g)) && g.gcstate.SwpAllGc? && QuietSweep(Snap(g), Incremental)
    modifies g`hp, g`mk, g`gray, g`ls, g`ptr
    ensures Base(Snap(g)) && MadeOldSet(g.hp, g.mk, done, again) && g.gray == old(g.gray)
    ensures Live(Snap(g)) == Live(old(Snap(g))) && KeptLive(old(g.hp), g.hp, Live(old(Snap(g))))
      && Roots(Snap(g)) <= Roots(old(Snap(g)))
    ensures forall o :: o in g.mk ==> o in done || o in g.ls.fixedgc
    ensures g.mk.Keys == g.hp.Keys <= Live(old(Snap(g)))
    ensures g.ptr == Pointers(HeadOf(g.ls.allgc), HeadOf(g.ls.allgc), HeadOf(g.ls.allgc), Null, HeadOf(g.ls.finobj),
      HeadOf(g.ls.finobj), HeadOf(g.ls.finobj))
  {
    hide Base, Live, KeptLive, SweepWork, QuietSweep, MadeOldSet, Roots, OldAt, ListOf, HeadOf;
    ghost var a := Snap(g);
    ListShown(a.ls);
    NothingOld(g.hp, g.mk);
    again, done := [], {};
    done, again := Sweep2Old(g, AllGc, done, again);
    ghost var s2 := Snap(g);
    ListShown(s2.ls);
    BaseApart(s2);
    NotIn(done, s2.ls.allgc, s2.ls.finobj);
    g.ptr := g.ptr.(survival := HeadOf(g.ls.allgc), old1 := HeadOf(g.ls.allgc), reallyold :=
      HeadOf(g.ls.allgc), firstold1 := Null);
    done, again := Sweep2Old(g, FinObj, done, again);
    ghost var s3 := Snap(g);
    ListShown(s3.ls);
    BaseApart(s3);
    NotIn2(done, s3.ls.allgc, s3.ls.finobj, s3.ls.tobefnz);
    g.ptr := g.ptr.(finobjsur := HeadOf(g.ls.finobj), finobjold1 := HeadOf(g.ls.finobj), finobjrold :=
      HeadOf(g.ls.finobj));
    done, again := Sweep2Old(g, ToBeFnz, done, again);
    ListShown(g.ls);
    SweptAll(a, s2, s3, Snap(g), done);
  }

  lemma NothingOld(hp: Heap, mk: Marks)
    ensures MadeOldSet(hp, mk, {}, [])
  {
  }

  /** The end of atomic2gen: of the lists only the threads are left, to be visited again. */
  method BecomeGen(g: GlobalState, ghost done: set<Id>, again: seq<Id>)
    requires Base(Snap(g)) && MadeOldSet(g.hp, g.mk, done, again) && g.gray == [] && g.sweepgc.NoSweep?
    requires forall o :: o in g.mk ==> o in done || o in g.ls.fixedgc
    requires g.mk.Keys == g.hp.Keys <= Live(Snap(g)) && g.weak == g.allweak == g.ephemeron == []
    requires g.ptr == Pointers(HeadOf(g.ls.allgc), HeadOf(g.ls.allgc), HeadOf(g.ls.allgc), Null, HeadOf(g.ls.finobj),
      HeadOf(g.ls.finobj), HeadOf(g.ls.finobj))
    modifies g`mk, g`grayagain, g`weak, g`allweak, g`ephemeron, g`gcstate, g`gckind
    ensures g.gckind.GenMinor? && GenInv(Snap(g), g.ptr) && forall o :: o in g.mk ==> g.mk[o].age.Old?
    ensures Snap(g) == old(Snap(g)).(links := Snap(g).links, at := Snap(g).at)
  {
    hide Base, Live, MadeOldSet, GenInv, Marked, Kept, Corrected, HeadOf;
    ghost var w := Snap(g);
    g.grayagain := again;
    g.gckind := GenMinor;
    WatchedOnly(w, done, again);
    CorrectGrayLists(g);
    WatchedStay(w, done, again, g.mk, g.grayagain);
    g.gcstate := Propagate;
    AllOldInv(w, Snap(g), g.ptr, done, g.grayagain);
  }

  /** atomic2gen, after the atomic phase: everything that is left is old, threads are watched
      in `grayagain`, and the pointers are at the heads of their lists. */
  method Atomic2Gen(g: GlobalState)
    requires Base(Snap(g)) && Live(Snap(g)) == Marked(g.mk) && g.gcstate.Atomic? && g.gray == [] && g.sweepgc.NoSweep?
    modifies g`hp, g`mk, g`gray, g`grayagain, g`weak, g`allweak, g`ephemeron, g`gcstate, g`ls, g`ptr, g`gckind
    ensures g.gckind.GenMinor? && GenInv(Snap(g), g.ptr) && Live(Snap(g)) == Live(old(Snap(g)))
    ensures KeptLive(old(g.hp), g.hp, Live(old(Snap(g)))) && Roots(Snap(g)) <= Roots(old(Snap(g)))
    ensures forall o :: o in g.mk ==> g.mk[o].age.Old?
    ensures g.hp.Keys <= Live(old(Snap(g)))
  {
    hide Base, Live, KeptLive, QuietSweep, MadeOldSet, Roots, GenInv, Marked, Kept, Corrected, HeadOf;
    ghost var a := Snap(g);
    g.grayagain, g.weak, g.allweak, g.ephemeron := [], [], [], [];
    g.gcstate := SwpAllGc;
    BaseAside(a, Snap(g));
    MarkedQuiet(a, Snap(g));
    var again;
    ghost var done;
    again, done := SweepAll2Old(g);
    ghost var w := Snap(g);
    BecomeGen(g, done, again);
    LiveAside2(w, Snap(g));
    RootsSame(w, Snap(g));
  }

  lemma MarkedQuiet(a: State, a1: State)
    requires Live(a) == Marked(a.mk) && a1 == a.(links := a1.links, at := a1.at)
    ensures QuietSweep(a1, Incremental)
  {
    forall o | o in a.mk && a.mk[o].color.White? ensures a.mk[o].color == White(!a.white) {
      assert o !in Marked(a.mk);
    }
  }

  /** No object is in two lists. */
  lemma BaseApart(s: State)
    requires Base(s)
    ensures forall o :: o in s.ls.allgc ==> o !in s.ls.finobj && o !in s.ls.tobefnz
    ensures forall o :: o in s.ls.finobj ==> o !in s.ls.tobefnz
    ensures forall o ::
      o in s.mk ==> o in s.hp && (o in s.ls.allgc || o in s.ls.finobj || o in s.ls.tobefnz || o in s.ls.fixedgc)
  {
    hide UpvalsOk, MetasOk, LiveClosed, TwupsOk, KindsOk, FinOk, Roots, Live, Partition;
    PartitionFacts(s.hp, s.ls);
  }

  lemma NotIn(done: set<Id>, a: seq<Id>, b: seq<Id>)
    requires done == Elements(a) && forall o :: o in a ==> o !in b
    ensures forall o :: o in b ==> o !in done
  {
  }

  lemma NotIn2(done: set<Id>, a: seq<Id>, b: seq<Id>, c: seq<Id>)
    requires done == Elements(a) + Elements(b) && (forall o :: o in a ==> o !in c) && (forall o :: o in b ==> o !in c)
    ensures forall o :: o in c ==> o !in done
  {
  }

  /** After the three sweeps everything but the fixed strings, which are old anyway, was made old. */
  lemma SweptAll(a: State, s2: State, s3: State, w: State, done: set<Id>)
    requires Base(a) && SweepWork(a, s2) && SweepWork(s2, s3) && SweepWork(s3, w)
    requires Elements(w.ls.finobj) <= Elements(a.ls.finobj) && Elements(w.ls.tobefnz) <= Elements(a.ls.tobefnz)
    requires done == Elements(w.ls.allgc) + Elements(w.ls.finobj) + Elements(w.ls.tobefnz) && done <= Live(w)
    ensures Base(w) && Live(w) == Live(a) && KeptLive(a.hp, w.hp, Live(a)) && Roots(w) <= Roots(a) && w.an == a.an
      && w.white == a.white
    ensures forall o :: o in w.mk ==> o in done || o in w.ls.fixedgc
    ensures w.mk.Keys == w.hp.Keys <= Live(a)
  {
    hide Base, KeptLive, MarksSwept, Live, Roots, SweepWork;
    BaseFacts(a);
    WorkFacts(a, s2);
    BaseFacts(s2);
    WorkFacts(s2, s3);
    BaseFacts(s3);
    WorkFacts(s3, w);
    BaseFacts(w);
    BaseApart(w);
    KeptLiveTrans(a.hp, s2.hp, s3.hp, Live(a));
    KeptLiveTrans(a.hp, s3.hp, w.hp, Live(a));
    FixedLive(w);
    WorkFixed(a, s2);
    WorkFixed(s2, s3);
    WorkFixed(s3, w);
    LessRoots(a, w);
  }

  lemma WorkFixed(s: State, t: State)
    requires SweepWork(s, t)
    ensures t.ls.fixedgc == s.ls.fixedgc && t.an == s.an
  {
  }

  lemma LiveAside2(s: State, t: State)
    requires t == s.(links := t.links, at := t.at)
    ensures Live(t) == Live(s)
  {
  }

  lemma FixedLive(s: State)
    requires Base(s)
    ensures forall o :: o in s.ls.fixedgc ==> o in Live(s)
  {
    hide UpvalsOk, MetasOk, LiveClosed, TwupsOk, FinOk, Roots, Partition;
  }

  lemma LessRoots(a: State, w: State)
    requires w.an == a.an && w.ls.fixedgc == a.ls.fixedgc
    requires Elements(w.ls.finobj) <= Elements(a.ls.finobj) && Elements(w.ls.tobefnz) <= Elements(a.ls.tobefnz)
    ensures Roots(w) <= Roots(a)
  {
  }

  lemma WatchedOnly(w: State, done: set<Id>, again: seq<Id>)
    requires MadeOldSet(w.hp, w.mk, done, again) && Base(w)
    ensures NoneTwice(again + [] + [] + []) && w.hp.Keys == w.mk.Keys
      && forall x :: x in again + [] + [] + [] ==> x in w.mk
  {
    BaseFacts(w);
    assert again + [] + [] + [] == again;
    forall x | x in again ensures x in w.mk { assert OldAt(w.hp, w.mk, x); }
  }

  /** Old threads stay as they are when the lists are corrected. */
  lemma WatchedStay(w: State, done: set<Id>, again: seq<Id>, m1: Marks, kept: seq<Id>)
    requires MadeOldSet(w.hp, w.mk, done, again)
    requires Corrected(w.hp, w.mk, m1, Elements(again + [] + [] + [])) && kept == Kept(w.hp, w.mk, again + [] + [] + [])
    ensures m1 == w.mk && MadeOldSet(w.hp, w.mk, done, kept)
  {
    assert again + [] + [] + [] == again;
    KeptIn(w.hp, w.mk, again);
    forall x | x in again ensures OldAt(w.hp, w.mk, x) {}
    forall x | x in w.mk ensures m1[x] == w.mk[x] {
      if x in again { assert OldAt(w.hp, w.mk, x); }
    }
  }

  lemma PointHead(mk: Marks, l: seq<Id>)
    requires forall i :: 0 <= i < |l| ==> l[i] in mk && mk[l[i]].age.Old?
    ensures Chain(mk, l, HeadOf(l), HeadOf(l), HeadOf(l)) && First(mk, l, Null)
  {
    assert ChainAt(mk, l, HeadOf(l), HeadOf(l), HeadOf(l), 0, 0, 0);
    assert FirstAt(mk, l, Null, |l|);
  }

  /** With everything old the generational invariant holds. */
  lemma AllOldInv(w: State, t: State, p: Pointers, done: set<Id>, again: seq<Id>)
    requires Base(w) && MadeOldSet(w.hp, w.mk, done, again)
      && (forall o :: o in w.mk ==> o in done || o in w.ls.fixedgc)
    requires t == w.(links := Links(again, [], [], []), at := Propagate) && w.gray == [] && w.sweep.NoSweep?
    requires p == Pointers(HeadOf(w.ls.allgc), HeadOf(w.ls.allgc), HeadOf(w.ls.allgc), Null, HeadOf(w.ls.finobj),
      HeadOf(w.ls.finobj), HeadOf(w.ls.finobj))
    requires w.mk.Keys == w.hp.Keys <= Live(w)
    ensures GenInv(t, p) && forall o :: o in t.mk ==> t.mk[o].age.Old?
  {
    hide Base, Live, RefsIn, Roots;
    BaseAside(w, t);
    FixedOld(w);
    assert forall o :: o in w.mk ==> w.mk[o].age.Old? && !w.mk[o].color.White? && (o in done || w.hp[o].Str?) by {
      forall o | o in w.mk ensures w.mk[o].age.Old? && !w.mk[o].color.White? && (o in done || w.hp[o].Str?) {
        if o in done { assert OldAt(w.hp, w.mk, o); }
      }
    }
    assert Olds(t.mk) == t.hp.Keys;
    forall o | o in t.mk ensures Aged(t.hp, t.mk, [], again, t.white, o) {
      BaseRefs(t, o);
      if o in done { assert OldAt(w.hp, w.mk, o); } else { StrRefs(t.hp, t.hp[o]); }
    }
    OldQueued(t, done, again);
    ListsIn(t);
    PointHead(t.mk, t.ls.allgc);
    PointHead(t.mk, t.ls.finobj);
    MainThere(t);
  }

  lemma OldQueued(t: State, done: set<Id>, again: seq<Id>)
    requires MadeOldSet(t.hp, t.mk, done, again)
    ensures Queued(t.hp, t.mk, [], again)
  {
    NoneTwiceCount(again);
    forall o | o in again ensures o in t.mk && o in t.hp && NeedsVisit(t.hp[o]) && t.mk[o].color.Gray? {
      assert OldAt(t.hp, t.mk, o);
    }
  }

  lemma ListsIn(s: State)
    requires Base(s)
    ensures forall i :: 0 <= i < |s.ls.allgc| ==> s.ls.allgc[i] in s.mk
    ensures forall i :: 0 <= i < |s.ls.finobj| ==> s.ls.finobj[i] in s.mk
  {
    hide UpvalsOk, MetasOk, LiveClosed, TwupsOk, KindsOk, FinOk, Roots, Live, Partition;
    PartitionFacts(s.hp, s.ls);
  }

  /** The end of entergen, when a new cycle is marking: the atomic phase, and everything left
      becomes old. */
  method AtomicToGen(g: GlobalState, ghost c: set<Id>, ghost c2: set<Id>) returns (ghost strong: set<Id>)
    requires Valid(Snap(g)) && g.gckind.Incremental? && KeepInvariant(g.gcstate) && g.ptr.finobjold1.Null?
    requires Covers(Snap(g), c) && CoversFin(Snap(g), c, c2)
    modifies g`hp, g`mk, g`gray, g`grayagain, g`weak, g`allweak, g`ephemeron, g`twups
    modifies g`gcstate, g`ls, g`ptr, g`currentwhite, g`gckind
    ensures g.gckind.GenMinor? && GenInv(Snap(g), g.ptr) && Preserved(old(Snap(g)), Snap(g), strong)
    ensures (forall o :: o in g.mk ==> g.mk[o].age.Old?) && g.hp.Keys <= c2
  {
    hide Base, Phase, Live, KeptLive, Marked, Covers, CoversFin, Preserved, AtomicOutcome, GenInv, StrongSet, Roots,
      HeapShrunk, WeakLoss, Undead, StrongClosed, UpvalsOk;
    ghost var s := Snap(g);
    MarkingOnly(s);
    strong := AtomicFromMarking(g, c, c2);
    ghost var a := Snap(g);
    AtomicBase(s, a, strong);
    AtomicAt(s, a, strong);
    AtomicEnd(s, a, strong);
    AtomicKeepsRoots(s, a, strong);
    Atomic2Gen(g);
    GenBase(Snap(g), g.ptr);
    BaseFacts(Snap(g));
    CollectedAtomic(s, a, Snap(g), strong);
  }

  lemma MarkingOnly(s: State)
    requires Phase(s) && KeepInvariant(s.at)
    ensures MarkPhase(s) && Undead(s) && s.sweep.NoSweep?
  {
  }

  lemma AtomicEnd(s: State, a: State, strong: set<Id>)
    requires AtomicOutcome(s, a, strong)
    ensures a.gray == [] && a.sweep == s.sweep
  {
  }

  /** minor2inc: every object is to be swept, to be white again; the pointers are dropped. */
  method MinorToInc(g: GlobalState)
    requires GenInv(Snap(g), g.ptr) && g.gckind.GenMinor?
    modifies g`hp, g`mk, g`gray, g`ls, g`gcstate, g`sweepgc, g`ptr, g`gckind
    ensures g.gckind.Incremental? && g.ptr.finobjold1.Null? && Valid(Snap(g)) && g.gcstate.SwpAllGc?
    ensures Preserved(old(Snap(g)), Snap(g), Live(old(Snap(g))))
  {
    hide Base, Phase, Live, GenInv, Preserved, KeptLive, Roots;
    ghost var s := Snap(g);
    GenBase(s, g.ptr);
    g.gckind := Incremental;
    g.ptr := Pointers(Null, Null, Null, g.ptr.firstold1, Null, Null, Null);
    EnterSweep(g);
    CollectedQuietly(s, Snap(g));
  }
}
