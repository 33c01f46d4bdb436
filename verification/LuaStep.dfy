/** The incremental collector, step by step. */
module LuaStep {
  import opened LuaHeap
  import opened LuaMarks
  import opened LuaLists
  import opened LuaTricolor
  import opened LuaGc
  import opened LuaState
  import opened LuaGen
  import opened LuaSweep
  import opened LuaMutator
  import opened LuaObjects

  /** What the collector may change in an object it keeps: an open upvalue gets its own
      copy, and weak tables lose entries that mention an object outside `strong`. */
  ghost predicate Keeps(h0: Heap, h1: Heap, o: Id, strong: set<Id>) {
    && o in h0 && o in h1
    && (|| WeakLoss(h0, h0[o], h1[o], strong)
        || (h0[o].OpenUpval? && h1[o] == ClosedUpval(SlotValue(h0, h0[o].th, h0[o].slot))))
  }

  /** `strong` contains the threads, the registry and the basic metatables, and everything
      they lead to through strong references. */
  ghost predicate StrongSet(s: State, strong: set<Id>) {
    && StrongClosed(s.hp, strong)
    && s.an.main in strong && s.an.running in strong && In(s.an.registry, strong) && AllIn(s.an.mt, strong)
  }

  lemma StrongSetAside(s: State, t: State, d: set<Id>)
    requires t.hp == s.hp && t.an == s.an
    ensures StrongSet(t, d) <==> StrongSet(s, d)
  {
  }

  /** What the program can reach without going through weak references: the object is in
      every set that contains the roots and is closed under strong references. */
  ghost predicate StronglyReachable(s: State, o: Id) {
    forall c: set<Id> :: StrongSet(s, c) ==> o in c
  }

  /** Strings stay strings, and stacks keep their contents. */
  ghost predicate ShapesStay(h0: Heap, h1: Heap, live: set<Id>) {
    && (forall o :: o in live ==> o in h0 && o in h1 && (h0[o].Str? <==> h1[o].Str?))
    && (forall th :: th in h1 && th in h0 && h0[th].Thread? ==> h1[th].Thread? && h1[th].stack == h0[th].stack)
  }

  /** What the collector does to the objects of the program. */
  ghost predicate Preserved(s: State, t: State, strong: set<Id>) {
    && StrongSet(s, strong) && t.an == s.an && Roots(t) <= Roots(s)
    && strong <= Live(s) && strong <= Live(t) && ShapesStay(s.hp, t.hp, Live(t))
    && forall o :: o in strong || o in Roots(s) ==> Keeps(s.hp, t.hp, o, strong)
  }

  /** Outcome of a step of the incremental collector. */
  ghost predicate Collected(s: State, t: State, strong: set<Id>) {
    Valid(t) && Preserved(s, t, strong)
  }

  /** No step of the collector frees a strongly reachable object or an object with a
      finalizer, and it leaves no dangling reference behind. */
  lemma ReachableNotFreed(s: State, t: State, strong: set<Id>, o: Id)
    requires Base(t) && Preserved(s, t, strong)
    ensures StronglyReachable(s, o) || o in Roots(s) ==> o in t.hp && Keeps(s.hp, t.hp, o, strong)
    ensures Reachable(t.hp, Roots(t), o) ==> o in t.hp
  {
    if Reachable(t.hp, Roots(t), o) {
      ReachableIsLive(t, o);
    }
  }

  lemma LiveIsStrong(s: State)
    requires Base(s)
    ensures StrongSet(s, Live(s))
  {
    hide UpvalsOk, MetasOk, TwupsOk, Partition, KindsOk, FinOk;
    forall o | o in Live(s) && o in s.hp ensures StrongRefsIn(s.hp, s.hp[o], Live(s)) {
      assert RefsIn(s.hp, s.hp[o], Live(s));
    }
    ValueSetIn([s.an.registry], Live(s));
    ValueSetIn(s.an.mt, Live(s));
  }

  /** A step that neither empties tables nor frees live objects. */
  lemma CollectedQuietly(s: State, t: State)
    requires Base(s) && Valid(t) && t.an == s.an && KeptLive(s.hp, t.hp, Live(s)) && Live(t) == Live(s)
      && Roots(t) <= Roots(s)
    ensures Collected(s, t, Live(s))
  {
    hide UpvalsOk, MetasOk, TwupsOk, Partition, KindsOk, FinOk, LiveClosed, Phase, Live, StrongClosed;
    LiveIsStrong(s);
    LiveSubset(s);
  }

  /** After a complete sweep everything is white and nothing is dead. */
  lemma AllSweptFacts(s: State)
    requires Base(s) && AllSwept(s.mk, s.white, s.ls)
    ensures Live(s) == s.hp.Keys == s.mk.Keys && HeapReady(s.hp, s.hp.Keys)
    ensures forall o :: o in s.mk ==> s.mk[o].color != White(!s.white)
    ensures forall o :: o in s.mk && o !in s.ls.fixedgc ==> s.mk[o].color.White? && s.mk[o].age.New?
    ensures forall o :: o in s.ls.fixedgc ==> o in s.mk && o in s.hp && s.hp[o].Str? && !s.mk[o].color.White?
  {
    hide UpvalsOk, MetasOk, TwupsOk, LiveClosed, FinOk, Roots, Live, Partition;
    BaseFacts(s);
    PartitionFacts(s.hp, s.ls);
    forall o | o in s.mk
      ensures s.mk[o].color != White(!s.white)
      ensures o !in s.ls.fixedgc ==> s.mk[o].color.White? && s.mk[o].age.New?
    {
      if o in s.ls.allgc {
      } else if o in s.ls.finobj {
      } else if o in s.ls.tobefnz {
      } else {
        assert o in s.ls.fixedgc;
      }
    }
    NoneDead(s);
  }

  /** A set the collector never looks outside of in this cycle: it contains the roots but
      for the objects with finalizers, and is closed under what the collector follows. */
  ghost predicate Covers(s: State, c: set<Id>) {
    && Enclosed(s.hp, c) && c <= s.hp.Keys
    && s.an.main in c && s.an.running in c && In(s.an.registry, c) && AllIn(s.an.mt, c)
    && (forall o :: o in s.ls.tobefnz || o in s.ls.fixedgc ==> o in c)
    && (KeepInvariant(s.at) ==> Marked(s.mk) <= c)
  }

  /** restartcollection: forgets the gray lists and marks the roots. */
  method RestartCollection(g: GlobalState, ghost c: set<Id>)
    requires Valid(Snap(g)) && g.gcstate.Pause? && Covers(Snap(g), c)
    modifies g`mk, g`gray, g`grayagain, g`weak, g`allweak, g`ephemeron
    ensures Base(Snap(g)) && MarkPhase(Snap(g)) && Marked(g.mk) <= c
  {
    hide Base, MarkPhase, AllSwept, Live, HeapReady, Marking, Marked, Covers;
    ghost var s := Snap(g);
    RestartReady(s, c);
    g.gray, g.grayagain := [], [];
    g.weak, g.allweak, g.ephemeron := [], [], [];
    MarkRoots(g, c);
    SnapRestart(g, s);
    RestartKeeps(s, g.mk, g.gray);
  }

  lemma SnapRestart(g: GlobalState, s: State)
    requires g.hp == s.hp && g.ls == s.ls && g.an == s.an && g.twups == s.twups && g.currentwhite == s.white
      && g.gcstate == s.at
    requires g.sweepgc == s.sweep && g.grayagain == g.weak == g.allweak == g.ephemeron == []
    ensures Snap(g) == s.(mk := g.mk, gray := g.gray, links := Links([], [], [], []))
  {
  }

  /** The roots marked at the start of a cycle. */
  method MarkRoots(g: GlobalState, ghost c: set<Id>)
    requires g.MarkReady(c) && g.an.main in c && In(g.an.registry, c) && AllIn(g.an.mt, c)
      && forall o :: o in g.ls.tobefnz ==> o in c
    modifies g`mk, g`gray
    ensures g.MarkReady(c) && Marking(g.hp, old(g.mk), old(g.gray), g.mk, g.gray) && g.an.main in Marked(g.mk)
  {
    hide HeapReady, Marking, Marked;
    g.MarkValue(Ref(g.an.main), c);
    ghost var m1, g1 := g.mk, g.gray;
    g.MarkValue(g.an.registry, c);
    ghost var m2, g2 := g.mk, g.gray;
    g.MarkMt(c);
    MarkingTrans(g.hp, m1, g1, m2, g2, g.mk, g.gray);
    ghost var m3, g3 := g.mk, g.gray;
    g.MarkBeingFnz(c);
    MarkingTrans(g.hp, m1, g1, m3, g3, g.mk, g.gray);
    MarkingTrans(g.hp, old(g.mk), old(g.gray), m1, g1, g.mk, g.gray);
    MarkingGrows(g.hp, m1, g1, g.mk, g.gray);
  }

  lemma CoversReady(s: State, c: set<Id>)
    requires Covers(s, c) && HeapReady(s.hp, s.hp.Keys)
    ensures HeapReady(s.hp, c)
  {
  }

  lemma RestartReady(s: State, c: set<Id>)
    requires Base(s) && AllSwept(s.mk, s.white, s.ls) && Covers(s, c)
    ensures HeapReady(s.hp, c) && s.hp.Keys == s.mk.Keys && Marked(s.mk) <= c <= s.hp.Keys
    ensures s.an.main in c && In(s.an.registry, c) && AllIn(s.an.mt, c) && forall o :: o in s.ls.tobefnz ==> o in c
  {
    hide Base, AllSwept, Live, HeapReady, Marked, Enclosed;
    AllSweptFacts(s);
    FixedMarked(s, c);
    CoversReady(s, c);
  }

  lemma FixedMarked(s: State, c: set<Id>)
    requires Base(s) && AllSwept(s.mk, s.white, s.ls) && Covers(s, c)
    ensures Marked(s.mk) <= c
  {
    AllSweptFacts(s);
  }

  lemma RestartKeeps(s: State, m1: Marks, g1: seq<Id>)
    requires Base(s) && AllSwept(s.mk, s.white, s.ls)
    requires Marking(s.hp, s.mk, [], m1, g1) && s.an.main in Marked(m1)
    ensures var t := s.(mk := m1, gray := g1, links := Links([], [], [], [])); Base(t) && MarkPhase(t)
  {
    hide Base, Live, HeapReady, AllSwept, Tricolor, Marked;
    AllSweptFacts(s);
    MarkingAlive(s.hp, s.mk, [], m1, g1, s.white);
    FixedSame(s, m1, g1);
    BaseRecolor(s, m1);
    BaseAside(s.(mk := m1), s.(mk := m1, gray := g1, links := Links([], [], [], [])));
    TricolorRestart(s.hp, s.mk, s.ls.fixedgc);
    TricolorMark(s.hp, s.mk, [], m1, g1, [], s.ls.fixedgc);
  }

  lemma FixedSame(s: State, m1: Marks, g1: seq<Id>)
    requires Marking(s.hp, s.mk, [], m1, g1)
    requires forall o :: o in s.ls.fixedgc ==> o in s.mk && !s.mk[o].color.White?
    ensures forall o :: o in s.ls.fixedgc && o in m1 ==> m1[o] == s.mk[o]
  {
  }

  lemma TricolorRestart(hp: Heap, mk: Marks, fixedgc: seq<Id>)
    requires hp.Keys == mk.Keys
    requires forall o :: o in mk && o !in fixedgc ==> mk[o].color.White?
    requires forall o :: o in fixedgc ==> o in mk && o in hp && hp[o].Str?
    ensures Tricolor(hp, mk, [], [], fixedgc)
  {
  }

  /** propagatemark on one gray object. */
  method PropagateOne(g: GlobalState, ghost c: set<Id>)
    requires Valid(Snap(g)) && g.gcstate.Propagate? && g.gray != [] && Covers(Snap(g), c)
    modifies g`hp, g`mk, g`gray, g`grayagain, g`weak, g`allweak, g`ephemeron, g`twups
    ensures Valid(Snap(g)) && Covers(Snap(g), c)
    ensures Live(Snap(g)) == Live(old(Snap(g))) && HeapShrunk(old(g.hp), g.hp) && NothingLost(old(g.hp), g.hp)
  {
    hide Base, Tricolor, Live, HeapReady, Visit, Marked, HeapShrunk, NothingLost, Enclosed, Walk;
    ghost var s := Snap(g);
    MarkingFacts(s);
    GrayHead(s);
    CoversReady(s, c);
    g.PropagateMark(c);
    SnapVisit(g, s);
    PropagateKeeps(s, Snap(g), s.gray[0]);
    ReadyEnclosed(g.hp, c);
  }

  lemma ReadyEnclosed(hp: Heap, c: set<Id>)
    requires HeapReady(hp, c)
    ensures Enclosed(hp, c) && c <= hp.Keys
  {
  }

  lemma SnapVisit(g: GlobalState, s: State)
    requires g.an == s.an && g.ls == s.ls && g.currentwhite == s.white && g.gcstate == s.at && g.sweepgc == s.sweep
      && g.twups == s.twups
    ensures Snap(g) == s.(hp := g.hp, mk := g.mk, gray := g.gray, links := g.Lists())
  {
  }

  lemma GrayHead(s: State)
    requires Base(s) && MarkPhase(s) && s.gray != []
    ensures s.gray[0] in s.hp && s.gray[0] in s.mk && s.mk[s.gray[0]].color.Gray? && NeedsVisit(s.hp[s.gray[0]])
      && s.gray[0] in Marked(s.mk)
  {
  }

  lemma PropagateKeeps(s: State, t: State, o: Id)
    requires Base(s) && MarkPhase(s) && s.gray != [] && o == s.gray[0] && o in s.mk
    requires Visit(false, o, s.hp, Blackened(s.mk, o), s.gray[1..], s.links, t.hp, t.mk, t.gray, t.links)
    requires t == s.(hp := t.hp, mk := t.mk, gray := t.gray, links := t.links)
    ensures Base(t) && MarkPhase(t) && Live(t) == Live(s)
    ensures HeapShrunk(s.hp, t.hp) && NothingLost(s.hp, t.hp)
  {
    hide Base, Tricolor, Live, Visit, Settled, RefsIn, HeapShrunk, NothingLost, HeapReady, UpvalsOk, MetasOk, Walk;
    MarkingFacts(s);
    GrayHead(s);
    VisitOutcome(o, s.hp, s.mk, s.gray[1..], s.links, t.hp, t.mk, t.gray, t.links);
    ShrunkBase(s, t.hp);
    PropagateMarks(s, t, o);
    ghost var u := s.(hp := t.hp);
    BaseRecolor(u, t.mk);
    BaseAside(u.(mk := t.mk), t);
    assert s.gray == [o] + s.gray[1..];
    TricolorVisit(o, s.hp, s.mk, s.gray[1..], s.links, t.hp, t.mk, t.gray, t.links, s.ls.fixedgc);
  }

  /** What a visit before the atomic phase does to marks, lists and contents. */
  lemma VisitOutcome(o: Id, h0: Heap, mk: Marks, g0: seq<Id>, k0: Links, h1: Heap, m1: Marks, g1: seq<Id>, k1: Links)
    requires o in mk && mk[o].color.Gray? && Visit(false, o, h0, Blackened(mk, o), g0, k0, h1, m1, g1, k1)
    ensures HeapShrunk(h0, h1) && NothingLost(h0, h1)
    ensures m1.Keys == mk.Keys == h0.Keys && o in h0
    ensures forall x :: x in mk ==> m1[x].fin == mk[x].fin && (mk[x].age.New? ==> m1[x].age.New?)
    ensures forall x :: x in mk && x != o && !mk[x].color.White? ==> m1[x] == mk[x]
    ensures forall x :: x in mk && m1[x].color.White? ==> m1[x] == mk[x]
    ensures !m1[o].color.White?
    ensures k0.weak == k0.allweak == k0.eph == [] ==> k1.weak == k1.allweak == k1.eph == []
  {
    hide RefsIn, Visited;
    var mb := Blackened(mk, o);
    var m1' := m1[o := mb[o]];
    assert m1'.Keys == m1.Keys && mb.Keys == mk.Keys;
    assert forall x :: x in mk && x != o ==> m1[x] == m1'[x] && mb[x] == mk[x];
    DeadKeysKeep(h0, h1, o);
  }

  lemma DeadKeysKeep(h0: Heap, h1: Heap, o: Id)
    requires o in h0 && o in h1 && h1 == h0[o := h1[o]] && (h1[o] == h0[o] || DeadKeysOnly(h0[o], h1[o]))
    ensures NothingLost(h0, h1)
  {
  }

  lemma ShrunkBase(s: State, h1: Heap)
    requires Base(s) && HeapShrunk(s.hp, h1)
    ensures Base(s.(hp := h1)) && Live(s.(hp := h1)) == Live(s)
  {
    hide UpvalsOk, MetasOk, Live, LiveClosed, Partition, TwupsOk, KindsOk, FinOk, HeapShrunk, Roots;
    ShrunkKinds(s.hp, h1, Live(s), s.twups, s.mk, s.ls, s.an);
    ShrunkKeys(s.hp, h1);
    PartitionKeys(s.hp, h1, s.ls);
    LiveSubset(s);
    ShrunkUpvals(s.hp, h1, Live(s));
    assert Live(s.(hp := h1)) == Live(s) by { LiveSame(s.(hp := h1), s.mk); LiveHeap(s, h1); }
    ShrunkLive(s.hp, h1, Live(s));
    RootsSame(s, s.(hp := h1));
  }

  lemma ShrunkKinds(h0: Heap, h1: Heap, live: set<Id>, twups: seq<Id>, mk: Marks, ls: Objects, an: Anchors)
    requires HeapShrunk(h0, h1)
    ensures TwupsOk(h0, live, twups) ==> TwupsOk(h1, live, twups)
    ensures KindsOk(h0, mk, ls, an) ==> KindsOk(h1, mk, ls, an)
  {
    SameShapes(h0, h1);
    ShrunkKeys(h0, h1);
    hide HeapShrunk;
  }

  lemma ShrunkLive(h0: Heap, h1: Heap, live: set<Id>)
    requires HeapShrunk(h0, h1) && LiveClosed(h0, live)
    ensures LiveClosed(h1, live)
  {
    hide RefsIn, HeapShrunk;
    ShrunkKeys(h0, h1);
    forall o | o in live ensures o in h1 && RefsIn(h1, h1[o], live) {
      assert RefsIn(h0, h0[o], live);
      ShrunkRefs(h0, h1, o, live);
    }
  }

  lemma LiveHeap(s: State, h1: Heap)
    ensures Live(s.(hp := h1)) == Live(s)
  {
  }

  lemma ShrunkKeys(h0: Heap, h1: Heap)
    requires HeapShrunk(h0, h1)
    ensures h0.Keys == h1.Keys
  {
  }

  lemma ShrunkUpvals(h0: Heap, h1: Heap, live: set<Id>)
    requires HeapShrunk(h0, h1)
    ensures UpvalsOk(h0) ==> UpvalsOk(h1)
    ensures MetasOk(h0, live) ==> MetasOk(h1, live)
  {
    assert forall o :: o in h0 ==> Shrunk(h0[o], h1[o]);
  }

  lemma PropagateMarks(s: State, t: State, o: Id)
    requires Base(s) && MarkPhase(s) && o in s.mk && !s.mk[o].color.White? && o in s.hp && NeedsVisit(s.hp[o])
    requires t.mk.Keys == s.mk.Keys && !t.mk[o].color.White?
    requires forall x :: x in s.mk ==> t.mk[x].fin == s.mk[x].fin && (s.mk[x].age.New? ==> t.mk[x].age.New?)
    requires forall x :: x in s.mk && x != o && !s.mk[x].color.White? ==> t.mk[x] == s.mk[x]
    requires forall x :: x in s.mk && t.mk[x].color.White? ==> t.mk[x] == s.mk[x]
    ensures forall x :: x in t.mk ==> t.mk[x].color != White(!s.white) && s.mk[x].color != White(!s.white)
    ensures forall x :: x in s.ls.fixedgc && x in t.mk ==> t.mk[x] == s.mk[x]
    ensures forall x :: x in t.mk && x !in s.ls.fixedgc ==> t.mk[x].age.New?
    ensures s.an.main in Marked(t.mk)
  {
  }

  /** Nothing is dead, and the main thread is marked: a state in which marking may end. */
  ghost predicate Undead(s: State) {
    (forall o :: o in s.mk ==> s.mk[o].color != White(!s.white)) && s.an.main in Marked(s.mk)
  }

  /** The objects with finalizers outside `strong` are to be finalized now. */
  ghost predicate FinSplit(s: State, t: State, strong: set<Id>) {
    exists k: nat :: SplitAt(s, t, strong, k)
  }

  ghost predicate SplitAt(s: State, t: State, strong: set<Id>, k: nat) {
    && Separated(strong, false, s.ls.finobj, k, t.ls.finobj, s.ls.tobefnz, t.ls.tobefnz)
    && forall j :: k <= j < |s.ls.finobj| ==> s.ls.finobj[j] in strong
  }

  /** What the atomic phase leaves behind. */
  ghost predicate AtomicOutcome(s: State, t: State, strong: set<Id>) {
    && t == s.(hp := t.hp, mk := t.mk, gray := [], links := t.links, twups := t.twups,
               ls := s.ls.(finobj := t.ls.finobj, tobefnz := t.ls.tobefnz), white := !s.white, at := Atomic)
    && Cleared(strong, s.hp, s.mk, t.hp, t.mk) && Marked(s.mk) <= strong <= Marked(t.mk)
    && FinSplit(s, t, strong)
    && (forall x :: x in t.ls.tobefnz ==> x in Marked(t.mk))
    && (forall o :: o in Marked(t.mk) ==> o in t.hp && RefsIn(t.hp, t.hp[o], Marked(t.mk)))
    && TwupsInv(t.hp, t.mk, [], {}, t.twups) && (forall x :: x in t.twups ==> x in Marked(t.mk))
    && StrongClosed(s.hp, strong) && s.an.running in strong && In(s.an.registry, strong) && AllIn(s.an.mt, strong)
  }

  /** After the atomic phase the live objects are the marked ones. */
  lemma AtomicBase(s: State, t: State, strong: set<Id>)
    requires Base(s) && Undead(s) && AtomicOutcome(s, t, strong)
    ensures Base(t) && Live(t) == Marked(t.mk) && StrongSet(s, strong)
    ensures forall o :: o in Live(s) ==> o in t.hp && WeakLoss(s.hp, s.hp[o], t.hp[o], strong)
  {
    hide RefsIn, FinSplit, HeapShrunk, OnlyWeakLost, TwupsInv, StrongClosed, UpvalsOk, MetasOk, Partition, Live,
      Marked, WeakLoss, MarksProgress;
    hide KindsOk, FinOk, Roots, LiveClosed, TwupsOk, HeapReady;
    NoneDead(s);
    ClosedMarked(t.hp, Marked(t.mk));
    BaseFacts(s);
    ShrunkKeys(s.hp, t.hp);
    ShrunkUpvals(s.hp, t.hp, s.hp.Keys);
    WellMetas(s, t.hp, Marked(t.mk));
    AtomicLive(s, t);
    AtomicLists(s, t, strong);
    AtomicKinds(s, t, strong);
    AtomicRoots(s, t, strong);
    AtomicTwups(t);
    LossEach(s.hp, t.hp, strong);
  }

  lemma ClosedMarked(hp: Heap, live: set<Id>)
    requires forall o :: o in live ==> o in hp && RefsIn(hp, hp[o], live)
    ensures LiveClosed(hp, live)
  {
  }

  lemma LossEach(h0: Heap, h1: Heap, strong: set<Id>)
    requires OnlyWeakLost(h0, h1, strong)
    ensures forall o :: o in h0 ==> o in h1 && WeakLoss(h0, h0[o], h1[o], strong)
  {
  }

  lemma WellMetas(s: State, h1: Heap, marked: set<Id>)
    requires HeapReady(s.hp, s.hp.Keys) && HeapShrunk(s.hp, h1)
    ensures MetasOk(h1, marked)
  {
    ShrunkClosed(s.hp, h1);
  }

  lemma AtomicLive(s: State, t: State)
    requires Undead(s) && MarksProgress(s.mk, t.mk) && t.white == !s.white
    ensures Live(t) == Marked(t.mk)
  {
  }

  lemma AtomicLists(s: State, t: State, strong: set<Id>)
    requires Partition(s.hp, s.ls) && s.hp.Keys == t.hp.Keys && FinSplit(s, t, strong)
    requires t.ls == s.ls.(finobj := t.ls.finobj, tobefnz := t.ls.tobefnz)
    ensures Partition(t.hp, t.ls)
    ensures forall x :: x in t.ls.finobj ==> x in strong && x in s.ls.finobj
    ensures forall x :: x in s.ls.finobj || x in s.ls.tobefnz <==> x in t.ls.finobj || x in t.ls.tobefnz
  {
    hide Stay, Leave, Partition;
    var fin := s.ls.finobj;
    var k: nat :| SplitAt(s, t, strong, k);
    StayLeaveMultiset(strong, false, fin[..k]);
    StayLeaveMembers(strong, false, fin[..k]);
    assert fin == fin[..k] + fin[k..];
    SplitPartition(s.hp, t.hp, s.ls, t.ls, Stay(strong, false, fin[..k]), fin[k..], Leave(strong, false, fin[..k]));
  }

  lemma SplitPartition(h0: Heap, h1: Heap, ls: Objects, ls1: Objects, stay: seq<Id>, rest: seq<Id>, leave: seq<Id>)
    requires Partition(h0, ls) && h0.Keys == h1.Keys
    requires multiset(stay) + multiset(leave) + multiset(rest) == multiset(ls.finobj)
    requires ls1 == ls.(finobj := stay + rest, tobefnz := ls.tobefnz + leave)
    ensures Partition(h1, ls1)
  {
    assert multiset(ls.tobefnz + leave) == multiset(ls.tobefnz) + multiset(leave);
    assert multiset(stay + rest) == multiset(stay) + multiset(rest);
  }

  lemma AtomicKinds(s: State, t: State, strong: set<Id>)
    requires Base(s) && HeapShrunk(s.hp, t.hp) && MarksProgress(s.mk, t.mk)
    requires t.ls == s.ls.(finobj := t.ls.finobj, tobefnz := t.ls.tobefnz) && t.an == s.an
    requires forall x :: x in s.ls.finobj || x in s.ls.tobefnz <==> x in t.ls.finobj || x in t.ls.tobefnz
    ensures KindsOk(t.hp, t.mk, t.ls, t.an) && FinOk(t.mk, t.ls) && t.mk.Keys == s.mk.Keys
  {
    hide Live, UpvalsOk, MetasOk, LiveClosed, Partition, Roots;
    assert forall o :: o in s.hp ==> Shrunk(s.hp[o], t.hp[o]);
  }

  lemma AtomicRoots(s: State, t: State, strong: set<Id>)
    requires Base(s) && Undead(s) && MarksProgress(s.mk, t.mk) && Marked(s.mk) <= strong <= Marked(t.mk)
    requires t.an == s.an && t.ls.fixedgc == s.ls.fixedgc
    requires s.an.running in strong && In(s.an.registry, strong) && AllIn(s.an.mt, strong)
    requires forall x :: x in t.ls.finobj ==> x in strong
    requires forall x :: x in t.ls.tobefnz ==> x in Marked(t.mk)
    ensures Roots(t) <= Marked(t.mk) && s.an.main in strong
  {
    hide Live, UpvalsOk, MetasOk, LiveClosed, Partition, TwupsOk;
    ValueSetIn([s.an.registry], strong);
    ValueSetIn(s.an.mt, strong);
    assert s.an.main in strong;
    forall x | x in t.ls.fixedgc ensures x in Marked(t.mk) {}
  }

  lemma AtomicTwups(t: State)
    requires TwupsInv(t.hp, t.mk, [], {}, t.twups) && forall x :: x in t.twups ==> x in Marked(t.mk)
    ensures TwupsOk(t.hp, Marked(t.mk), t.twups)
  {
  }

  /** The invariant of marking is what the atomic phase starts from. */
  lemma ReadyForAtomic(s: State, c: set<Id>)
    requires Base(s) && MarkPhase(s)
    ensures AtomicInv(s.hp, s.mk, s.gray, Elements(s.links.grayagain), Links([], [], [], []), Elements(s.twups))
    ensures NoneTwice(s.links.grayagain)
    ensures TwupsInv(s.hp, s.mk, s.gray, Elements(s.links.grayagain), s.twups)
  {
    hide Base, Tricolor, Live, AtomicInv, TwupsInv, UpvalsOk, MetasOk, RefsIn;
    MarkingFacts(s);
    TwupsAll(s);
    MarkingAges(s);
    assert Elements(s.twups) == set t | t in s.twups;
    TricolorStartsAtomic(s.hp, s.mk, s.gray, s.links.grayagain, s.ls.fixedgc, Elements(s.links.grayagain),
      Links([], [], [], []), s.twups);
  }

  lemma MarkingAges(s: State)
    requires Base(s) && MarkPhase(s)
    ensures forall o :: o in s.mk && o in s.hp ==> if s.hp[o].Str? then !IsTouched(s.mk[o].age) else s.mk[o].age.New?
  {
    hide Tricolor, UpvalsOk, MetasOk, LiveClosed, Partition, TwupsOk, Roots;
  }

  lemma TwupsAll(s: State)
    requires Base(s) && Live(s) == s.hp.Keys
    ensures forall t :: t in s.hp && s.hp[t].Thread? && s.hp[t].upvals != [] ==> t in s.twups
    ensures forall t :: t in s.twups ==> t in s.hp && s.hp[t].Thread?
  {
  }

  ghost predicate CoversFin(s: State, c: set<Id>, c2: set<Id>) {
    Enclosed(s.hp, c2) && c <= c2 <= s.hp.Keys && forall x :: x in s.ls.finobj || x in s.ls.tobefnz ==> x in c2
  }

  /** The atomic phase, from a state of the incremental collector. */
  method AtomicFromMarking(g: GlobalState, ghost c: set<Id>, ghost c2: set<Id>) returns (ghost strong: set<Id>)
    requires Valid(Snap(g)) && KeepInvariant(g.gcstate) && g.ptr.finobjold1.Null?
    requires Covers(Snap(g), c) && CoversFin(Snap(g), c, c2)
    modifies g`hp, g`mk, g`gray, g`grayagain, g`weak, g`allweak, g`ephemeron, g`twups
    modifies g`gcstate, g`ls, g`ptr, g`currentwhite
    ensures AtomicOutcome(old(Snap(g)), Snap(g), strong)
    ensures strong <= c && Marked(g.mk) <= c2 && g.ptr.finobjold1.Null?
  {
    hide Base, Tricolor, Live, HeapReady, Enclosed, AtomicInv, TwupsInv, Marked, Cleared, Separated, StrongClosed,
      RefsIn;
    ghost var s := Snap(g);
    MarkingFacts(s);
    ReadyForAtomic(s, c);
    CoversReady(s, c);
    FinNotStr(s);
    ghost var k: nat;
    strong, k := g.AtomicStep(c, c2);
    assert Snap(g) == s.(hp := g.hp, mk := g.mk, gray := [], links := g.Lists(), twups := g.twups,
               ls := s.ls.(finobj := g.ls.finobj, tobefnz := g.ls.tobefnz), white := !s.white, at := Atomic);
    assert SplitAt(s, Snap(g), strong, k);
  }

  lemma FinNotStr(s: State)
    requires Base(s)
    ensures forall x :: x in s.ls.finobj ==> x in s.hp && !s.hp[x].Str?
  {
  }

  /** entersweep. */
  method EnterSweep(g: GlobalState)
    requires Base(Snap(g)) && g.gckind.Incremental? && KeepInvariant(g.gcstate)
    modifies g`hp, g`mk, g`gray, g`ls, g`gcstate, g`sweepgc
    ensures Valid(Snap(g)) && g.gcstate.SwpAllGc? && Live(Snap(g)) == Live(old(Snap(g)))
      && KeptLive(old(g.hp), g.hp, Live(old(Snap(g))))
    ensures Roots(Snap(g)) == Roots(old(Snap(g)))
  {
    hide Base, Live, KeptLive, SweepWork, SweptTo, Swept, Roots;
    ghost var s := Snap(g);
    g.gcstate := SwpAllGc;
    SnapSweep(g, s);
    ghost var t := Snap(g);
    BaseAside(s, t);
    SweptZero(g.mk, g.currentwhite, g.ls.allgc);
    var p := SweepToLive(g, AllGc, 0);
    ghost var u := Snap(g);
    WorkFacts(t, u);
    g.sweepgc := p;
    SnapSweep(g, u);
    BaseAside(u, Snap(g));
    NewRoots(s, Snap(g));
  }

  lemma SweptZero(mk: Marks, white: bool, l: seq<Id>)
    ensures Swept(mk, white, l, 0)
  {
  }

  lemma WorkFacts(s: State, t: State)
    requires SweepWork(s, t)
    ensures Base(t) && Live(t) == Live(s) && KeptLive(s.hp, t.hp, Live(s)) && MarksSwept(s.mk, t.mk, s.white)
    ensures t == s.(hp := t.hp, mk := t.mk, ls := t.ls)
  {
  }

  /** sweepstep for the list `w`: sweeps GCSWEEPMAX objects, or the whole list when fast;
      at the end of the list goes to the next state. */
  method SweepStep(g: GlobalState, w: Which, fast: bool)
    requires Valid(Snap(g)) && g.gckind.Incremental? && g.gcstate == Sweeping(w)
    modifies g`hp, g`mk, g`gray, g`ls, g`gcstate, g`sweepgc
    ensures Valid(Snap(g)) && Live(Snap(g)) == Live(old(Snap(g))) && KeptLive(old(g.hp), g.hp, Live(old(Snap(g))))
    ensures Roots(Snap(g)) <= Roots(old(Snap(g)))
    ensures if old(g.sweepgc).From? then g.gcstate == old(g.gcstate) && (fast ==> g.sweepgc.NoSweep?)
            else Snap(g) == old(Snap(g)).(at := AfterSweep(w), sweep := if w.ToBeFnz? then NoSweep else From(0))
  {
    hide Base, Live, KeptLive, SweepWork, SweptTo, Swept, MarkPhase, UpvalsOk, Partition, SweptUpTo, MarksSwept;
    ghost var s := Snap(g);
    BaseFacts(s);
    LiveSubset(s);
    KeptLiveNone(g.hp, Live(s));
    if g.sweepgc.From? {
      var i := g.sweepgc.i;
      SweepPlace(s, w);
      var p, k := SweepList(g, w, i, if fast then |ListOf(g.ls, w)| else GCSWEEPMAX);
      ghost var t := Snap(g);
      WorkFacts(s, t);
      g.sweepgc := p;
      SnapSweep(g, t);
      BaseAside(t, Snap(g));
      OthersSwept(s, t, Snap(g), w, i, k);
      SweptRoots(s, t, Snap(g), w, i, k);
    } else {
      g.gcstate := AfterSweep(w);
      g.sweepgc := if w.ToBeFnz? then NoSweep else From(0);
      SnapSweep(g, s);
      BaseAside(s, Snap(g));
      ListDone(s, Snap(g), w);
    }
  }

  const GCSWEEPMAX := 20

  function Sweeping(w: Which): GcState {
    match w case AllGc => SwpAllGc case FinObj => SwpFinObj case ToBeFnz => SwpToBeFnz
  }

  function AfterSweep(w: Which): GcState {
    match w case AllGc => SwpFinObj case FinObj => SwpToBeFnz case ToBeFnz => SwpEnd
  }

  lemma SweepPlace(s: State, w: Which)
    requires Phase(s) && s.at == Sweeping(w) && s.sweep.From?
    ensures s.sweep.i <= |ListOf(s.ls, w)| && Swept(s.mk, s.white, ListOf(s.ls, w), s.sweep.i)
  {
  }

  lemma SweptRoots(s: State, t: State, u: State, w: Which, i: nat, k: nat)
    requires SweptUpTo(s, t, w, i, k) && t.an == s.an && u.an == s.an && u.ls == t.ls
    ensures Roots(u) <= Roots(s)
  {
    hide Live;
    var l, l1 := ListOf(s.ls, w), ListOf(t.ls, w);
    StayLeaveMembers(Live(s), false, l[i..k]);
    forall x | x in l1 ensures x in l {
      assert l1 == l[..i] + Stay(Live(s), false, l[i..k]) + l[k..];
    }
    assert Elements(l1) <= Elements(l);
  }

  lemma ListDone(s: State, t: State, w: Which)
    requires Phase(s) && s.at == Sweeping(w) && s.sweep.NoSweep?
    requires t == s.(at := AfterSweep(w), sweep := if w.ToBeFnz? then NoSweep else From(0))
    ensures Phase(t)
  {
  }

  /** The lists swept before stay swept. */
  lemma OthersSwept(s: State, t: State, u: State, w: Which, i: nat, k: nat)
    requires Phase(s) && s.at == Sweeping(w) && SweepWork(s, t) && SweptUpTo(s, t, w, i, k) && u == t.(sweep := u.sweep)
    requires SweptTo(u.mk, u.white, ListOf(u.ls, w), u.sweep)
    ensures Phase(u)
  {
    hide Live, LiveClosed, Roots, KindsOk, TwupsOk, MetasOk, Partition, UpvalsOk, KeptLive, Swept, MarkPhase, Stay;
    if !w.AllGc? {
      SweptAfter(s, t, AllGc, s.ls.allgc, t.ls.allgc, |s.ls.allgc|);
    }
    if w.ToBeFnz? {
      SweptAfter(s, t, FinObj, s.ls.finobj, t.ls.finobj, |s.ls.finobj|);
    }
  }

  /** A cycle, while it is marking, stays within `c`, and within `c2` after resurrection. */
  ghost predicate Within(s: State, c: set<Id>, c2: set<Id>) {
    KeepInvariant(s.at) || s.at.Pause? ==> Covers(s, c) && CoversFin(s, c, c2)
  }

  /** Such sets always exist. */
  lemma WithinAll(s: State)
    requires Valid(s)
    ensures Within(s, Live(s), Live(s))
  {
    hide Live, Tricolor, AllSwept, HeapReady, UpvalsOk, MetasOk, TwupsOk, Partition, Enclosed;
    if KeepInvariant(s.at) || s.at.Pause? {
      if KeepInvariant(s.at) { MarkingFacts(s); } else { AllSweptFacts(s); }
      assert Live(s) == s.hp.Keys;
      ReadyEnclosed(s.hp, s.hp.Keys);
      LiveIsStrong(s);
      forall o | o in s.ls.tobefnz || o in s.ls.fixedgc || o in s.ls.finobj ensures o in Live(s) {
        PartitionFacts(s.hp, s.ls);
      }
      MarkedLive(s);
    }
  }

  lemma MarkedLive(s: State)
    ensures Marked(s.mk) <= Live(s)
  {
  }

  method StepPause(g: GlobalState, ghost c: set<Id>, ghost c2: set<Id>)
    requires Valid(Snap(g)) && g.gcstate.Pause? && Within(Snap(g), c, c2)
    modifies g`mk, g`gray, g`grayagain, g`weak, g`allweak, g`ephemeron, g`gcstate
    ensures Collected(old(Snap(g)), Snap(g), Live(old(Snap(g)))) && Within(Snap(g), c, c2) && g.gcstate.Propagate?
    ensures Live(Snap(g)) == Live(old(Snap(g)))
  {
    hide Base, MarkPhase, Live, KeptLive, Marked, HeapReady, Enclosed, AllSwept, Collected;
    ghost var s := Snap(g);
    RestartCollection(g, c);
    ghost var t := Snap(g);
    g.gcstate := Propagate;
    SnapSweep(g, t);
    BaseAside(t, Snap(g));
    MarkPhaseAside(t, Snap(g));
    AllSweptFacts(s);
    MarkingFacts(Snap(g));
    KeptLiveNone(s.hp, Live(s));
    CollectedQuietly(s, Snap(g));
  }

  lemma MarkPhaseAside(s: State, t: State)
    requires MarkPhase(s) && t == s.(at := t.at, sweep := t.sweep)
    ensures MarkPhase(t)
  {
  }

  method StepPropagate(g: GlobalState, fast: bool, ghost c: set<Id>, ghost c2: set<Id>)
    requires Valid(Snap(g)) && g.gcstate.Propagate? && Within(Snap(g), c, c2)
    modifies g`hp, g`mk, g`gray, g`grayagain, g`weak, g`allweak, g`ephemeron, g`twups, g`gcstate
    ensures Collected(old(Snap(g)), Snap(g), Live(old(Snap(g)))) && Within(Snap(g), c, c2)
    ensures Live(Snap(g)) == Live(old(Snap(g)))
    ensures if fast || old(g.gray) == [] then Snap(g) == old(Snap(g)).(at := EnterAtomic) else g.gcstate.Propagate?
  {
    hide Base, MarkPhase, Live, KeptLive, Marked, HeapReady, Enclosed, Collected, HeapShrunk, NothingLost;
    ghost var s := Snap(g);
    LiveSubset(s);
    if fast || g.gray == [] {
      g.gcstate := EnterAtomic;
      SnapSweep(g, s);
      BaseAside(s, Snap(g));
      MarkPhaseAside(s, Snap(g));
      KeptLiveNone(s.hp, Live(s));
      CollectedQuietly(s, Snap(g));
    } else {
      PropagateOne(g, c);
      ShrunkKeys(s.hp, g.hp);
      ShrunkEnclosed(s.hp, g.hp, c2);
      CollectedPropagate(s, Snap(g));
    }
  }

  lemma CollectedPropagate(s: State, t: State)
    requires Base(s) && Valid(t) && t.an == s.an && NothingLost(s.hp, t.hp) && Live(t) == Live(s) && t.ls == s.ls
    ensures Collected(s, t, Live(s))
  {
    hide UpvalsOk, MetasOk, TwupsOk, Partition, KindsOk, FinOk, LiveClosed, Phase, Live, StrongClosed;
    LiveIsStrong(s);
    LiveSubset(s);
  }

  method StepAtomic(g: GlobalState, ghost c: set<Id>, ghost c2: set<Id>) returns (ghost strong: set<Id>)
    requires Valid(Snap(g)) && g.gcstate.EnterAtomic? && g.ptr.finobjold1.Null? && g.gckind.Incremental?
      && Within(Snap(g), c, c2)
    modifies g`hp, g`mk, g`gray, g`grayagain, g`weak, g`allweak, g`ephemeron, g`twups
    modifies g`gcstate, g`ls, g`ptr, g`currentwhite, g`sweepgc
    ensures Collected(old(Snap(g)), Snap(g), strong)
    ensures strong <= c && Live(Snap(g)) <= c2 && g.gcstate.SwpAllGc? && g.ptr.finobjold1.Null?
  {
    hide Base, Undead, Live, KeptLive, Marked, Enclosed, Preserved, AtomicOutcome, SweepWork, Phase, StrongClosed,
      StrongSet, Within, UpvalsOk, Roots, HeapShrunk, WeakLoss;
    WithinNow(Snap(g), c, c2);
    ghost var s := Snap(g);
    strong := AtomicFromMarking(g, c, c2);
    ghost var t := Snap(g);
    EnterIsMarking(s);
    AtomicBase(s, t, strong);
    AtomicAt(s, t, strong);
    AtomicKeepsRoots(s, t, strong);
    EnterSweep(g);
    CollectedAtomic(s, t, Snap(g), strong);
  }

  lemma WithinNow(s: State, c: set<Id>, c2: set<Id>)
    requires Within(s, c, c2) && s.at.EnterAtomic?
    ensures Covers(s, c) && CoversFin(s, c, c2)
  {
  }

  lemma EnterIsMarking(s: State)
    requires Phase(s) && s.at.EnterAtomic?
    ensures MarkPhase(s) && Undead(s)
  {
  }

  lemma AtomicKeepsRoots(s: State, t: State, strong: set<Id>)
    requires Base(s) && Undead(s) && AtomicOutcome(s, t, strong) && Base(t) && Live(t) == Marked(t.mk)
    ensures Roots(t) == Roots(s) <= Live(t) <= s.hp.Keys && strong <= Live(t) && Live(s) == s.hp.Keys
      && UpvalsOk(s.hp) && HeapShrunk(s.hp, t.hp)
  {
    hide Live, HeapReady, StrongClosed, TwupsInv, UpvalsOk, MetasOk, TwupsOk, LiveClosed, Partition, FinSplit,
      OnlyWeakLost, HeapShrunk, RefsIn, MarksProgress;
    NoneDead(s);
    BaseFacts(t);
    LiveSubset(t);
    ShrunkKeys(s.hp, t.hp);
    AtomicLists(s, t, strong);
    FinRoots(s, t);
  }

  lemma FinRoots(s: State, t: State)
    requires t.an == s.an && t.ls == s.ls.(finobj := t.ls.finobj, tobefnz := t.ls.tobefnz)
    requires forall x :: x in s.ls.finobj || x in s.ls.tobefnz <==> x in t.ls.finobj || x in t.ls.tobefnz
    ensures Roots(s) == Roots(t)
  {
    assert Elements(s.ls.finobj) + Elements(s.ls.tobefnz) == Elements(t.ls.finobj) + Elements(t.ls.tobefnz);
  }

  lemma AtomicAt(s: State, t: State, strong: set<Id>)
    requires AtomicOutcome(s, t, strong)
    ensures t.at.Atomic? && t.an == s.an && strong <= Marked(t.mk)
  {
  }

  /** Everything strongly reachable survives the first step of the sweep too. */
  lemma CollectedAtomic(s: State, t: State, u: State, strong: set<Id>)
    requires Base(s) && Base(t) && Base(u) && StrongSet(s, strong) && u.an == s.an && UpvalsOk(s.hp)
      && Roots(u) <= Roots(s)
    requires strong <= Live(t) && Roots(s) <= Live(t) && Live(t) <= s.hp.Keys && strong <= s.hp.Keys
    requires forall o :: o in Live(s) ==> o in t.hp && WeakLoss(s.hp, s.hp[o], t.hp[o], strong)
    requires Live(s) == s.hp.Keys && KeptLive(t.hp, u.hp, Live(t)) && Live(u) == Live(t) && HeapShrunk(s.hp, t.hp)
    ensures Preserved(s, u, strong)
  {
    hide Base, Live, Phase, UpvalsOk, StrongSet, Roots, HeapShrunk;
    SameShapes(s.hp, t.hp);
    forall o | o in strong || o in Roots(s) ensures Keeps(s.hp, u.hp, o, strong) {
      KeepsBoth(s.hp, t.hp, u.hp, Live(t), o, strong);
    }
  }

  lemma KeepsBoth(h0: Heap, h1: Heap, h2: Heap, live: set<Id>, o: Id, strong: set<Id>)
    requires UpvalsOk(h0) && o in h0 && o in live && KeptLive(h1, h2, live)
    requires forall x :: x in h0 ==> x in h1 && WeakLoss(h0, h0[x], h1[x], strong)
    ensures Keeps(h0, h2, o, strong)
  {
    assert WeakLoss(h0, h0[o], h1[o], strong);
    if h1[o] != h2[o] {
      assert h1[o] == h0[o];
      assert WeakLoss(h0, h0[h0[o].th], h1[h0[o].th], strong);
    }
  }

  method StepSweep(g: GlobalState, w: Which, fast: bool)
    requires Valid(Snap(g)) && g.gckind.Incremental? && g.gcstate == Sweeping(w)
    modifies g`hp, g`mk, g`gray, g`ls, g`gcstate, g`sweepgc
    ensures Collected(old(Snap(g)), Snap(g), Live(old(Snap(g)))) && Live(Snap(g)) == Live(old(Snap(g)))
    ensures if old(g.sweepgc).From? then g.gcstate == old(g.gcstate) && (fast ==> g.sweepgc.NoSweep?)
            else g.gcstate == AfterSweep(w)
  {
    hide Base, Live, KeptLive, Phase, Collected;
    ghost var s := Snap(g);
    SweepStep(g, w, fast);
    CollectedQuietly(s, Snap(g));
  }

  /** udata2finalize: the first object to be finalized is a normal object again. */
  function Finalized(s: State): State
    requires s.ls.tobefnz != [] && s.ls.tobefnz[0] in s.mk
  {
    var o := s.ls.tobefnz[0];
    s.(mk := s.mk[o := s.mk[o].(fin := false)], ls := s.ls.(tobefnz := s.ls.tobefnz[1..], allgc := [o] + s.ls.allgc))
  }

  lemma FinalizedKeeps(s: State)
    requires Base(s) && s.ls.tobefnz != [] && s.ls.tobefnz[0] in s.mk
    ensures Base(Finalized(s)) && Live(Finalized(s)) == Live(s) && s.ls.tobefnz[0] in Live(s)
    ensures s.at.CallFin? && Phase(s) ==> Phase(Finalized(s))
  {
    hide UpvalsOk, MetasOk, LiveClosed, TwupsOk, KindsOk, FinOk, Partition, Roots, Swept;
    var t, o := Finalized(s), s.ls.tobefnz[0];
    assert s.ls.tobefnz == [o] + s.ls.tobefnz[1..];
    assert Live(t) == Live(s);
    FinalizedLists(s, t, o);
    FinalizedRoots(s, t, o);
    FinalizedKinds(s, o);
    if s.at.CallFin? && Phase(s) { SweptFinal(s, t, o); }
  }

  /** Between young collections the object goes to the head of `allgc` whatever its age. */
  lemma FinalizedGen(s: State, p: Pointers)
    requires GenInv(s, p) && s.ls.tobefnz != [] && s.ls.tobefnz[0] in s.mk && Base(Finalized(s))
    ensures var o := s.ls.tobefnz[0];
      GenInv(Finalized(s), p.(firstold1 := if s.mk[o].age.Old1? then To(o) else p.firstold1))
  {
    hide Base, AllAged, Queued, Chain, First, Ranks;
    var t, o := Finalized(s), s.ls.tobefnz[0];
    BaseFacts(s);
    FinBitAged(s.hp, s.mk, s.gray, s.links.grayagain, s.white, t.mk);
    ChainsAges(s.mk, t.mk, s.ls, p);
    ChainCons(t.mk, s.ls.allgc, p.survival, p.old1, p.reallyold, o);
    FirstCons(t.mk, s.ls.allgc, p.firstold1, o);
  }

  lemma FinalizedLists(s: State, t: State, o: Id)
    requires Partition(s.hp, s.ls) && s.ls.tobefnz != [] && s.ls.tobefnz == [o] + s.ls.tobefnz[1..] && t.hp == s.hp
    requires t.ls == s.ls.(tobefnz := s.ls.tobefnz[1..], allgc := [o] + s.ls.allgc)
    ensures Partition(t.hp, t.ls)
  {
    assert multiset([o] + s.ls.allgc) == multiset{o} + multiset(s.ls.allgc);
    assert multiset(s.ls.tobefnz) == multiset{o} + multiset(s.ls.tobefnz[1..]);
  }

  lemma FinalizedRoots(s: State, t: State, o: Id)
    requires s.ls.tobefnz != [] && s.ls.tobefnz == [o] + s.ls.tobefnz[1..] && t.an == s.an
      && t.ls == s.ls.(tobefnz := s.ls.tobefnz[1..], allgc := [o] + s.ls.allgc)
    ensures Roots(t) <= Roots(s) && o in Roots(s)
  {
    assert o in s.ls.tobefnz;
    assert o in Elements(s.ls.tobefnz);
  }

  lemma FinalizedKinds(s: State, o: Id)
    requires Base(s) && s.ls.tobefnz != [] && o == s.ls.tobefnz[0] && o in s.mk
    ensures var t := Finalized(s); KindsOk(t.hp, t.mk, t.ls, t.an) && FinOk(t.mk, t.ls)
  {
    hide UpvalsOk, MetasOk, LiveClosed, TwupsOk, Live, Roots;
    PartitionFacts(s.hp, s.ls);
    var l := s.ls.tobefnz;
    assert l == [o] + l[1..];
    assert multiset(l)[o] == 1 + multiset(l[1..])[o];
    InMultiset(l[1..], o);
    assert forall x :: x in l <==> x == o || x in l[1..];
  }

  lemma SweptFinal(s: State, t: State, o: Id)
    requires AllSwept(s.mk, s.white, s.ls) && s.ls.tobefnz != [] && s.ls.tobefnz == [o] + s.ls.tobefnz[1..] && o in s.mk
    requires t.mk == s.mk[o := s.mk[o].(fin := false)] && t.white == s.white
    requires t.ls == s.ls.(tobefnz := s.ls.tobefnz[1..], allgc := [o] + s.ls.allgc)
    ensures AllSwept(t.mk, t.white, t.ls)
  {
    assert s.mk[o].color == White(s.white) && s.mk[o].age.New? by { assert s.ls.tobefnz[0] == o; }
    assert forall j :: 0 < j < |t.ls.allgc| ==> t.ls.allgc[j] == s.ls.allgc[j - 1];
    assert forall j :: 0 <= j < |t.ls.tobefnz| ==> t.ls.tobefnz[j] == s.ls.tobefnz[j + 1];
  }

  /** GCTM: takes the next object to be finalized and, when it has a finalizer `tm`,
      pushes both on the stack of the running thread. The call itself is the program's. */
  method GCTM(g: GlobalState, tm: Value) returns (o: Id)
    requires Ok(g) && (g.gcstate.CallFin? || g.gckind.GenMinor?) && g.ls.tobefnz != [] && In(tm, Live(Snap(g)))
    modifies g`hp, g`mk, g`ls, g`ptr
    ensures Ok(g) && Live(Snap(g)) == Live(old(Snap(g))) && g.ptr == old(g.ptr).(firstold1 := g.ptr.firstold1)
    ensures o == old(g.ls).tobefnz[0] && o in g.mk && !g.mk[o].fin
    ensures g.ls == old(g.ls).(tobefnz := old(g.ls).tobefnz[1..], allgc := [o] + old(g.ls).allgc)
    ensures g.an.running in old(g.hp) && old(g.hp)[g.an.running].Thread?
    ensures var r := g.an.running;
      g.hp == if tm == Nil then old(g.hp)
        else old(g.hp)[r := Thread(old(g.hp)[r].stack + [tm, Ref(o)], old(g.hp)[r].upvals)]
  {
    hide Base, Live, Phase, GenInv, RefSet, ValueSet;
    ghost var s := Snap(g);
    OkBase(g);
    FirstToFinalize(s);
    FinalizedKeeps(s);
    if g.gckind.GenMinor? { FinalizedGen(s, g.ptr); }
    o := g.ls.tobefnz[0];
    g.ls := g.ls.(tobefnz := g.ls.tobefnz[1..], allgc := [o] + g.ls.allgc);
    g.mk := g.mk[o := g.mk[o].(fin := false)];
    if g.mk[o].age.Old1? {
      g.ptr := g.ptr.(firstold1 := To(o));
    }
    SnapList(g, s);
    assert Snap(g) == Finalized(s);
    if tm != Nil {
      var r := g.an.running;
      PushOk(Snap(g), r, [tm, Ref(o)]);
      SetStack(g, r, g.hp[r].stack + [tm, Ref(o)]);
    }
  }

  lemma FirstToFinalize(s: State)
    requires Base(s) && s.ls.tobefnz != []
    ensures s.ls.tobefnz[0] in s.mk && s.an.running in s.hp && s.hp[s.an.running].Thread?
  {
  }

  lemma PushOk(s: State, r: Id, vs: seq<Value>)
    requires Base(s) && r == s.an.running && AllIn(vs, Live(s))
    ensures r in s.hp && s.hp[r].Thread?
      && StoreOk(s, r, Thread(s.hp[r].stack + vs, s.hp[r].upvals), s.hp[r].stack + vs)
  {
    hide MetasOk, TwupsOk, Partition, FinOk;
    assert r in Roots(s);
    assert RefsIn(s.hp, s.hp[r], Live(s));
    ValueSetIn(s.hp[r].stack + vs, Live(s));
    forall i | 0 <= i < |s.hp[r].upvals| ensures s.hp[r].upvals[i] in s.hp && s.hp[s.hp[r].upvals[i]].OpenUpval? {}
  }

  method StepCallFin(g: GlobalState, mayCall: bool, tm: Value)
    requires Valid(Snap(g)) && !g.gckind.GenMinor? && g.gcstate.CallFin? && In(tm, Live(Snap(g)))
    modifies g`hp, g`mk, g`ls, g`gcstate, g`ptr
    ensures Valid(Snap(g)) && Live(Snap(g)) == Live(old(Snap(g))) && g.ptr == old(g.ptr).(firstold1 := g.ptr.firstold1)
    ensures if old(g.ls).tobefnz != [] && mayCall
            then g.gcstate.CallFin? && g.ls ==
              old(g.ls).(tobefnz := old(g.ls).tobefnz[1..], allgc := [old(g.ls).tobefnz[0]] + old(g.ls).allgc)
                 && g.an.running in old(g.hp) && old(g.hp)[g.an.running].Thread?
                 && g.hp == if tm == Nil then old(g.hp)
                            else old(g.hp)[g.an.running :=
                              Thread(old(g.hp)[g.an.running].stack + [tm, Ref(old(g.ls).tobefnz[0])],
                              old(g.hp)[g.an.running].upvals)]
            else Snap(g) == old(Snap(g)).(at := Pause)
  {
    hide Base, Live, MarkPhase, AllSwept;
    if g.ls.tobefnz != [] && mayCall {
      var o := GCTM(g, tm);
    } else {
      ghost var s := Snap(g);
      g.gcstate := Pause;
      SnapSweep(g, s);
      BaseAside(s, Snap(g));
    }
  }

  method StepEnd(g: GlobalState)
    requires Valid(Snap(g)) && g.gcstate.SwpEnd?
    modifies g`gcstate
    ensures Valid(Snap(g)) && Snap(g) == old(Snap(g)).(at := CallFin) && Live(Snap(g)) == Live(old(Snap(g)))
  {
    hide Base, Live, MarkPhase, AllSwept;
    ghost var s := Snap(g);
    g.gcstate := CallFin;
    SnapSweep(g, s);
    BaseAside(s, Snap(g));
  }

  /** What a step of the collector guarantees, the pushing of a finalizer aside. */
  ghost predicate Stepped(s: State, t: State, strong: set<Id>) {
    if s.at.SwpEnd? then
      Valid(t) && t == s.(at := CallFin) && strong == Live(s)
    else if s.at.CallFin? then
      Valid(t) && Live(t) == Live(s) && t.hp.Keys == s.hp.Keys && t.an == s.an && strong == Live(s)
      && forall o :: o in s.hp && o != s.an.running ==> t.hp[o] == s.hp[o]
    else Collected(s, t, strong)
  }

  /** The state a fast step goes to. */
  predicate Advances(s: State, t: State) {
    match s.at
    case Pause => t.at.Propagate?
    case Propagate => t.at.EnterAtomic?
    case EnterAtomic => t.at.SwpAllGc?
    case SwpAllGc => if s.sweep.From? then t.at.SwpAllGc? && t.sweep.NoSweep? else t.at.SwpFinObj?
    case SwpFinObj => if s.sweep.From? then t.at.SwpFinObj? && t.sweep.NoSweep? else t.at.SwpToBeFnz?
    case SwpToBeFnz => if s.sweep.From? then t.at.SwpToBeFnz? && t.sweep.NoSweep? else t.at.SwpEnd?
    case SwpEnd => t.at.CallFin?
    case CallFin => if t.at.CallFin? then |t.ls.tobefnz| < |s.ls.tobefnz| else t.at.Pause?
    case Atomic => false
  }

  /** singlestep. `mayCall` says that finalizers may run: there is stack, and this is no
      emergency collection. `tm` is the finalizer of the first object to be finalized. */
  method SingleStep(g: GlobalState, fast: bool, mayCall: bool, tm: Value, ghost c: set<Id>, ghost c2: set<Id>)
    returns (ghost strong: set<Id>)
    requires Valid(Snap(g)) && g.gckind.Incremental? && g.ptr.finobjold1.Null?
    requires Within(Snap(g), c, c2) && In(tm, Live(Snap(g)))
    modifies g`hp, g`mk, g`gray, g`grayagain, g`weak, g`allweak, g`ephemeron, g`twups
    modifies g`gcstate, g`ls, g`ptr, g`currentwhite, g`sweepgc
    ensures Stepped(old(Snap(g)), Snap(g), strong) && Valid(Snap(g))
    ensures g.ptr.finobjold1.Null?
    ensures old(g.gcstate).Pause? || old(g.gcstate).Propagate? ==> Within(Snap(g), c, c2)
    ensures old(g.gcstate).EnterAtomic? ==> strong <= c && Live(Snap(g)) <= c2
    ensures !old(g.gcstate).EnterAtomic? ==> strong == Live(old(Snap(g))) == Live(Snap(g))
    ensures fast ==> Advances(old(Snap(g)), Snap(g))
    ensures !mayCall && old(g.gcstate).CallFin? ==> Snap(g) == old(Snap(g)).(at := Pause)
  {
    hide Base, Phase, Live, Within, Collected;
    strong := Live(Snap(g));
    ghost var s := Snap(g);
    NeverAtomic(s);
    match g.gcstate {
      case Pause => StepPause(g, c, c2); CollectedValid(s, Snap(g), strong);
      case Propagate => StepPropagate(g, fast, c, c2); CollectedValid(s, Snap(g), strong);
      case EnterAtomic => strong := StepAtomic(g, c, c2); CollectedValid(s, Snap(g), strong);
      case SwpAllGc => StepSweep(g, AllGc, fast); CollectedValid(s, Snap(g), strong);
      case SwpFinObj => StepSweep(g, FinObj, fast); CollectedValid(s, Snap(g), strong);
      case SwpToBeFnz => StepSweep(g, ToBeFnz, fast); CollectedValid(s, Snap(g), strong);
      case SwpEnd => StepEnd(g);
      case CallFin => StepCallFin(g, mayCall, tm);
      case Atomic => assert false;
    }
  }

  lemma CollectedValid(s: State, t: State, strong: set<Id>)
    requires Collected(s, t, strong)
    ensures Valid(t)
  {
  }

  lemma NeverAtomic(s: State)
    requires Phase(s)
    ensures !s.at.Atomic?
  {
  }
}
