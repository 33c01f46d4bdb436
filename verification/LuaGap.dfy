/** A store in generational mode after which an old object comes to refer to a new one unnoticed,
    and two young collections after which it refers to a freed one. */
module LuaGap {
  import opened LuaHeap
  import opened LuaMarks
  import opened LuaLists
  import opened LuaTricolor
  import opened LuaGc
  import opened LuaState
  import opened LuaGen
  import opened LuaSweep
  import opened LuaMutator
  import opened LuaYoung
  import opened LuaUnseen

  const MAIN: Id := 0
  const UPVAL: Id := 1
  const UDATA: Id := 2
  const META: Id := 3
  const TABLE: Id := 4
  const CLOS: Id := 5

  const EMPTY := Table(Nil, Strong, [], [])

  /** A table with weak values, its own metatable, with one slot. */
  function Weak(v: Value): Object {
    Table(Ref(TABLE), WeakValues, [v], [])
  }

  /** An old closure with its upvalue and an old table; a new userdata without user values, with a
      new metatable. */
  const HEAP: Heap := map[MAIN := Thread([Ref(CLOS), Ref(UDATA), Ref(TABLE)], []), UPVAL := ClosedUpval(Nil),
                          UDATA := Udata(Ref(META), []), META := EMPTY, TABLE := Weak(Nil),
                          CLOS := Closure([Ref(UPVAL)])]

  const MARKS: Marks := map[MAIN := Mark(Gray, Old, false), UPVAL := Mark(Black, Old, false),
                            UDATA := Mark(White(false), New, false), META := Mark(White(false), New, false),
                            TABLE := Mark(Black, Old, false), CLOS := Mark(Black, Old, false)]

  const OBJECTS := Objects([UDATA, META, CLOS, UPVAL, TABLE, MAIN], [], [], [])

  const ANCHORS := Anchors(MAIN, MAIN, Nil, [])

  /** Between two collections, with the thread waiting for the next one. */
  function Around(hp: Heap, mk: Marks, gray: seq<Id>): State {
    State(hp, mk, gray, Links([MAIN], [], [], []), OBJECTS, ANCHORS, [], false, Propagate, NoSweep)
  }

  const POINTERS := Pointers(To(CLOS), To(CLOS), To(CLOS), Null, Null, Null, Null)

  const ALL: set<Id> := {MAIN, UPVAL, UDATA, META, TABLE, CLOS}

  /** The six objects of the heap: what the upvalue holds, the metatable of the userdata and the
      slot of the weak table. */
  predicate Six(hp: Heap, up: Value, me: Value, entry: Value) {
    && hp.Keys == ALL
    && hp[MAIN] == Thread([Ref(CLOS), Ref(UDATA), Ref(TABLE)], []) && hp[UPVAL] == ClosedUpval(up)
    && hp[UDATA] == Udata(me, []) && hp[META] == EMPTY && hp[TABLE] == Weak(entry)
    && hp[CLOS] == Closure([Ref(UPVAL)])
  }

  predicate SixMarks(mk: Marks) {
    && mk.Keys == ALL
    && mk[MAIN] == Mark(Gray, Old, false) && mk[UPVAL] == Mark(Black, Old, false)
      && mk[TABLE] == Mark(Black, Old, false) && mk[CLOS] == Mark(Black, Old, false)
    && mk[UDATA] == Mark(White(false), New, false) && mk[META] == Mark(White(false), New, false)
  }

  /** The state. */
  predicate IsStart(s: State) {
    Six(s.hp, Nil, Ref(META), Nil) && SixMarks(s.mk) && s == Around(s.hp, s.mk, [])
  }

  lemma StartShape()
    ensures IsStart(Around(HEAP, MARKS, []))
  {
  }

  /** Values the three slots hold in what follows. */
  predicate Among(up: Value, me: Value, entry: Value) {
    (up == Nil || up == Ref(UDATA)) && (me == Nil || me == Ref(META)) && (entry == Nil || entry == Ref(META))
  }

  lemma SixClosed(hp: Heap, up: Value, me: Value, entry: Value)
    requires Six(hp, up, me, entry) && Among(up, me, entry)
    ensures UpvalsOk(hp) && MetasOk(hp, hp.Keys) && LiveClosed(hp, hp.Keys) && Closed(hp) && Plain(hp, TABLE)
  {
    SixMetas(hp, up, me, entry);
    forall o | o in hp ensures !hp[o].OpenUpval? && RefsIn(hp, hp[o], hp.Keys) && PlainObject(hp[o], o == TABLE)
      && (hp[o].Thread? ==> hp[o].upvals == []) {}
    NoneOpen(hp);
    hide Six, UpvalsOk, MetasOk;
  }

  lemma SixMetas(hp: Heap, up: Value, me: Value, entry: Value)
    requires Six(hp, up, me, entry) && Among(up, me, entry)
    ensures MetasOk(hp, hp.Keys)
  {
    assert hp[META].Table? && hp[TABLE].Table?;
  }

  lemma NoneOpen(hp: Heap)
    requires forall o :: o in hp ==> !hp[o].OpenUpval? && (hp[o].Thread? ==> hp[o].upvals == [])
    ensures UpvalsOk(hp)
  {
  }

  /** Without the metatable: nothing but the weak table refers to it. */
  lemma SixEnclosed(hp: Heap, up: Value, entry: Value)
    requires Six(hp, up, Nil, entry) && Among(up, Nil, entry)
    ensures Enclosed(hp, ALL - {META})
  {
    forall o | o in ALL - {META}
      ensures StrongRefsIn(hp, hp[o], ALL - {META}) && StringsIn(hp, hp[o], ALL - {META})
    {
    }
  }

  lemma SixPartition(hp: Heap)
    requires hp.Keys == ALL
    ensures Partition(hp, OBJECTS)
  {
    SixLinked();
  }

  lemma SixLinked()
    ensures multiset(OBJECTS.allgc) == multiset(ALL)
  {
    assert multiset(ALL) == multiset{MAIN, UPVAL, UDATA, META, TABLE, CLOS};
    assert multiset(OBJECTS.allgc) == multiset{MAIN, UPVAL, UDATA, META, TABLE, CLOS};
  }

  lemma SixLive(s: State)
    requires SixMarks(s.mk) && !s.white
    ensures Live(s) == s.mk.Keys
  {
  }

  lemma SixKinds(hp: Heap, mk: Marks, ls: Objects, an: Anchors)
    requires Six(hp, Nil, Ref(META), Nil) && SixMarks(mk) && ls == OBJECTS && an == ANCHORS
    ensures TwupsOk(hp, mk.Keys, []) && KindsOk(hp, mk, ls, an) && FinOk(mk, ls)
  {
  }

  lemma SixRoots(s: State)
    requires s.ls == OBJECTS && s.an == ANCHORS
    ensures Roots(s) == {MAIN}
  {
    assert ValueSet([Nil]) == {} && ValueSet([]) == {};
    assert Elements<Id>([]) == {};
  }

  lemma StartBase(s: State)
    requires IsStart(s)
    ensures Base(s) && Live(s) == s.hp.Keys
  {
    SixClosed(s.hp, Nil, Ref(META), Nil);
    SixPartition(s.hp);
    SixLive(s);
    SixKinds(s.hp, s.mk, s.ls, s.an);
    SixRoots(s);
    hide LiveClosed, UpvalsOk, MetasOk, Partition, Live, TwupsOk, KindsOk, FinOk, Roots;
  }

  lemma SixAged(hp: Heap, mk: Marks)
    requires Six(hp, Nil, Ref(META), Nil) && SixMarks(mk)
    ensures AllAged(hp, mk, [], [MAIN], false)
  {
    assert Olds(mk) == {MAIN, UPVAL, TABLE, CLOS};
  }

  lemma SixQueued(hp: Heap, mk: Marks)
    requires Six(hp, Nil, Ref(META), Nil) && SixMarks(mk)
    ensures Queued(hp, mk, [], [MAIN]) && Ranks(hp, mk)
  {
  }

  lemma SixChains(mk: Marks)
    requires SixMarks(mk)
    ensures Chains(mk, OBJECTS, POINTERS)
  {
    var l := OBJECTS.allgc;
    assert ChainAt(mk, l, To(CLOS), To(CLOS), To(CLOS), 2, 2, 2);
    assert FirstAt(mk, l, Null, 6);
    assert ChainAt(mk, [], Null, Null, Null, 0, 0, 0);
  }

  lemma StartInv(s: State)
    requires IsStart(s)
    ensures GenInv(s, POINTERS)
  {
    hide Base, AllAged, Queued, Chains, Ranks;
    StartBase(s);
    SixAged(s.hp, s.mk);
    SixQueued(s.hp, s.mk);
    SixChains(s.mk);
  }

  lemma StartStore(s: State)
    requires IsStart(s)
    ensures StoreOk(s, UPVAL, ClosedUpval(Ref(UDATA)), [Ref(UDATA)]) && Breaks(s, true, UPVAL, Ref(UDATA))
  {
    SixLive(s);
    hide Live;
    OneValue(UDATA);
  }

  lemma OneValue(o: Id)
    ensures ValueSet([Ref(o)]) == {o}
  {
    assert [Ref(o)][0] == Ref(o);
    assert o in ValueSet([Ref(o)]);
  }

  /** The userdata was stored in the upvalue, and the forward barrier has done what it does. */
  ghost predicate AfterBarrier(s: State, t: State) {
    Forwarded(s, t, UPVAL, Ref(UDATA)) && t.hp == s.hp[UPVAL := ClosedUpval(Ref(UDATA))]
  }

  /** Everything is marked, the userdata is old0, and the metatable is still new. */
  predicate MetaNew(mk: Marks) {
    && mk.Keys == ALL && (forall o :: o in mk ==> !mk[o].color.White?)
    && (forall o :: o in mk ==> mk[o].age == if o == UDATA then Old0 else if o == META then New else Old)
    && mk[TABLE] == Mark(Black, Old, false)
  }

  lemma BarrierLeaves(s: State, t: State)
    requires IsStart(s) && AfterBarrier(s, t)
    ensures Six(t.hp, Ref(UDATA), Ref(META), Nil) && MetaNew(t.mk) && Waitings(t.hp, t.mk, TABLE, t.gray, [MAIN])
    ensures t == Around(t.hp, t.mk, t.gray)
  {
    hide Marking, Once, MarksPast, NeedsVisit, Marked, MetaNew;
    assert NeedsBarrier(s.mk, UPVAL, Ref(UDATA));
    assert Barriered(t, s.mk, s.gray, UPVAL, UDATA);
    var m := t.mk[UDATA := t.mk[UDATA].(age := New)];
    MetaMarked(t.hp, s.mk, m, t.gray) by { MarkedMeans(t.mk, UDATA); }
    FirstWaits(t.hp, s.mk);
    UnseenMarking(t.hp, s.mk, [], m, t.gray, TABLE, [MAIN]);
    WaitingAges(t.hp, m, t.mk, t.gray);
    UdataOld(s.mk, m, t.mk);
  }

  lemma UdataOld(m0: Marks, m: Marks, m1: Marks)
    requires SixMarks(m0) && m.Keys == ALL && (forall o :: o in m ==> !m[o].color.White? && m[o].age == m0[o].age)
    requires m[TABLE] == m0[TABLE] && UDATA in m1 && m1 == m[UDATA := m1[UDATA]]
    requires m1[UDATA].age.Old0? && !m1[UDATA].color.White?
    ensures MetaNew(m1)
  {
  }

  lemma MarkedMeans(mk: Marks, o: Id)
    requires o in Marked(mk)
    ensures o in mk && !mk[o].color.White?
  {
  }

  /** Marking the userdata marks its metatable at once. */
  lemma MetaMarked(hp: Heap, m0: Marks, m: Marks, gray: seq<Id>)
    requires Six(hp, Ref(UDATA), Ref(META), Nil) && SixMarks(m0) && Marking(hp, m0, [], m, gray)
    requires UDATA in m && !m[UDATA].color.White?
    ensures m.Keys == ALL && (forall o :: o in m ==> !m[o].color.White? && m[o].age == m0[o].age)
    ensures m[TABLE] == m0[TABLE]
  {
    assert UDATA in NewlyMarked(m0, m) && JustMarked(hp, m, UDATA);
    assert META in Marked(m);
    hide JustMarked, NewlyGray, RefsIn;
    forall o | o in m ensures !m[o].color.White? {
      if o != META && o != UDATA { assert !m0[o].color.White?; }
    }
  }

  lemma FirstWaits(hp: Heap, mk: Marks)
    requires Six(hp, Ref(UDATA), Ref(META), Nil) && SixMarks(mk)
    ensures Waitings(hp, mk, TABLE, [], [MAIN])
  {
  }

  lemma WaitingAges(hp: Heap, m: Marks, m1: Marks, gray: seq<Id>)
    requires Waitings(hp, m, TABLE, gray, [MAIN]) && m.Keys == m1.Keys
    requires forall o :: o in m ==> m1[o].color == m[o].color
    ensures Waitings(hp, m1, TABLE, gray, [MAIN])
  {
    hide Once;
    forall o | o in gray || o in [MAIN] ensures Waiting(hp, m1, TABLE, o) { assert Waiting(hp, m, TABLE, o); }
  }

  /** The metatable can be stored in the old table without a barrier, and then an old object
      that is in no list refers to a new one. */
  ghost predicate Unnoticed(t: State) {
    && TABLE in t.mk && META in t.mk && !NeedsBarrier(t.mk, TABLE, Ref(META))
    && t.mk[TABLE].age.Old? && TABLE !in t.gray && TABLE !in t.links.grayagain && t.mk[META].age.New?
    && !RefsIn(t.hp, Weak(Ref(META)), Olds(t.mk))
  }

  /** In a state that has the generational invariant the userdata is stored in the upvalue. The
      forward barrier makes it old and marks its metatable, which stays new; from then on old
      objects may come to refer to the metatable unnoticed. */
  lemma OldToNew(s: State)
    requires IsStart(s)
    ensures GenInv(s, POINTERS) && StoreOk(s, UPVAL, ClosedUpval(Ref(UDATA)), [Ref(UDATA)])
    ensures Breaks(s, true, UPVAL, Ref(UDATA))
    ensures forall t :: AfterBarrier(s, t) ==> Unnoticed(t)
  {
    hide GenInv, StoreOk, Breaks, AfterBarrier, Unnoticed, IsStart;
    StartInv(s);
    StartStore(s);
    forall t | AfterBarrier(s, t) ensures Unnoticed(t) {
      GapOpen(s, t);
    }
  }

  lemma GapOpen(s: State, t: State)
    requires IsStart(s) && AfterBarrier(s, t)
    ensures Unnoticed(t)
  {
    hide Marking, Forwarded, Once;
    BarrierLeaves(s, t);
    assert TABLE in t.gray ==> Waiting(t.hp, t.mk, TABLE, TABLE);
    assert Weak(Ref(META)).arr[0] == Ref(META) && META !in Olds(t.mk);
  }

  /** All that a young collection asks for. */
  lemma ReadyFrom(g: GlobalState, c: set<Id>, a: nat)
    requires g.hp.Keys == g.mk.Keys == ALL && HeapReady(g.hp, c) && Plain(g.hp, TABLE) && Marked(g.mk) <= c <= ALL
    requires MAIN in c && g.mk[TABLE] == Mark(Black, Old, false) && Old1sDone(g.hp, g.mk, OBJECTS.allgc)
    requires Waitings(g.hp, g.mk, TABLE, g.gray, g.grayagain)
    requires g.weak == g.allweak == g.ephemeron == g.twups == [] && g.gcstate.Propagate?
    requires g.ls == OBJECTS && g.an == ANCHORS && (g.ptr.firstold1.To? ==> g.ptr.firstold1.id in g.ls.allgc)
    requires a <= 2 && PointsAt(g.ptr.survival, OBJECTS.allgc, a) && PointsAt(g.ptr.old1, OBJECTS.allgc, 2)
    ensures YoungReady(g, TABLE, c, a, 2)
  {
    hide HeapReady, Plain, Marked, Old1sDone, Waitings, PointsAt, NoneTwice;
    FirstList();
    assert g.grayagain + [] == g.grayagain;
  }

  /** The state in which the first collection starts: the metatable was stored in the table. */
  lemma FirstReady(g: GlobalState, t: State)
    requires Six(t.hp, Ref(UDATA), Ref(META), Nil) && MetaNew(t.mk) && Waitings(t.hp, t.mk, TABLE, t.gray, [MAIN])
    requires Snap(g) == t.(hp := t.hp[TABLE := Weak(Ref(META))]) && t == Around(t.hp, t.mk, t.gray) && g.ptr == POINTERS
    ensures Six(g.hp, Ref(UDATA), Ref(META), Ref(META)) && YoungReady(g, TABLE, ALL, 2, 2)
  {
    hide HeapReady, Plain, Marked, Old1sDone, Waitings, PointsAt, NoneTwice, Six, MetaNew, YoungReady;
    FirstHeap(g.hp, t.hp, t.mk, t.gray);
    FirstList();
    FirstOld1s(g.hp, g.mk);
    ReadyFrom(g, ALL, 2);
  }

  lemma FirstOld1s(hp: Heap, mk: Marks)
    requires hp.Keys == ALL && MetaNew(mk)
    ensures Old1sDone(hp, mk, OBJECTS.allgc) && Marked(mk) <= ALL && mk.Keys == ALL
      && mk[TABLE] == Mark(Black, Old, false)
  {
  }

  lemma FirstList()
    ensures NoneTwice(OBJECTS.allgc) && forall o :: o in OBJECTS.allgc <==> o in ALL
    ensures OBJECTS.allgc[..2] == [UDATA, META]
    ensures PointsAt(To(CLOS), OBJECTS.allgc, 2) && PointsAt(To(UDATA), OBJECTS.allgc, 0)
  {
  }

  lemma FirstHeap(h1: Heap, hp: Heap, mk: Marks, gray: seq<Id>)
    requires Six(hp, Ref(UDATA), Ref(META), Nil) && h1 == hp[TABLE := Weak(Ref(META))]
    requires Waitings(hp, mk, TABLE, gray, [MAIN])
    ensures Six(h1, Ref(UDATA), Ref(META), Ref(META)) && HeapReady(h1, ALL) && Plain(h1, TABLE) && h1.Keys == ALL
    ensures Waitings(h1, mk, TABLE, gray, [MAIN])
  {
    SixClosed(h1, Ref(UDATA), Ref(META), Ref(META));
    AllIsEnclosed(h1);
    hide Six, Once, UpvalsOk, MetasOk, Closed, Enclosed, LiveClosed, Plain;
    WaitingsElsewhere(hp, h1, mk, TABLE, gray, [MAIN]);
  }

  lemma WaitingsElsewhere(hp: Heap, h1: Heap, mk: Marks, t: Id, gray: seq<Id>, again: seq<Id>)
    requires Waitings(hp, mk, t, gray, again) && forall o :: o in hp && o != t && NeedsVisit(hp[o]) ==>
      o in h1 && h1[o] == hp[o]
    ensures Waitings(h1, mk, t, gray, again)
  {
    hide NeedsVisit, Once;
    forall o | o in gray || o in again ensures Waiting(h1, mk, t, o) { assert Waiting(hp, mk, t, o); }
  }

  /** What the first collection leaves: the metatable white again, and now a survival. */
  ghost predicate MetaWhite(mk: Marks, white: bool) {
    && mk.Keys == ALL && (forall o :: o in mk && o != META ==> !mk[o].color.White?) && mk[META].color == White(white)
    && mk[TABLE] == Mark(Black, Old, false) && (forall o :: o in mk && mk[o].age.Old1? ==> o == UDATA)
  }

  lemma AfterFirst(h0: Heap, m0: Marks, h1: Heap, m1: Marks, again: seq<Id>, h2: Heap, m2: Marks, white: bool)
    requires Six(h0, Ref(UDATA), Ref(META), Ref(META)) && HeapShrunk(h0, h1) && TABLE in h1 && h1[TABLE] == h0[TABLE]
    requires MetaNew(m0) && MarkedOn(m0, m1) && TABLE in m1 && m1[TABLE] == m0[TABLE] && TABLE !in again
    requires Ended(h1, m1, OBJECTS.allgc[..2], again, h2, m2, white)
    ensures Six(h2, Ref(UDATA), Ref(META), Ref(META)) && MetaWhite(m2, white)
    ensures forall o :: o in OBJECTS.allgc[..2] ==> o in m1 && !m1[o].color.White?
  {
    FirstList();
    SixShrunk(h0, h1);
    hide Six, HeapShrunk, MetaWhite;
    FirstMarks(h1, m0, m1, again, h2, m2, white);
  }

  lemma FirstMarks(h1: Heap, m0: Marks, m1: Marks, again: seq<Id>, h2: Heap, m2: Marks, white: bool)
    requires h1.Keys == ALL && MetaNew(m0) && MarkedOn(m0, m1) && m1[TABLE] == m0[TABLE] && TABLE !in again
    requires Ended(h1, m1, [UDATA, META], again, h2, m2, white)
    ensures h2 == h1 && MetaWhite(m2, white) && forall o :: o in ALL ==> o in m1 && !m1[o].color.White?
  {
    MetaStill(m0, m1);
    hide MarkEnd, MarkedOn, MetaNew, MetaWhite, FirstEnd;
    forall o | o in ALL ensures FirstEnd(o, m2[o], white) {
      assert MarkEnd(h2[o], m1[o], o in [UDATA, META], o in again, white, m2[o]);
      EndOf(h2[o], m1[o], o in again, white, m2[o], o);
    }
    assert MarkEnd(h2[TABLE], m1[TABLE], false, false, white, m2[TABLE]);
    EndNone(h2[TABLE], m1[TABLE], white, m2[TABLE]);
    MetaWhiteIs(m2, white);
  }

  lemma MetaStill(m0: Marks, m1: Marks)
    requires MetaNew(m0) && MarkedOn(m0, m1)
    ensures m1.Keys == ALL && m0[TABLE] == Mark(Black, Old, false)
    ensures forall o :: o in ALL ==> !m1[o].color.White?
    ensures forall o :: o in ALL ==> m1[o].age == if o == UDATA then Old0 else if o == META then New else Old
  {
  }

  lemma MetaWhiteIs(m2: Marks, white: bool)
    requires m2.Keys == ALL && m2[TABLE] == Mark(Black, Old, false)
      && forall o :: o in ALL ==> FirstEnd(o, m2[o], white)
    ensures MetaWhite(m2, white)
  {
    assert FirstEnd(META, m2[META], white);
  }

  lemma EndNone(ob: Object, m1: Mark, white: bool, m2: Mark)
    requires MarkEnd(ob, m1, false, false, white, m2)
    ensures m2 == m1
  {
  }

  predicate FirstEnd(o: Id, m: Mark, white: bool) {
    (if o == META then m.color == White(white) else !m.color.White?) && (m.age.Old1? ==> o == UDATA)
  }

  lemma EndOf(ob: Object, m1: Mark, listed: bool, white: bool, m2: Mark, o: Id)
    requires !m1.color.White? && m1.age == if o == UDATA then Old0 else if o == META then New else Old
    requires MarkEnd(ob, m1, o == UDATA || o == META, listed, white, m2)
    ensures FirstEnd(o, m2, white)
  {
  }

  /** Nothing leaves the heap but entries of tables. */
  lemma SixShrunk(h0: Heap, h1: Heap)
    requires Six(h0, Ref(UDATA), Ref(META), Ref(META)) && HeapShrunk(h0, h1) && TABLE in h1 && h1[TABLE] == h0[TABLE]
    ensures Six(h1, Ref(UDATA), Ref(META), Ref(META)) && h1.Keys == ALL
  {
    assert Shrunk(h0[MAIN], h1[MAIN]) && Shrunk(h0[UPVAL], h1[UPVAL]) && Shrunk(h0[UDATA], h1[UDATA]);
    assert Shrunk(h0[META], h1[META]) && Shrunk(h0[CLOS], h1[CLOS]);
  }

  /** The state in which the second collection starts: the userdata has lost its metatable. */
  lemma SecondReady(g: GlobalState, hp: Heap)
    requires Six(hp, Ref(UDATA), Ref(META), Ref(META)) && g.hp == hp[UDATA := Udata(Nil, [])]
    requires MetaWhite(g.mk, g.currentwhite) && g.gray == g.weak == g.allweak == g.ephemeron == g.twups == []
    requires AllWaiting(hp, g.mk, TABLE, g.grayagain) && NoneTwice(g.grayagain)
    requires g.gcstate.Propagate? && g.ls == OBJECTS && g.an == ANCHORS
    requires g.ptr.survival == To(UDATA) && g.ptr.old1 == To(CLOS)
      && (g.ptr.firstold1.To? ==> g.ptr.firstold1.id in g.ls.allgc)
    ensures Six(g.hp, Ref(UDATA), Nil, Ref(META)) && YoungReady(g, TABLE, ALL - {META}, 0, 2)
  {
    hide HeapReady, Plain, Marked, Old1sDone, Waitings, PointsAt, NoneTwice, Six, MetaWhite, AllWaiting, YoungReady;
    SecondHeap(g.hp, hp, g.mk, g.grayagain);
    FirstList();
    SecondOld1s(g.hp, g.mk, g.currentwhite);
    ReadyFrom(g, ALL - {META}, 0);
  }

  lemma SecondOld1s(hp: Heap, mk: Marks, white: bool)
    requires Six(hp, Ref(UDATA), Nil, Ref(META)) && MetaWhite(mk, white)
    ensures Old1sDone(hp, mk, OBJECTS.allgc) && Marked(mk) <= ALL - {META} && mk.Keys == ALL
      && mk[TABLE] == Mark(Black, Old, false)
  {
  }

  lemma SecondHeap(h1: Heap, hp: Heap, mk: Marks, again: seq<Id>)
    requires Six(hp, Ref(UDATA), Ref(META), Ref(META)) && h1 == hp[UDATA := Udata(Nil, [])]
    requires AllWaiting(hp, mk, TABLE, again) && NoneTwice(again)
    ensures Six(h1, Ref(UDATA), Nil, Ref(META)) && HeapReady(h1, ALL - {META}) && Plain(h1, TABLE) && h1.Keys == ALL
    ensures Waitings(h1, mk, TABLE, [], again)
  {
    SixClosed(h1, Ref(UDATA), Nil, Ref(META));
    SixEnclosed(h1, Ref(UDATA), Ref(META));
    assert forall o :: o in hp && o != TABLE && NeedsVisit(hp[o]) ==> o in h1 && h1[o] == hp[o];
    hide Six, UpvalsOk, MetasOk, Closed, Enclosed, LiveClosed, Plain, NeedsVisit;
    NoneTwiceCount(again);
    assert Waitings(hp, mk, TABLE, [], again);
    WaitingsElsewhere(hp, h1, mk, TABLE, [], again);
  }

  /** A table in a slot of the main thread refers to an object that is not there any more. */
  predicate Dangling(hp: Heap) {
    && MAIN in hp && hp[MAIN].Thread? && Ref(TABLE) in hp[MAIN].stack
    && TABLE in hp && hp[TABLE] == Weak(Ref(META)) && META !in hp
  }

  lemma AfterSecond(h0: Heap, m0: Marks, h1: Heap, m1: Marks, again: seq<Id>, h2: Heap, m2: Marks, white: bool, w: bool)
    requires Six(h0, Ref(UDATA), Nil, Ref(META)) && HeapShrunk(h0, h1) && TABLE in h1 && h1[TABLE] == h0[TABLE]
    requires MetaWhite(m0, w) && MarkedOn(m0, m1) && Marked(m1) <= ALL - {META}
    requires Ended(h1, m1, OBJECTS.allgc[..2], again, h2, m2, white)
    ensures Dangling(h2)
  {
    FirstList();
    assert Shrunk(h0[MAIN], h1[MAIN]);
    assert META in [UDATA, META] && m1[META].color.White?;
    assert h2[MAIN].stack[2] == Ref(TABLE);
  }

  /** The userdata is stored in the upvalue, and its metatable in the table; after a young
      collection the userdata loses its metatable. The next young collection frees the
      metatable, and the table, which a program can reach, refers to it still. */
  method OldToFreed(g: GlobalState)
    requires g.gckind.GenMinor? && IsStart(Snap(g)) && g.ptr == POINTERS
    modifies g
    ensures Dangling(g.hp)
  {
    hide GenInv, StoreOk, Breaks, IsStart, Forwarded, YoungReady, Six, MetaNew, MetaWhite, AllWaiting, MarkedOn, Ended,
      HeapShrunk, Dangling, NoneTwice;
    ghost var s := Snap(g);
    StartInv(s);
    StartStore(s);
    StoreForward(g, UPVAL, ClosedUpval(Ref(UDATA)), Ref(UDATA));
    ghost var t := Snap(g);
    BarrierLeaves(s, t);
    GapOpen(s, t);
    g.hp := g.hp[TABLE := Weak(Ref(META))];
    FirstReady(g, t);
    ghost var h0, m0 := g.hp, g.mk;
    ghost var h1, m1, again := YoungUnseen(g, TABLE, ALL, 2, 2);
    AfterFirst(h0, m0, h1, m1, again, g.hp, g.mk, g.currentwhite);
    ghost var h2, m2 := g.hp, g.mk;
    g.hp := g.hp[UDATA := Udata(Nil, [])];
    SecondReady(g, h2);
    h1, m1, again := YoungUnseen(g, TABLE, ALL - {META}, 0, 2);
    AfterSecond(h2[UDATA := Udata(Nil, [])], m2, h1, m1, again, g.hp, g.mk, g.currentwhite, !g.currentwhite);
  }
}
