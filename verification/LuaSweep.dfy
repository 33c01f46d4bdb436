/** Barriers, closing of upvalues, and the sweep of the lists of objects. */
module LuaSweep {
  import opened LuaHeap
  import opened LuaMarks
  import opened LuaTricolor
  import opened LuaGc
  import opened LuaState

  /** luaC_barrier_: while marking, marks the object being pointed to; during a sweep,
      sweeps the black object. */
  method LuaCBarrier(g: GlobalState, o: Id, v: Id)
    requires o in g.mk && v in g.mk && g.mk[o].color.Black? && g.mk[v].color.White?
    requires KeepInvariant(g.gcstate) ==> g.MarkReady(g.hp.Keys)
    modifies g`mk, g`gray
    ensures KeepInvariant(g.gcstate) ==>
              && g.MarkReady(g.hp.Keys) && v in Marked(g.mk)
              && g.mk[v].age == (if old(g.mk)[o].age.IsOld() then Old0 else old(g.mk)[v].age)
              && Marking(g.hp, old(g.mk), old(g.gray), g.mk[v := g.mk[v].(age := old(g.mk)[v].age)], g.gray)
              && (!old(g.mk)[o].age.IsOld() ==> Marking(g.hp, old(g.mk), old(g.gray), g.mk, g.gray))
              && (!MarksPast(g.hp, old(g.mk), v) ==>
                    g.mk == old(g.mk)[v := g.mk[v]]
                      && g.gray == if NeedsVisit(g.hp[v]) then [v] + old(g.gray) else old(g.gray))
    ensures !KeepInvariant(g.gcstate) ==>
              && g.gray == old(g.gray)
              && g.mk == old(g.mk)[o := old(g.mk)[o].(color :=
                if g.gckind.GenMinor? then Black else White(g.currentwhite))]
  {
    hide HeapReady, Marking, JustMarked, MarksPast;
    if KeepInvariant(g.gcstate) {
      g.ReallyMarkObject(v, g.hp.Keys);
      ghost var m1 := g.mk;
      if g.mk[o].age.IsOld() {
        g.mk := g.mk[v := g.mk[v].(age := Old0)];
      }
      BarrierAge(g.hp, old(g.mk), old(g.gray), m1, g.gray, o, v, g.mk);
    } else if !g.gckind.GenMinor? {
      g.mk := g.mk[o := g.mk[o].(color := White(g.currentwhite))];
    }
  }

  lemma BarrierAge(hp: Heap, m0: Marks, g0: seq<Id>, m1: Marks, g1: seq<Id>, o: Id, v: Id, m2: Marks)
    requires Marking(hp, m0, g0, m1, g1) && o in m0 && m0[o].color.Black? && v in m0 && v in Marked(m1)
    requires m2 == if m1[o].age.IsOld() then m1[v := m1[v].(age := Old0)] else m1
    ensures m2.Keys == m0.Keys && Marked(m2) == Marked(m1) && v in m2
    ensures m2[v].age == if m0[o].age.IsOld() then Old0 else m0[v].age
    ensures m2[v := m2[v].(age := m0[v].age)] == m1 && m1[o].age == m0[o].age
    ensures m1 == m0[v := m1[v]] ==> m2 == m0[v := m2[v]]
  {
    assert m1[v].age == m0[v].age;
    assert m1 == m1[v := m1[v].(age := m0[v].age)];
    assert m2[v := m2[v].(age := m0[v].age)] == m1;
  }

  /** Only heap, marks and the gray list changed. */
  lemma SnapMarks(g: GlobalState, s: State)
    requires g.grayagain == s.links.grayagain && g.weak == s.links.weak && g.allweak == s.links.allweak
      && g.ephemeron == s.links.eph
    requires g.ls == s.ls && g.an == s.an && g.twups == s.twups && g.currentwhite == s.white && g.gcstate == s.at
      && g.sweepgc == s.sweep
    ensures Snap(g) == s.(hp := g.hp, mk := g.mk, gray := g.gray)
  {
  }

  /** Closing an upvalue while marking: it turns black and its value gets marked. */
  method CloseMarking(g: GlobalState, th: Id, u: Id)
    requires Base(Snap(g)) && MarkPhase(Snap(g)) && KeepInvariant(g.gcstate)
    requires th in g.hp && g.hp[th].Thread? && g.hp[th].upvals != [] && u == g.hp[th].upvals[0]
    requires u in g.hp && g.hp[u].OpenUpval? && g.hp[u].th == th && u in g.mk && !g.mk[u].color.White?
    modifies g`hp, g`mk, g`gray
    ensures Base(Snap(g)) && MarkPhase(Snap(g))
    ensures g.hp == CloseFirst(old(g.hp), th)
  {
    hide Base, MarkPhase, Live, Marked, Marking, HeapReady, WellFormed, UpvalsOk;
    ghost var s := Snap(g);
    MarkingFacts(s);
    MarkingAge(s, u);
    BaseClose(s, th);
    g.hp := CloseFirst(g.hp, th);
    MarkingFactsClosed(s, th);
    g.mk := g.mk[u := g.mk[u].(color := Black)];
    MarkedSame(s.mk, g.mk, u);
    var v := g.hp[u].v;
    MarkingNothing(g.hp, g.mk, g.gray);
    if v.Ref? {
      if g.mk[v.id].color.White? {
        LuaCBarrier(g, u, v.id);
      } else {
        MarkedKeeps(g.mk, g.mk, v.id);
      }
    }
    CloseMarked(s, th, u, g.mk, g.gray);
    SnapMarks(g, s);
    assert Snap(g) == s.(hp := g.hp, mk := g.mk, gray := g.gray);
  }

  /** Marks of the objects changed by barriers during a sweep: from marked to black, or
      swept ahead of time. */
  ghost predicate SweepRecolor(m0: Marks, m1: Marks, white: bool) {
    m0.Keys == m1.Keys && forall o :: o in m0 ==>
      || m1[o] == m0[o]
      || (!m0[o].color.White? && m1[o] == m0[o].(color := m1[o].color)
        && (m1[o].color.Black? || m1[o].color == White(white)))
  }

  lemma SweepRecolorTrans(m0: Marks, m1: Marks, m2: Marks, white: bool)
    requires SweepRecolor(m0, m1, white) && SweepRecolor(m1, m2, white)
    ensures SweepRecolor(m0, m2, white)
  {
  }

  /** The age after one more collection, but for touched objects, which are looked after when
      the gray lists are corrected. */
  function NextAge(a: Age): Age {
    match a
    case New => Survival
    case Survival => Old1
    case Old0 => Old1
    case Old1 => Old
    case _ => a
  }

  /** What the generational sweep does to the marks of what it leaves, having swept `swept`:
      ages advance, new objects go back to white, and the open upvalues of freed threads are
      closed, which paints the marked ones black. */
  ghost predicate GenSwept(h0: Heap, m0: Marks, h1: Heap, m1: Marks, live: set<Id>, swept: set<Id>, white: bool) {
    m1.Keys <= m0.Keys && forall o :: o in m1 ==> GenSweptAt(h0, m0, h1, m1, live, swept, white, o)
  }

  predicate GenSweptAt(h0: Heap, m0: Marks, h1: Heap, m1: Marks, live: set<Id>, swept: set<Id>, white: bool, o: Id)
    requires o in m0 && o in m1
  {
    && o in h0 && o in h1 && m1[o].fin == m0[o].fin
    && m1[o].age == (if o in swept then NextAge(m0[o].age) else m0[o].age)
    && (if o in swept && m0[o].age.New? then m1[o].color == White(white)
        else || m1[o].color == m0[o].color
             || (h0[o].OpenUpval? && h0[o].th !in live && h1[o].ClosedUpval? && !m0[o].color.White?
               && m1[o].color.Black?))
    && (if h0[o].OpenUpval? then h1[o] == h0[o] || h1[o].ClosedUpval? else !h1[o].OpenUpval?)
    && (h0[o].ClosedUpval? ==> h1[o].ClosedUpval?)
    && (h0[o].OpenUpval? && h1[o].ClosedUpval? ==> h0[o].th !in live && !m1[o].color.Gray?)
  }

  lemma GenSweptTrans(h0: Heap, m0: Marks, h1: Heap, m1: Marks, h2: Heap, m2: Marks, live: set<Id>, s1: set<Id>,
          s2: set<Id>, s: set<Id>, white: bool)
    requires GenSwept(h0, m0, h1, m1, live, s1, white) && GenSwept(h1, m1, h2, m2, live, s2, white) && s1 !! s2
      && s == s1 + s2
    ensures GenSwept(h0, m0, h2, m2, live, s, white)
  {
    forall o | o in m2 ensures GenSweptAt(h0, m0, h2, m2, live, s, white, o) {
      assert GenSweptAt(h1, m1, h2, m2, live, s2, white, o);
      assert GenSweptAt(h0, m0, h1, m1, live, s1, white, o);
    }
  }

  /** A sweep in which barriers have nothing to do: in minor mode, or while every white object
      is dead. */
  ghost predicate QuietSweep(s: State, kind: GcKind) {
    kind.GenMinor? || forall o :: o in s.mk && s.mk[o].color.White? ==> s.mk[o].color == White(!s.white)
  }

  lemma QuietValue(s: State, kind: GcKind, o: Id)
    requires QuietSweep(s, kind) && !kind.GenMinor? && o in s.mk && o in Live(s)
    ensures !s.mk[o].color.White?
  {
  }

  lemma QuietStill(s: State, t: State, kind: GcKind)
    requires QuietSweep(s, kind) && GenSwept(s.hp, s.mk, t.hp, t.mk, Live(s), {}, s.white) && t.white == s.white
    ensures QuietSweep(t, kind)
  {
    hide Live;
    forall o | o in t.mk && t.mk[o].color.White? ensures kind.GenMinor? || t.mk[o].color == White(!t.white) {
      assert GenSweptAt(s.hp, s.mk, t.hp, t.mk, Live(s), {}, s.white, o);
    }
  }

  /** Closing an upvalue during a sweep: it turns black, or is swept at once. */
  method CloseSweeping(g: GlobalState, th: Id, u: Id)
    requires Base(Snap(g)) && !KeepInvariant(g.gcstate)
    requires th in g.hp && g.hp[th].Thread? && g.hp[th].upvals != [] && u == g.hp[th].upvals[0]
    modifies g`hp, g`mk, g`gray
    ensures Base(Snap(g)) && Live(Snap(g)) == Live(old(Snap(g)))
    ensures g.hp == CloseFirst(old(g.hp), th) && g.gray == old(g.gray)
    ensures SweepRecolor(old(g.mk), g.mk, g.currentwhite)
    ensures QuietSweep(old(Snap(g)), g.gckind) && th !in Live(old(Snap(g))) ==>
              GenSwept(old(g.hp), old(g.mk), g.hp, g.mk, Live(old(Snap(g))), {}, g.currentwhite)
  {
    hide Base, Live, GenSwept, SweepRecolor, QuietSweep, CloseFirst;
    ghost var s := Snap(g);
    BaseClose(s, th);
    LiveSubset(s);
    CloseValue(s, th);
    g.hp := CloseFirst(g.hp, th);
    if !g.mk[u].color.White? {
      SweepBarrier(g, u, g.hp[u].v);
    }
    SweepClosed(s, th, g.mk, g.gckind);
    SnapMarks(g, s);
  }

  /** The upvalue just closed turns black, and white again by the barrier. */
  method SweepBarrier(g: GlobalState, u: Id, v: Value)
    requires u in g.mk && !g.mk[u].color.White? && In(v, g.mk.Keys) && !KeepInvariant(g.gcstate)
    modifies g`mk, g`gray
    ensures g.gray == old(g.gray)
    ensures g.mk == old(g.mk)[u :=
      old(g.mk)[u].(color := if WhiteValue(old(g.mk), v) && !g.gckind.GenMinor? then White(g.currentwhite) else Black)]
  {
    g.mk := g.mk[u := g.mk[u].(color := Black)];
    if v.Ref? && g.mk[v.id].color.White? {
      LuaCBarrier(g, u, v.id);
    }
  }

  lemma CloseValue(s: State, th: Id)
    requires Base(s) && th in s.hp && s.hp[th].Thread? && s.hp[th].upvals != []
    ensures var u := s.hp[th].upvals[0];
      && u in s.hp && s.hp[u].OpenUpval? && s.hp[u].th == th && u != th && u in s.mk
      && CloseFirst(s.hp, th).Keys == s.hp.Keys
        && CloseFirst(s.hp, th)[u] == ClosedUpval(SlotValue(s.hp, th, s.hp[u].slot))
      && (!s.mk[u].color.White? ==>
        In(SlotValue(s.hp, th, s.hp[u].slot), Live(s)) && In(SlotValue(s.hp, th, s.hp[u].slot), s.mk.Keys))
  {
    hide Base, Live, UpvalsOk;
    BaseClose(s, th);
    LiveSubset(s);
    var u := s.hp[th].upvals[0];
    if !s.mk[u].color.White? { MarkedIsLive(s, u); }
  }

  lemma SweepClosed(s: State, th: Id, m1: Marks, kind: GcKind)
    requires Base(s) && th in s.hp && s.hp[th].Thread? && s.hp[th].upvals != [] && s.hp[th].upvals[0] in s.mk
      && s.hp[th].upvals[0] in s.hp
    requires var u := s.hp[th].upvals[0];
      m1 == if s.mk[u].color.White? then s.mk
            else s.mk[u := s.mk[u].(color := if s.hp[u].OpenUpval?
              && WhiteValue(s.mk, SlotValue(s.hp, th, s.hp[u].slot)) && !kind.GenMinor? then White(s.white) else Black)]
    ensures Base(s.(hp := CloseFirst(s.hp, th), mk := m1)) && Live(s.(hp := CloseFirst(s.hp, th), mk := m1)) == Live(s)
    ensures SweepRecolor(s.mk, m1, s.white)
    ensures QuietSweep(s, kind) && th !in Live(s) ==>
      GenSwept(s.hp, s.mk, CloseFirst(s.hp, th), m1, Live(s), {}, s.white)
  {
    hide Base, Live, GenSwept, CloseFirst, QuietSweep;
    var u := s.hp[th].upvals[0];
    BaseClose(s, th);
    CloseValue(s, th);
    BaseFacts(s);
    NotFixed(s, u);
    BaseRecolor(s.(hp := CloseFirst(s.hp, th)), m1) by { ClosedColors(s, u, m1); }
    if QuietSweep(s, kind) && th !in Live(s) {
      var v := SlotValue(s.hp, th, s.hp[u].slot);
      if !s.mk[u].color.White? && !kind.GenMinor? && v.Ref? { QuietValue(s, kind, v.id); }
      GenSweptClose(s, th, m1);
    }
  }

  lemma ClosedColors(s: State, u: Id, m1: Marks)
    requires u in s.mk && (m1 == s.mk
      || (!s.mk[u].color.White? && m1.Keys == s.mk.Keys && m1 == s.mk[u := m1[u]] && m1[u].fin == s.mk[u].fin
      && (m1[u].color.Black? || m1[u].color == White(s.white))))
    ensures m1.Keys == s.mk.Keys
    ensures forall o ::
      o in m1 ==> (m1[o].color == White(!s.white) <==> s.mk[o].color == White(!s.white)) && m1[o].fin == s.mk[o].fin
    ensures u !in s.ls.fixedgc ==> forall o :: o in s.ls.fixedgc && o in m1 ==> m1[o] == s.mk[o]
  {
  }

  lemma GenSweptClose(s: State, th: Id, m1: Marks)
    requires th in s.hp && s.hp[th].Thread? && s.hp[th].upvals != [] && s.hp.Keys == s.mk.Keys && th !in Live(s)
    requires var u := s.hp[th].upvals[0];
      && u in s.hp && s.hp[u].OpenUpval? && s.hp[u].th == th && u != th
      && m1 == if s.mk[u].color.White? then s.mk else s.mk[u := s.mk[u].(color := Black)]
    ensures GenSwept(s.hp, s.mk, CloseFirst(s.hp, th), m1, Live(s), {}, s.white)
  {
    var live := Live(s);
    hide Live;
    var h1 := CloseFirst(s.hp, th);
    forall o | o in m1 ensures GenSweptAt(s.hp, s.mk, h1, m1, live, {}, s.white, o) {
    }
  }

  lemma MarkedIsLive(s: State, u: Id)
    requires u in s.mk && !s.mk[u].color.White?
    ensures u in Live(s)
  {
  }

  lemma NotFixed(s: State, u: Id)
    requires Base(s) && u in s.hp && !s.hp[u].Str?
    ensures u !in s.ls.fixedgc
  {
  }

  /** luaF_closeupval for a whole thread, when the thread is freed during a sweep. */
  method CloseThread(g: GlobalState, th: Id)
    requires Base(Snap(g)) && !KeepInvariant(g.gcstate)
    requires th in g.hp && g.hp[th].Thread?
    modifies g`hp, g`mk, g`gray
    ensures Base(Snap(g)) && Live(Snap(g)) == Live(old(Snap(g))) && g.gray == old(g.gray)
    ensures g.hp.Keys == old(g.hp).Keys && g.hp[th] == Thread(old(g.hp)[th].stack, [])
    ensures ClosedOnly(old(g.hp), g.hp, th)
    ensures SweepRecolor(old(g.mk), g.mk, g.currentwhite)
    ensures QuietSweep(old(Snap(g)), g.gckind) && th !in Live(old(Snap(g))) ==>
              GenSwept(old(g.hp), old(g.mk), g.hp, g.mk, Live(old(Snap(g))), {}, g.currentwhite)
  {
    hide Base, Live, MarkPhase, Marked, SweepRecolor, ClosedOnly, GenSwept, QuietSweep;
    SweepRecolorNone(g.mk, g.currentwhite);
    BaseFacts(Snap(g));
    GenSweptNone(g.hp, g.mk, Live(Snap(g)), g.currentwhite);
    ClosedOnlyNone(g.hp, th);
    while g.hp[th].upvals != []
      invariant Base(Snap(g)) && Live(Snap(g)) == Live(old(Snap(g))) && g.gray == old(g.gray)
      invariant g.hp.Keys == old(g.hp).Keys && g.hp[th].Thread? && g.hp[th].stack == old(g.hp)[th].stack
      invariant ClosedOnly(old(g.hp), g.hp, th)
      invariant SweepRecolor(old(g.mk), g.mk, g.currentwhite)
      invariant QuietSweep(old(Snap(g)), g.gckind) && th !in Live(old(Snap(g))) ==>
                  QuietSweep(Snap(g), g.gckind) &&
                  GenSwept(old(g.hp), old(g.mk), g.hp, g.mk, Live(old(Snap(g))), {}, g.currentwhite)
      decreases |g.hp[th].upvals|
    {
      ghost var h1, m1, s1 := g.hp, g.mk, Snap(g);
      BaseClose(Snap(g), th);
      CloseSweeping(g, th, g.hp[th].upvals[0]);
      SweepRecolorTrans(old(g.mk), m1, g.mk, g.currentwhite);
      if QuietSweep(old(Snap(g)), g.gckind) && th !in Live(old(Snap(g))) {
        QuietStill(s1, Snap(g), g.gckind);
        GenSweptTrans(old(g.hp), old(g.mk), h1, m1, g.hp, g.mk, Live(old(Snap(g))), {}, {}, {}, g.currentwhite);
      }
      ClosedOnlyStep(old(g.hp), h1, th);
    }
  }

  lemma GenSweptNone(hp: Heap, mk: Marks, live: set<Id>, white: bool)
    requires hp.Keys == mk.Keys
    ensures GenSwept(hp, mk, hp, mk, live, {}, white)
  {
  }

  /** Only open upvalues of `th` were closed, each with the value it showed. */
  ghost predicate ClosedOnly(h0: Heap, h1: Heap, th: Id) {
    && h0.Keys == h1.Keys && th in h0 && h0[th].Thread? && h1[th].Thread? && h1[th].stack == h0[th].stack
    && forall o :: o in h0 && o != th ==>
         h1[o] == h0[o] || (h0[o].OpenUpval? && h0[o].th == th && h1[o] == ClosedUpval(SlotValue(h0, th, h0[o].slot)))
  }

  lemma ClosedOnlyNone(hp: Heap, th: Id)
    requires th in hp && hp[th].Thread?
    ensures ClosedOnly(hp, hp, th)
  {
  }

  lemma ClosedOnlyStep(h0: Heap, h1: Heap, th: Id)
    requires ClosedOnly(h0, h1, th) && h1[th].upvals != []
    requires h1[th].upvals[0] in h1 && h1[h1[th].upvals[0]].OpenUpval? && h1[h1[th].upvals[0]].th == th
      && h1[th].upvals[0] != th
    ensures ClosedOnly(h0, CloseFirst(h1, th), th)
  {
  }

  lemma SweepRecolorNone(mk: Marks, white: bool)
    ensures SweepRecolor(mk, mk, white)
  {
  }

  datatype Which = AllGc | FinObj | ToBeFnz

  function ListOf(ls: Objects, w: Which): seq<Id> {
    match w case AllGc => ls.allgc case FinObj => ls.finobj case ToBeFnz => ls.tobefnz
  }

  function WithList(ls: Objects, w: Which, l: seq<Id>): Objects {
    match w case AllGc => ls.(allgc := l) case FinObj => ls.(finobj := l) case ToBeFnz => ls.(tobefnz := l)
  }

  /** Live objects keep their contents; an open upvalue may get its own copy of its value. */
  ghost predicate KeptLive(h0: Heap, h1: Heap, live: set<Id>) {
    && h1.Keys <= h0.Keys && live <= h1.Keys
    && (forall o :: o in live ==>
          || h1[o] == h0[o]
          || (h0[o].OpenUpval? && h1[o] == ClosedUpval(SlotValue(h0, h0[o].th, h0[o].slot))))
    && (forall th :: th in h1 && h0[th].Thread? ==> h1[th].Thread? && h1[th].stack == h0[th].stack)
  }

  lemma KeptLiveTrans(h0: Heap, h1: Heap, h2: Heap, live: set<Id>)
    requires KeptLive(h0, h1, live) && KeptLive(h1, h2, live) && UpvalsOk(h1) && UpvalsOk(h0)
    ensures KeptLive(h0, h2, live)
  {
    forall o | o in live
      ensures h2[o] == h0[o] || (h0[o].OpenUpval? && h2[o] == ClosedUpval(SlotValue(h0, h0[o].th, h0[o].slot)))
    {
      if h1[o] == h0[o] && h2[o] != h1[o] {
        assert h0[o].th in h1 && h0[h0[o].th].Thread?;
      }
    }
  }

  /** What sweeping may do: objects swept before stay as they are. */
  ghost predicate MarksSwept(m0: Marks, m1: Marks, white: bool) {
    && m1.Keys <= m0.Keys
    && (forall o :: o in m1 ==> m1[o].fin == m0[o].fin)
    && (forall o :: o in m1 && m0[o].color == White(white) && m0[o].age.New? ==> m1[o] == m0[o])
  }

  /** Part of a sweep: no live object is lost. */
  ghost predicate SweepWork(s: State, t: State) {
    && t == s.(hp := t.hp, mk := t.mk, ls := t.ls) && t.ls.fixedgc == s.ls.fixedgc
    && Base(t) && Live(t) == Live(s)
    && KeptLive(s.hp, t.hp, Live(s))
    && MarksSwept(s.mk, t.mk, s.white)
  }

  lemma SweepWorkTrans(s: State, t: State, u: State)
    requires SweepWork(s, t) && SweepWork(t, u) && UpvalsOk(s.hp)
    ensures SweepWork(s, u)
  {
    hide Live, LiveClosed, Roots, KindsOk, TwupsOk, MetasOk, Partition, UpvalsOk, KeptLive;
    KeptLiveTrans(s.hp, t.hp, u.hp, Live(s));
  }

  lemma RemoveAtPartition(hp: Heap, ls: Objects, w: Which, i: nat)
    requires Partition(hp, ls) && i < |ListOf(ls, w)|
    ensures ListOf(ls, w)[i] in hp
    ensures Partition(hp - {ListOf(ls, w)[i]}, WithList(ls, w, RemoveAt(ListOf(ls, w), i)))
  {
    var l := ListOf(ls, w);
    var o := l[i];
    PartitionFacts(hp, ls);
    RemoveAtMultiset(l, i);
    assert multiset((hp - {o}).Keys) == multiset(hp.Keys) - multiset{o};
  }

  lemma RemoveAtMultiset(l: seq<Id>, i: nat)
    requires i < |l|
    ensures multiset(l) == multiset(RemoveAt(l, i)) + multiset{l[i]}
  {
    assert l == l[..i] + [l[i]] + l[i + 1..];
  }

  lemma RemoveAtFin(s: State, w: Which, i: nat)
    requires Base(s) && i < |ListOf(s.ls, w)|
    ensures FinOk(s.mk - {ListOf(s.ls, w)[i]}, WithList(s.ls, w, RemoveAt(ListOf(s.ls, w), i)))
  {
    hide ListOf, WithList, RemoveAt, FinOk;
    RemovedFin(s.mk, s.ls, w, i);
  }

  lemma RemovedFin(mk: Marks, ls: Objects, w: Which, i: nat)
    requires FinOk(mk, ls) && i < |ListOf(ls, w)|
    ensures FinOk(mk - {ListOf(ls, w)[i]}, WithList(ls, w, RemoveAt(ListOf(ls, w), i)))
  {
    var l := ListOf(ls, w);
    forall x | x != l[i] ensures x in l <==> x in RemoveAt(l, i) {
      assert l == l[..i] + [l[i]] + l[i + 1..];
    }
  }

  lemma RemoveAtElements(ls: Objects, w: Which, i: nat)
    requires i < |ListOf(ls, w)|
    ensures var ls1 := WithList(ls, w, RemoveAt(ListOf(ls, w), i));
      Elements(ls1.finobj) <= Elements(ls.finobj) && Elements(ls1.tobefnz) <= Elements(ls.tobefnz)
        && ls1.fixedgc == ls.fixedgc
  {
  }

  lemma CloseThreadKept(h0: Heap, h1: Heap, th: Id, live: set<Id>)
    requires ClosedOnly(h0, h1, th) && live <= h0.Keys && th !in live
    ensures KeptLive(h0, h1, live)
  {
  }

  lemma RecolorSwept(m0: Marks, m1: Marks, white: bool)
    requires SweepRecolor(m0, m1, white)
    ensures MarksSwept(m0, m1, white)
  {
  }

  /** freeobj on the dead object at position `i`, which leaves its list. A thread closes
      its open upvalues first; an open upvalue is unlinked from its thread. */
  method SweepDead(g: GlobalState, w: Which, i: nat)
    requires Base(Snap(g)) && !KeepInvariant(g.gcstate)
    requires i < |ListOf(g.ls, w)| && ListOf(g.ls, w)[i] !in Live(Snap(g))
    modifies g`hp, g`mk, g`gray, g`ls
    ensures SweepWork(old(Snap(g)), Snap(g))
    ensures g.ls == WithList(old(g.ls), w, RemoveAt(ListOf(old(g.ls), w), i))
    ensures g.hp.Keys == old(g.hp).Keys - {ListOf(old(g.ls), w)[i]}
    ensures QuietSweep(old(Snap(g)), g.gckind) ==>
      GenSwept(old(g.hp), old(g.mk), g.hp, g.mk, Live(old(Snap(g))), {}, g.currentwhite)
  {
    hide Base, Live, MarkPhase, Marked, KeptLive, ClosedOnly, SweepRecolor, MarksSwept, Partition, UpvalsOk, SweepWork,
      Swept, Stay, SweptUpTo, FreeObject, GenSwept;
    var o := ListOf(g.ls, w)[i];
    ghost var s := Snap(g);
    BaseFacts(s);
    ListFacts(s, w, i);
    CloseDead(g, o);
    ghost var t := Snap(g);
    SweepDeadWork(s, t, w, i);
    BaseFacts(t);
    if QuietSweep(s, g.gckind) { GenSweptFree(s.hp, s.mk, t, Live(s), o); }
    g.ls := WithList(g.ls, w, RemoveAt(ListOf(g.ls, w), i));
    g.hp := FreeObject(g.hp, o);
    g.mk := g.mk - {o};
    SnapList(g, t);
  }

  /** Freeing a thread closes its open upvalues first. */
  method CloseDead(g: GlobalState, o: Id)
    requires Base(Snap(g)) && !KeepInvariant(g.gcstate)
    requires o in g.hp && o !in Live(Snap(g))
    modifies g`hp, g`mk, g`gray
    ensures Base(Snap(g)) && Live(Snap(g)) == Live(old(Snap(g)))
    ensures g.hp.Keys == old(g.hp).Keys && (g.hp[o].Thread? ==> g.hp[o].upvals == [])
    ensures KeptLive(old(g.hp), g.hp, Live(old(Snap(g)))) && MarksSwept(old(g.mk), g.mk, g.currentwhite)
    ensures Snap(g) == old(Snap(g)).(hp := g.hp, mk := g.mk)
    ensures QuietSweep(old(Snap(g)), g.gckind) ==>
      GenSwept(old(g.hp), old(g.mk), g.hp, g.mk, Live(old(Snap(g))), {}, g.currentwhite)
  {
    hide Base, Live, MarkPhase, Marked, KeptLive, ClosedOnly, SweepRecolor, MarksSwept, Partition, UpvalsOk, SweepWork,
      Swept, Stay, SweptUpTo, FreeObject, GenSwept;
    ghost var s := Snap(g);
    BaseFacts(s);
    GenSweptNone(s.hp, s.mk, Live(s), s.white);
    LiveSubset(s);
    if g.hp[o].Thread? {
      CloseThread(g, o);
      CloseThreadKept(s.hp, g.hp, o, Live(s));
      RecolorSwept(s.mk, g.mk, s.white);
    } else {
      KeptLiveNone(s.hp, Live(s));
      MarksSweptNone(s.mk, s.white);
    }
    SnapMarks(g, s);
  }

  lemma SweepDeadWork(s: State, t: State, w: Which, i: nat)
    requires Base(s) && Base(t) && t == s.(hp := t.hp, mk := t.mk) && Live(t) == Live(s) && t.hp.Keys == s.hp.Keys
    requires KeptLive(s.hp, t.hp, Live(s)) && MarksSwept(s.mk, t.mk, s.white)
    requires i < |ListOf(s.ls, w)| && ListOf(s.ls, w)[i] !in Live(s)
    requires ListOf(s.ls, w)[i] in t.hp && (t.hp[ListOf(s.ls, w)[i]].Thread? ==> t.hp[ListOf(s.ls, w)[i]].upvals == [])
    ensures var o, ls1 := ListOf(s.ls, w)[i], WithList(s.ls, w, RemoveAt(ListOf(s.ls, w), i));
      && SweepWork(s, t.(hp := FreeObject(t.hp, o), mk := t.mk - {o}, ls := ls1))
      && FreeObject(t.hp, o).Keys == s.hp.Keys - {o}
  {
    hide Base, Live, KeptLive, MarksSwept, Partition, UpvalsOk;
    var o, ls1 := ListOf(s.ls, w)[i], WithList(s.ls, w, RemoveAt(ListOf(s.ls, w), i));
    BaseFacts(s);
    BaseFacts(t);
    LiveSubset(t);
    RemoveAtPartition(t.hp, t.ls, w, i);
    RemoveAtElements(s.ls, w, i);
    RemoveAtFin(t, w, i);
    FreeKeeps(t, o, ls1);
    FreeKept(t.hp, o, Live(t));
    KeptLiveTrans(s.hp, t.hp, FreeObject(t.hp, o), Live(s));
    MarksSweptFree(s.mk, t.mk, o, s.white);
  }

  lemma GenSweptFree(h0: Heap, m0: Marks, t: State, live: set<Id>, o: Id)
    requires UpvalsOk(t.hp) && t.hp.Keys == t.mk.Keys && o in t.hp && (t.hp[o].Thread? ==> t.hp[o].upvals == [])
    requires GenSwept(h0, m0, t.hp, t.mk, live, {}, t.white)
    ensures GenSwept(h0, m0, FreeObject(t.hp, o), t.mk - {o}, live, {}, t.white)
  {
    FreeShape(t.hp, o);
    var h1, m1 := FreeObject(t.hp, o), t.mk - {o};
    forall x | x in m1 ensures GenSweptAt(h0, m0, h1, m1, live, {}, t.white, x) {
      assert GenSweptAt(h0, m0, t.hp, t.mk, live, {}, t.white, x);
    }
  }

  /** Only heap, marks and lists of objects changed. */
  lemma SnapList(g: GlobalState, s: State)
    requires g.grayagain == s.links.grayagain && g.weak == s.links.weak && g.allweak == s.links.allweak
      && g.ephemeron == s.links.eph
    requires g.an == s.an && g.twups == s.twups && g.currentwhite == s.white && g.gcstate == s.at
      && g.sweepgc == s.sweep && g.gray == s.gray
    ensures Snap(g) == s.(hp := g.hp, mk := g.mk, ls := g.ls)
  {
  }

  lemma BaseFacts(s: State)
    requires Base(s)
    ensures s.hp.Keys == s.mk.Keys && UpvalsOk(s.hp) && Partition(s.hp, s.ls)
  {
  }

  lemma KeptLiveNone(hp: Heap, live: set<Id>)
    requires live <= hp.Keys
    ensures KeptLive(hp, hp, live)
  {
  }

  lemma MarksSweptNone(mk: Marks, white: bool)
    ensures MarksSwept(mk, mk, white)
  {
  }

  lemma MarksSweptFree(m0: Marks, m1: Marks, o: Id, white: bool)
    requires MarksSwept(m0, m1, white)
    ensures MarksSwept(m0, m1 - {o}, white)
  {
  }

  lemma FreeKept(hp: Heap, o: Id, live: set<Id>)
    requires UpvalsOk(hp) && o in hp && o !in live && live <= hp.Keys
    requires forall x :: x in live ==> x in FreeObject(hp, o) && FreeObject(hp, o)[x] == hp[x]
    ensures KeptLive(hp, FreeObject(hp, o), live)
  {
    FreeShape(hp, o);
  }

  /** A live object gets the current white and becomes new. */
  method SweepLive(g: GlobalState, o: Id)
    requires Base(Snap(g)) && o in g.mk && o in Live(Snap(g)) && o !in g.ls.fixedgc
    modifies g`mk
    ensures SweepWork(old(Snap(g)), Snap(g))
    ensures g.mk == old(g.mk)[o := Mark(White(g.currentwhite), New, old(g.mk)[o].fin)]
  {
    hide Base, MarkPhase, Marked, KeptLive, Partition;
    ghost var s := Snap(g);
    g.mk := g.mk[o := Mark(White(g.currentwhite), New, g.mk[o].fin)];
    BaseRecolor(s, g.mk);
    LiveSubset(s);
    KeptLiveNone(s.hp, Live(s));
    SnapMarks(g, s);
  }

  /** One turn of sweeplist: the object at position `n` is erased if dead, and made white
      and new otherwise. */
  method SweepOne(g: GlobalState, w: Which, n: nat) returns (n1: nat)
    requires Base(Snap(g)) && !KeepInvariant(g.gcstate)
    requires n < |ListOf(g.ls, w)| && Swept(g.mk, g.currentwhite, ListOf(g.ls, w), n)
    modifies g`hp, g`mk, g`gray, g`ls
    ensures SweepWork(old(Snap(g)), Snap(g)) && g.gray == old(g.gray)
    ensures Swept(g.mk, g.currentwhite, ListOf(g.ls, w), n1)
    ensures var l := ListOf(old(g.ls), w);
      if l[n] in Live(old(Snap(g)))
      then n1 == n + 1 && g.ls == old(g.ls) && g.hp.Keys == old(g.hp).Keys
      else n1 == n && g.ls == WithList(old(g.ls), w, RemoveAt(l, n)) && g.hp.Keys == old(g.hp).Keys - {l[n]}
  {
    hide Base, Live, MarkPhase, Marked, KeptLive, ClosedOnly, SweepRecolor, MarksSwept, Partition, UpvalsOk, SweepWork,
      Swept, Stay, SweptUpTo, FreeObject;
    ghost var s := Snap(g);
    var curr := ListOf(g.ls, w)[n];
    ListFacts(s, w, n);
    if g.mk[curr].color == White(!g.currentwhite) {
      DeadMeans(s, curr);
      SweepDead(g, w, n);
      SweptAfter(s, Snap(g), w, ListOf(s.ls, w), ListOf(g.ls, w), n);
      n1 := n;
    } else {
      LiveMeans(s, curr);
      SweepLive(g, curr);
      SweptAfter(s, Snap(g), w, ListOf(s.ls, w), ListOf(g.ls, w), n);
      SweptMore(g.mk, g.currentwhite, ListOf(g.ls, w), n);
      n1 := n + 1;
    }
    SnapGray(s, g);
  }

  lemma SnapGray(s: State, g: GlobalState)
    requires SweepWork(s, Snap(g))
    ensures g.gray == s.gray && Base(Snap(g)) && Live(Snap(g)) == Live(s)
  {
  }

  lemma SweptMore(mk: Marks, white: bool, l: seq<Id>, n: nat)
    requires Swept(mk, white, l, n) && n < |l| && l[n] in mk && mk[l[n]].color == White(white) && mk[l[n]].age.New?
    ensures Swept(mk, white, l, n + 1)
  {
  }

  /** What sweeping positions `i` to `k` of a list does to the list and to the heap. */
  ghost predicate SweptUpTo(s: State, t: State, w: Which, i: nat, k: nat) {
    var l, live := ListOf(s.ls, w), Live(s);
    && i <= k <= |l|
    && t.ls == WithList(s.ls, w, l[..i] + Stay(live, false, l[i..k]) + l[k..])
    && t.hp.Keys == s.hp.Keys - Elements(Leave(live, false, l[i..k]))
  }

  lemma SweptUpToNext(s: State, t: State, u: State, w: Which, i: nat, k: nat)
    requires SweptUpTo(s, t, w, i, k) && k < |ListOf(s.ls, w)|
    requires var n := i + |Stay(Live(s), false, ListOf(s.ls, w)[i..k])|;
      && n < |ListOf(t.ls, w)|
      && if ListOf(t.ls, w)[n] in Live(s)
         then u.ls == t.ls && u.hp.Keys == t.hp.Keys
         else u.ls == WithList(t.ls, w, RemoveAt(ListOf(t.ls, w), n)) && u.hp.Keys == t.hp.Keys - {ListOf(t.ls, w)[n]}
    ensures SweptUpTo(s, u, w, i, k + 1)
    ensures ListOf(t.ls, w)[i + |Stay(Live(s), false, ListOf(s.ls, w)[i..k])|] == ListOf(s.ls, w)[k]
    ensures |Stay(Live(s), false, ListOf(s.ls, w)[i..k + 1])| ==
            |Stay(Live(s), false, ListOf(s.ls, w)[i..k])| + if ListOf(s.ls, w)[k] in Live(s) then 1 else 0
  {
    hide Live, Stay, Leave, Elements, RemoveAt, ListOf, WithList;
    ListWith(s.ls, w, ListOf(t.ls, w));
    ListWith(s.ls, w, ListOf(s.ls, w)[..i] + Stay(Live(s), false, ListOf(s.ls, w)[i..k]) + ListOf(s.ls, w)[k..]);
    SweptSeq(ListOf(s.ls, w), Live(s), i, k, ListOf(t.ls, w));
  }

  lemma ListWith(ls: Objects, w: Which, l: seq<Id>)
    ensures ListOf(WithList(ls, w, l), w) == l
    ensures forall l1 :: WithList(WithList(ls, w, l), w, l1) == WithList(ls, w, l1)
  {
  }

  lemma SweptSeq(l: seq<Id>, live: set<Id>, i: nat, k: nat, l1: seq<Id>)
    requires i <= k < |l| && l1 == l[..i] + Stay(live, false, l[i..k]) + l[k..]
    ensures var n := i + |Stay(live, false, l[i..k])|;
      && n < |l1| && l1[n] == l[k]
      && (if l[k] in live then l1 else RemoveAt(l1, n)) == l[..i] + Stay(live, false, l[i..k + 1]) + l[k + 1..]
      && i + |Stay(live, false, l[i..k + 1])| == (if l[k] in live then n + 1 else n)
      && Elements(Leave(live, false, l[i..k + 1])) ==
        Elements(Leave(live, false, l[i..k])) + (if l[k] in live then {} else {l[k]})
  {
    hide Stay, Leave, Elements;
    SweptNext(live, l, i, k);
    assert l[k..] == [l[k]] + l[k + 1..];
    var a := l[..i] + Stay(live, false, l[i..k]);
    RemoveMiddle(a, l[k], l[k + 1..]);
    assert l1 == a + [l[k]] + l[k + 1..];
  }

  lemma SweptUpToLength(s: State, t: State, w: Which, i: nat, k: nat)
    requires SweptUpTo(s, t, w, i, k)
    ensures |ListOf(t.ls, w)| == i + |Stay(Live(s), false, ListOf(s.ls, w)[i..k])| + |ListOf(s.ls, w)| - k
  {
  }

  /** sweeplist, from position `i` of a list: at most `countin` objects. Returns where to
      go on, and the position in the old list that was reached. */
  method SweepList(g: GlobalState, w: Which, i: nat, countin: nat) returns (p: SweepPos, ghost k: nat)
    requires Base(Snap(g)) && !KeepInvariant(g.gcstate)
    requires i <= |ListOf(g.ls, w)| && Swept(g.mk, g.currentwhite, ListOf(g.ls, w), i)
    modifies g`hp, g`mk, g`gray, g`ls
    ensures SweepWork(old(Snap(g)), Snap(g)) && g.gray == old(g.gray)
    ensures k == if countin < |ListOf(old(g.ls), w)| - i then i + countin else |ListOf(old(g.ls), w)|
    ensures SweptUpTo(old(Snap(g)), Snap(g), w, i, k)
    ensures p == if k == |ListOf(old(g.ls), w)| then NoSweep else From(|ListOf(g.ls, w)| - (|ListOf(old(g.ls), w)| - k))
    ensures SweptTo(g.mk, g.currentwhite, ListOf(g.ls, w), p)
  {
    hide Base, Live, MarkPhase, Marked, KeptLive, ClosedOnly, SweepRecolor, MarksSwept, Partition, UpvalsOk, SweepWork,
      Swept, Stay, SweptUpTo, FreeObject;
    var n, count := i, countin;
    k := i;
    SweepWorkNone(Snap(g));
    SweptUpToNone(Snap(g), w, i);
    BaseFacts(Snap(g));
    while n < |ListOf(g.ls, w)| && count > 0
      invariant SweepWork(old(Snap(g)), Snap(g)) && Base(Snap(g)) && Live(Snap(g)) == Live(old(Snap(g)))
        && g.gray == old(g.gray)
      invariant i <= k <= |ListOf(old(g.ls), w)| && k - i == countin - count
      invariant n == i + |Stay(Live(old(Snap(g))), false, ListOf(old(g.ls), w)[i..k])|
      invariant SweptUpTo(old(Snap(g)), Snap(g), w, i, k)
      invariant |ListOf(g.ls, w)| - n == |ListOf(old(g.ls), w)| - k
      invariant Swept(g.mk, g.currentwhite, ListOf(g.ls, w), n)
      decreases count
    {
      count := count - 1;
      ghost var s := Snap(g);
      n := SweepOne(g, w, n);
      SweepWorkTrans(old(Snap(g)), s, Snap(g));
      SweptUpToNext(old(Snap(g)), s, Snap(g), w, i, k);
      k := k + 1;
      SweepWorkBase(old(Snap(g)), Snap(g));
      SweptUpToLength(old(Snap(g)), Snap(g), w, i, k);
    }
    p := if n == |ListOf(g.ls, w)| then NoSweep else From(n);
    SweptToMeans(g.mk, g.currentwhite, ListOf(g.ls, w), n);
  }

  lemma SweptUpToNone(s: State, w: Which, i: nat)
    requires i <= |ListOf(s.ls, w)|
    ensures SweptUpTo(s, s, w, i, i) && Stay(Live(s), false, ListOf(s.ls, w)[i..i]) == []
  {
    var l := ListOf(s.ls, w);
    assert l[i..i] == [];
    assert l == l[..i] + l[i..];
  }

  lemma SweptToMeans(mk: Marks, white: bool, l: seq<Id>, n: nat)
    requires n <= |l| && Swept(mk, white, l, n)
    ensures SweptTo(mk, white, l, if n == |l| then NoSweep else From(n))
  {
  }

  lemma SweepWorkNone(s: State)
    requires Base(s)
    ensures SweepWork(s, s)
  {
    LiveSubset(s);
  }

  lemma SweepWorkBase(s: State, t: State)
    requires SweepWork(s, t)
    ensures Base(t) && Live(t) == Live(s)
  {
  }

  lemma DeadMeans(s: State, o: Id)
    requires o in s.mk && s.mk[o].color == White(!s.white)
    ensures o !in Live(s)
  {
  }

  lemma LiveMeans(s: State, o: Id)
    requires o in s.mk && s.mk[o].color != White(!s.white)
    ensures o in Live(s)
  {
  }

  lemma ListFacts(s: State, w: Which, n: nat)
    requires Base(s) && n < |ListOf(s.ls, w)|
    ensures ListOf(s.ls, w)[n] in s.hp && ListOf(s.ls, w)[n] in s.mk && ListOf(s.ls, w)[n] !in s.ls.fixedgc
  {
    PartitionFacts(s.hp, s.ls);
  }

  lemma SweptNext(live: set<Id>, l: seq<Id>, i: nat, k: nat)
    requires i <= k < |l|
    ensures Stay(live, false, l[i..k + 1]) == Stay(live, false, l[i..k]) + if l[k] in live then [l[k]] else []
    ensures Leave(live, false, l[i..k + 1]) == Leave(live, false, l[i..k]) + if l[k] in live then [] else [l[k]]
    ensures Elements(Leave(live, false, l[i..k + 1])) == Elements(Leave(live, false, l[i..k])) + if l[k] in live
      then {} else {l[k]}
  {
    assert l[i..k + 1] == l[i..k] + [l[k]];
    StayLeaveSnoc(live, false, l[i..k], l[k]);
  }

  lemma RemoveMiddle(a: seq<Id>, x: Id, b: seq<Id>)
    ensures |a| < |a + [x] + b| && RemoveAt(a + [x] + b, |a|) == a + b
  {
  }

  /** Objects already swept stay so. */
  lemma SweptAfter(s: State, t: State, w: Which, l0: seq<Id>, l1: seq<Id>, n: nat)
    requires SweepWork(s, t) && Swept(s.mk, s.white, l0, n) && l1 == ListOf(t.ls, w)
    requires n <= |l0| && n <= |l1| && l0[..n] == l1[..n]
    ensures Swept(t.mk, t.white, l1, n)
  {
    hide Live, LiveClosed, Roots, KindsOk, TwupsOk, MetasOk, Partition, UpvalsOk, KeptLive;
    forall j | 0 <= j < n ensures l1[j] in t.mk && t.mk[l1[j]].color == White(t.white) && t.mk[l1[j]].age.New? {
      assert l1[j] == l1[..n][j] && l0[j] == l0[..n][j];
      ListFacts(t, w, j);
    }
  }

  /** sweeptolive: sweeps from position `i` until a live object, which is swept too, or
      the end of the list. */
  method SweepToLive(g: GlobalState, w: Which, i: nat) returns (p: SweepPos)
    requires Base(Snap(g)) && !KeepInvariant(g.gcstate)
    requires i <= |ListOf(g.ls, w)| && Swept(g.mk, g.currentwhite, ListOf(g.ls, w), i)
    modifies g`hp, g`mk, g`gray, g`ls
    ensures SweepWork(old(Snap(g)), Snap(g)) && g.gray == old(g.gray)
    ensures g.ls == WithList(old(g.ls), w, ListOf(g.ls, w))
    ensures i <= |ListOf(g.ls, w)| && ListOf(g.ls, w)[..i] == ListOf(old(g.ls), w)[..i]
    ensures SweptTo(g.mk, g.currentwhite, ListOf(g.ls, w), p)
    ensures p == NoSweep || p == From(i + 1)
  {
    hide Base, Live, MarkPhase, Marked, KeptLive, ClosedOnly, SweepRecolor, MarksSwept, Partition, UpvalsOk, SweepWork,
      Swept, SweptTo, Stay, SweptUpTo, FreeObject;
    ghost var k: nat;
    BaseFacts(Snap(g));
    p, k := SweepList(g, w, i, 1);
    SweptOneShape(old(Snap(g)), Snap(g), w, i, k);
    while p == From(i)
      invariant SweepWork(old(Snap(g)), Snap(g)) && g.gray == old(g.gray)
      invariant g.ls == WithList(old(g.ls), w, ListOf(g.ls, w))
      invariant i <= |ListOf(g.ls, w)| && ListOf(g.ls, w)[..i] == ListOf(old(g.ls), w)[..i]
      invariant SweptTo(g.mk, g.currentwhite, ListOf(g.ls, w), p)
      invariant p == NoSweep || p == From(i + 1) || p == From(i)
      decreases |ListOf(g.ls, w)|, if p == From(i) then 1 else 0
    {
      ghost var s := Snap(g);
      SweepWorkBase(old(Snap(g)), s);
      SweptFrom(g.mk, g.currentwhite, ListOf(g.ls, w), i);
      p, k := SweepList(g, w, i, 1);
      SweptOneShape(s, Snap(g), w, i, k);
      BaseFacts(old(Snap(g)));
      SweepWorkTrans(old(Snap(g)), s, Snap(g));
    }
  }

  lemma SweptFrom(mk: Marks, white: bool, l: seq<Id>, i: nat)
    requires SweptTo(mk, white, l, From(i))
    ensures Swept(mk, white, l, i) && i <= |l|
  {
  }

  lemma SweptOneShape(s: State, t: State, w: Which, i: nat, k: nat)
    requires SweptUpTo(s, t, w, i, k) && k == if 1 < |ListOf(s.ls, w)| - i then i + 1 else |ListOf(s.ls, w)|
    ensures var l, l1 := ListOf(s.ls, w), ListOf(t.ls, w);
      && t.ls == WithList(s.ls, w, l1) && i <= |l1| <= |l| && l1[..i] == l[..i]
      && (k == |l| || |l1| - (|l| - k) == i + 1 || (|l1| - (|l| - k) == i && |l1| < |l|))
  {
    hide Live, Stay, Leave, WithList, ListOf, Elements;
    var l, l1 := ListOf(s.ls, w), ListOf(t.ls, w);
    ListWith(s.ls, w, l[..i] + Stay(Live(s), false, l[i..k]) + l[k..]);
    if i == |l| {
      StayNone(Live(s), l[i..k]);
    } else {
      StaySingle(Live(s), l[i..k]);
    }
  }

  lemma StayNone(live: set<Id>, l: seq<Id>)
    requires l == []
    ensures Stay(live, false, l) == []
  {
  }

  lemma StaySingle(live: set<Id>, l: seq<Id>)
    requires |l| == 1
    ensures |Stay(live, false, l)| <= 1
  {
    assert l[..0] == [];
  }
}
