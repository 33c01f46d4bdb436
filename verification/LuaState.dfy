/** States of the incremental collector: what holds in every phase, and the lemmas the
    operations of the collector and of the program rest on. */
module LuaState {
  import opened LuaHeap
  import opened LuaMarks
  import opened LuaTricolor
  import opened LuaGc

  /** All of the global state that the incremental collector and its barriers touch. */
  datatype State = State(hp: Heap, mk: Marks, gray: seq<Id>, links: Links, ls: Objects, an: Anchors,
                         twups: seq<Id>, white: bool, at: GcState, sweep: SweepPos)

  ghost function Snap(g: GlobalState): State
    reads g
  {
    State(g.hp, g.mk, g.gray, g.Lists(), g.ls, g.an, g.twups, g.currentwhite, g.gcstate, g.sweepgc)
  }

  /** An object is dead, while lists are being swept, when it has the other white. */
  function Live(s: State): set<Id> {
    set o | o in s.mk && s.mk[o].color != White(!s.white)
  }

  function ValueSet(vs: seq<Value>): set<Id> {
    set i | 0 <= i < |vs| && vs[i].Ref? :: vs[i].id
  }

  /** Where references start: threads, the registry, basic metatables, objects with
      finalizers and fixed strings. */
  ghost function Roots(s: State): set<Id> {
    {s.an.main, s.an.running} + ValueSet([s.an.registry]) + ValueSet(s.an.mt)
    + Elements(s.ls.finobj) + Elements(s.ls.tobefnz) + Elements(s.ls.fixedgc)
  }

  /** The lists of objects hold each object of the heap exactly once. */
  ghost predicate Partition(hp: Heap, ls: Objects) {
    multiset(ls.allgc) + multiset(ls.finobj) + multiset(ls.tobefnz) + multiset(ls.fixedgc) == multiset(hp.Keys)
  }

  /** Live objects refer to live objects only. */
  ghost predicate LiveClosed(hp: Heap, live: set<Id>) {
    forall o :: o in live ==> o in hp && RefsIn(hp, hp[o], live)
  }

  /** Threads with open upvalues are linked in `twups`, and only live threads are. */
  ghost predicate TwupsOk(hp: Heap, live: set<Id>, twups: seq<Id>) {
    && (forall t :: t in live && t in hp && hp[t].Thread? && hp[t].upvals != [] ==> t in twups)
    && (forall t :: t in twups ==> t in live && t in hp && hp[t].Thread?)
  }

  /** Fixed objects are old strings, marked forever; only tables and userdata have finalizers. */
  ghost predicate KindsOk(hp: Heap, mk: Marks, ls: Objects, an: Anchors) {
    && (forall o :: o in ls.fixedgc ==> o in hp && o in mk && hp[o].Str? && !mk[o].color.White? && mk[o].age.Old?)
    && (forall o :: o in ls.finobj || o in ls.tobefnz ==> o in hp && (hp[o].Table? || hp[o].Udata?))
    && an.running in hp && hp[an.running].Thread? && an.main in hp && hp[an.main].Thread?
  }

  /** The finalizer bit tells in which lists an object is. */
  ghost predicate FinOk(mk: Marks, ls: Objects) {
    forall o :: o in mk ==> (mk[o].fin <==> o in ls.finobj || o in ls.tobefnz)
  }

  /** What holds in every phase. */
  ghost predicate Base(s: State) {
    && s.hp.Keys == s.mk.Keys && UpvalsOk(s.hp) && MetasOk(s.hp, Live(s))
    && Partition(s.hp, s.ls)
    && LiveClosed(s.hp, Live(s))
    && Roots(s) <= Live(s)
    && TwupsOk(s.hp, Live(s), s.twups)
    && KindsOk(s.hp, s.mk, s.ls, s.an) && FinOk(s.mk, s.ls)
  }

  /** The first `n` objects of `l` have been swept. */
  ghost predicate Swept(mk: Marks, white: bool, l: seq<Id>, n: nat) {
    forall j :: 0 <= j < n && j < |l| ==> l[j] in mk && mk[l[j]].color == White(white) && mk[l[j]].age.New?
  }

  ghost predicate SweptTo(mk: Marks, white: bool, l: seq<Id>, p: SweepPos) {
    Swept(mk, white, l, if p.NoSweep? then |l| else p.i) && (p.From? ==> p.i <= |l|)
  }

  ghost predicate AllSwept(mk: Marks, white: bool, ls: Objects) {
    Swept(mk, white, ls.allgc, |ls.allgc|) && Swept(mk, white, ls.finobj, |ls.finobj|)
      && Swept(mk, white, ls.tobefnz, |ls.tobefnz|)
  }

  /** While marking nothing is dead yet, and the tri-colour invariant holds. */
  ghost predicate MarkPhase(s: State) {
    && Tricolor(s.hp, s.mk, s.gray, s.links.grayagain, s.ls.fixedgc)
    && (forall o :: o in s.mk ==> s.mk[o].color != White(!s.white))
    && (forall o :: o in s.mk && o !in s.ls.fixedgc ==> s.mk[o].age.New?)
    && s.an.main in Marked(s.mk)
    && s.links.weak == s.links.allweak == s.links.eph == []
  }

  /** What holds in each phase. Nothing but a step is ever inside the atomic phase. */
  ghost predicate Phase(s: State) {
    match s.at
    case Propagate => MarkPhase(s) && s.sweep.NoSweep?
    case EnterAtomic => MarkPhase(s) && s.sweep.NoSweep?
    case Atomic => false
    case SwpAllGc => SweptTo(s.mk, s.white, s.ls.allgc, s.sweep)
    case SwpFinObj => Swept(s.mk, s.white, s.ls.allgc, |s.ls.allgc|) && SweptTo(s.mk, s.white, s.ls.finobj, s.sweep)
    case SwpToBeFnz =>
      && Swept(s.mk, s.white, s.ls.allgc, |s.ls.allgc|) && Swept(s.mk, s.white, s.ls.finobj, |s.ls.finobj|)
      && SweptTo(s.mk, s.white, s.ls.tobefnz, s.sweep)
    case _ => AllSwept(s.mk, s.white, s.ls) && s.sweep.NoSweep?
  }

  ghost predicate Valid(s: State) {
    Base(s) && Phase(s)
  }

  /** Safety of a state: whatever the program can reach is in the heap and is not dead. */
  lemma ReachableIsLive(s: State, o: Id)
    requires Base(s) && Reachable(s.hp, Roots(s), o)
    ensures o in s.hp && o in Live(s)
  {
    var p :| Path(s.hp, Roots(s), p) && p[|p| - 1] == o;
    PathStaysIn(s.hp, Roots(s), p, Live(s));
  }

  /** Objects in the lists are in the heap, none of them twice. */
  lemma PartitionFacts(hp: Heap, ls: Objects)
    requires Partition(hp, ls)
    ensures forall x :: x in hp <==> x in ls.allgc || x in ls.finobj || x in ls.tobefnz || x in ls.fixedgc
    ensures forall x :: x in ls.allgc ==> x !in ls.finobj && x !in ls.tobefnz && x !in ls.fixedgc
    ensures forall x :: x in ls.finobj ==> x !in ls.tobefnz && x !in ls.fixedgc
    ensures forall x :: x in ls.tobefnz ==> x !in ls.fixedgc
    ensures forall x :: multiset(ls.allgc)[x] <= 1 && multiset(ls.finobj)[x] <= 1 && multiset(ls.tobefnz)[x] <= 1
  {
    var m := multiset(ls.allgc) + multiset(ls.finobj) + multiset(ls.tobefnz) + multiset(ls.fixedgc);
    forall x
      ensures x in hp <==> x in ls.allgc || x in ls.finobj || x in ls.tobefnz || x in ls.fixedgc
      ensures x in ls.allgc ==> x !in ls.finobj && x !in ls.tobefnz && x !in ls.fixedgc
      ensures x in ls.finobj ==> x !in ls.tobefnz && x !in ls.fixedgc
      ensures x in ls.tobefnz ==> x !in ls.fixedgc
      ensures multiset(ls.allgc)[x] <= 1 && multiset(ls.finobj)[x] <= 1 && multiset(ls.tobefnz)[x] <= 1
    {
      assert x in m <==> x in hp.Keys;
      assert m[x] == multiset(hp.Keys)[x];
      InMultiset(ls.allgc, x); InMultiset(ls.finobj, x); InMultiset(ls.tobefnz, x); InMultiset(ls.fixedgc, x);
    }
  }

  lemma InMultiset(l: seq<Id>, x: Id)
    ensures x in l <==> multiset(l)[x] >= 1
  {
    assert x in l <==> x in multiset(l);
  }

  /** The first open upvalue of `th` gets its own copy of the value. */
  function CloseFirst(hp: Heap, th: Id): Heap
    requires th in hp && hp[th].Thread? && hp[th].upvals != []
  {
    var u := hp[th].upvals[0];
    var v := if u in hp && hp[u].OpenUpval? then SlotValue(hp, hp[u].th, hp[u].slot) else Nil;
    hp[u := ClosedUpval(v)][th := Thread(hp[th].stack, hp[th].upvals[1..])]
  }

  lemma CloseFirstKeeps(hp: Heap, th: Id, live: set<Id>)
    requires UpvalsOk(hp) && th in hp && hp[th].Thread? && hp[th].upvals != []
    requires live <= hp.Keys && LiveClosed(hp, live) && MetasOk(hp, live)
    ensures CloseFirst(hp, th).Keys == hp.Keys && UpvalsOk(CloseFirst(hp, th))
    ensures LiveClosed(CloseFirst(hp, th), live) && MetasOk(CloseFirst(hp, th), live)
  {
    var u, h1 := hp[th].upvals[0], CloseFirst(hp, th);
    assert hp[u].OpenUpval? && hp[u].th == th;
    forall o | o in live ensures o in h1 && RefsIn(h1, h1[o], live) {
      assert RefsIn(hp, hp[o], live);
      if h1[o].OpenUpval? {
        assert SlotValue(h1, h1[o].th, h1[o].slot) == SlotValue(hp, hp[o].th, hp[o].slot);
      }
    }
    CloseFirstUpvals(hp, th);
  }

  /** What closing does to the heap. */
  lemma CloseShape(hp: Heap, th: Id)
    requires th in hp && hp[th].Thread? && hp[th].upvals != []
    requires var u := hp[th].upvals[0]; u in hp && hp[u].OpenUpval? && hp[u].th == th && u != th
    ensures var u, h1 := hp[th].upvals[0], CloseFirst(hp, th);
      && h1.Keys == hp.Keys
      && h1[u] == ClosedUpval(SlotValue(hp, th, hp[u].slot)) && h1[th] == Thread(hp[th].stack, hp[th].upvals[1..])
      && forall x :: x in hp && x != u && x != th ==> h1[x] == hp[x]
  {
  }

  lemma CloseFirstUpvals(hp: Heap, th: Id)
    requires UpvalsOk(hp) && th in hp && hp[th].Thread? && hp[th].upvals != []
    ensures UpvalsOk(CloseFirst(hp, th))
  {
    hide CloseFirst;
    var us, h1 := hp[th].upvals, CloseFirst(hp, th);
    FirstUpval(hp, th);
    CloseShape(hp, th);
    TailFacts(us);
    forall o | o in h1 && h1[o].OpenUpval?
      ensures h1[o].th in h1 && h1[h1[o].th].Thread? && h1[o].slot < |h1[h1[o].th].stack| && o in h1[h1[o].th].upvals
    {
      assert h1[o] == hp[o] && o in hp[hp[o].th].upvals;
    }
    forall o, i | o in h1 && h1[o].Thread? && 0 <= i < |h1[o].upvals|
      ensures h1[o].upvals[i] in h1 && h1[h1[o].upvals[i]].OpenUpval? && h1[h1[o].upvals[i]].th == o
    {
      if o == th {
        assert us[1..][i] in us[1..];
      } else {
        assert h1[o] == hp[o] && hp[hp[o].upvals[i]].th == o;
      }
    }
  }

  lemma TailFacts(us: seq<Id>)
    requires us != [] && forall i, j :: 0 <= i < j < |us| ==> us[i] != us[j]
    ensures forall x :: x in us[1..] <==> x in us && x != us[0]
    ensures forall i, j :: 0 <= i < j < |us[1..]| ==> us[1..][i] != us[1..][j]
  {
    assert us == [us[0]] + us[1..];
  }

  /** The invariant has to be kept: no sweep has started. */
  predicate KeepInvariant(at: GcState) {
    at.Propagate? || at.EnterAtomic? || at.Atomic?
  }

  lemma LiveSame(s: State, m1: Marks)
    requires m1.Keys == s.mk.Keys
    requires forall o :: o in m1 ==> (m1[o].color == White(!s.white) <==> s.mk[o].color == White(!s.white))
    ensures Live(s.(mk := m1)) == Live(s)
  {
  }

  /** Recolouring live objects into other live colours keeps the base invariant. */
  lemma BaseRecolor(s: State, m1: Marks)
    requires Base(s) && m1.Keys == s.mk.Keys
    requires forall o ::
      o in m1 ==> (m1[o].color == White(!s.white) <==> s.mk[o].color == White(!s.white)) && m1[o].fin == s.mk[o].fin
    requires forall o :: o in s.ls.fixedgc && o in m1 ==> m1[o] == s.mk[o]
    ensures Base(s.(mk := m1)) && Live(s.(mk := m1)) == Live(s)
  {
    hide UpvalsOk, MetasOk, LiveClosed, Partition, TwupsOk;
    LiveSame(s, m1);
  }

  /** The gray lists and the phase are no concern of the base invariant. */
  lemma BaseAside(s: State, t: State)
    requires Base(s) && t == s.(gray := t.gray, links := t.links, at := t.at, sweep := t.sweep)
    ensures Base(t) && Live(t) == Live(s) && Roots(t) == Roots(s)
  {
  }

  lemma BaseClose(s: State, th: Id)
    requires Base(s) && th in s.hp && s.hp[th].Thread? && s.hp[th].upvals != []
    ensures s.hp[th].upvals[0] in s.hp && s.hp[s.hp[th].upvals[0]].OpenUpval? && s.hp[s.hp[th].upvals[0]].th == th
    ensures s.hp[th].upvals[0] != th && s.hp.Keys == s.mk.Keys
    ensures Base(s.(hp := CloseFirst(s.hp, th))) && Live(s.(hp := CloseFirst(s.hp, th))) == Live(s)
    ensures s.hp[th].upvals[0] in Live(s) ==> In(SlotValue(s.hp, th, s.hp[s.hp[th].upvals[0]].slot), Live(s))
  {
    hide UpvalsOk, MetasOk, TwupsOk, KindsOk, Partition;
    var h1 := CloseFirst(s.hp, th);
    FirstUpval(s.hp, th);
    CloseFirstKeeps(s.hp, th, Live(s));
    CloseFirstKinds(s, th);
    assert h1.Keys == s.hp.Keys;
    PartitionKeys(s.hp, h1, s.ls);
    if s.hp[th].upvals[0] in Live(s) { assert RefsIn(s.hp, s.hp[s.hp[th].upvals[0]], Live(s)); }
  }

  lemma PartitionKeys(h0: Heap, h1: Heap, ls: Objects)
    requires h0.Keys == h1.Keys
    ensures Partition(h0, ls) <==> Partition(h1, ls)
  {
  }

  lemma FirstUpval(hp: Heap, th: Id)
    requires UpvalsOk(hp) && th in hp && hp[th].Thread? && hp[th].upvals != []
    ensures hp[th].upvals[0] in hp && hp[hp[th].upvals[0]].OpenUpval? && hp[hp[th].upvals[0]].th == th
      && hp[th].upvals[0] != th
  {
  }

  lemma CloseFirstKinds(s: State, th: Id)
    requires th in s.hp && s.hp[th].Thread? && s.hp[th].upvals != []
    requires s.hp[th].upvals[0] in s.hp && s.hp[s.hp[th].upvals[0]].OpenUpval? && s.hp[th].upvals[0] != th
    ensures TwupsOk(s.hp, Live(s), s.twups) ==> TwupsOk(CloseFirst(s.hp, th), Live(s), s.twups)
    ensures KindsOk(s.hp, s.mk, s.ls, s.an) ==> KindsOk(CloseFirst(s.hp, th), s.mk, s.ls, s.an)
  {
    hide Live;
  }

  lemma TricolorClose(hp: Heap, mk: Marks, g0: seq<Id>, again: seq<Id>, fixedgc: seq<Id>, th: Id, u: Id, m2: Marks,
          g2: seq<Id>)
    requires UpvalsOk(hp) && Tricolor(hp, mk, g0, again, fixedgc)
    requires th in hp && hp[th].Thread? && hp[th].upvals != [] && u == hp[th].upvals[0] && u in mk
      && !mk[u].color.White?
    requires Marking(CloseFirst(hp, th), mk[u := mk[u].(color := Black)], g0, m2, g2)
    requires u in hp && hp[u].OpenUpval? && hp[u].th == th && In(SlotValue(hp, th, hp[u].slot), Marked(m2))
    ensures Tricolor(CloseFirst(hp, th), m2, g2, again, fixedgc)
  {
    hide RefsIn, Once, UpvalsOk, Marking;
    var h1, m1 := CloseFirst(hp, th), mk[u := mk[u].(color := Black)];
    FirstUpval(hp, th);
    MarkedSame(mk, m1, u);
    MarkingGrows(h1, m1, g0, m2, g2);
    OnceMark(h1, m1, g0, m2, g2, again);
    forall o | o in m2 && !m2[o].color.White? ensures Colored(h1, m2, g2, again, fixedgc, o) {
      if o == u {
        ClosedRefs(h1, u, Marked(m2));
      } else if o in Marked(mk) {
        assert Colored(hp, mk, g0, again, fixedgc, o);
        if m2[o].color.Black? {
          RefsInMonotone(hp, hp[o], Marked(mk), Marked(m2));
          RefsInSame(hp, h1, hp[o], Marked(m2));
        }
      } else {
        assert o in NewlyMarked(m1, m2);
        NewInColor(h1, m1, g0, m2, g2, o);
      }
    }
    forall o | o in g2 || o in again ensures o in m2 && m2[o].color.Gray? && NeedsVisit(h1[o]) {
      if o in g2 && o !in g0 { NewInColor(h1, m1, g0, m2, g2, o); }
    }
  }

  lemma ClosedRefs(hp: Heap, u: Id, t: set<Id>)
    requires u in hp && hp[u].ClosedUpval?
    ensures RefsIn(hp, hp[u], t) <==> In(hp[u].v, t)
  {
  }

  lemma TricolorCloseWhite(hp: Heap, mk: Marks, gray: seq<Id>, again: seq<Id>, fixedgc: seq<Id>, th: Id)
    requires UpvalsOk(hp) && Tricolor(hp, mk, gray, again, fixedgc)
    requires th in hp && hp[th].Thread? && hp[th].upvals != [] && hp[th].upvals[0] in mk
      && mk[hp[th].upvals[0]].color.White?
    ensures Tricolor(CloseFirst(hp, th), mk, gray, again, fixedgc)
  {
    hide RefsIn, Once, UpvalsOk;
    FirstUpval(hp, th);
    forall o | o in mk && !mk[o].color.White? ensures Colored(CloseFirst(hp, th), mk, gray, again, fixedgc, o) {
      assert Colored(hp, mk, gray, again, fixedgc, o);
      if mk[o].color.Black? { RefsInSame(hp, CloseFirst(hp, th), hp[o], Marked(mk)); }
    }
  }

  /** While marking everything is live, so the collector may follow any reference. */
  lemma MarkingFacts(s: State)
    requires Base(s) && MarkPhase(s)
    ensures Live(s) == s.hp.Keys == s.mk.Keys && HeapReady(s.hp, s.hp.Keys) && WellFormed(s.hp)
    ensures Marked(s.mk) <= s.hp.Keys
  {
    hide Tricolor, UpvalsOk, MetasOk;
    assert Live(s) == s.hp.Keys;
    AllIsEnclosed(s.hp);
  }

  lemma MarkingAlive(hp: Heap, m0: Marks, g0: seq<Id>, m1: Marks, g1: seq<Id>, white: bool)
    requires Marking(hp, m0, g0, m1, g1)
    requires forall o :: o in m0 ==> m0[o].color != White(!white)
    ensures m0.Keys == m1.Keys
    ensures forall o :: o in m1 ==> m1[o].color != White(!white) && m1[o].age == m0[o].age && m1[o].fin == m0[o].fin
  {
  }

  lemma FixedUntouched(s: State, m1: Marks, g1: seq<Id>)
    requires Base(s) && Marking(s.hp, s.mk, s.gray, m1, g1)
    ensures forall o :: o in s.ls.fixedgc && o in m1 ==> m1[o] == s.mk[o]
  {
  }

  /** Closing a marked upvalue, once its value is marked too. */
  lemma CloseMarked(s: State, th: Id, u: Id, m2: Marks, g2: seq<Id>)
    requires Base(s) && MarkPhase(s)
    requires th in s.hp && s.hp[th].Thread? && s.hp[th].upvals != [] && u == s.hp[th].upvals[0]
    requires u in s.hp && s.hp[u].OpenUpval? && s.hp[u].th == th && u in s.mk && !s.mk[u].color.White?
    requires Marking(CloseFirst(s.hp, th), s.mk[u := s.mk[u].(color := Black)], s.gray, m2, g2)
    requires In(SlotValue(s.hp, th, s.hp[u].slot), Marked(m2))
    ensures Base(s.(hp := CloseFirst(s.hp, th), mk := m2, gray := g2))
    ensures MarkPhase(s.(hp := CloseFirst(s.hp, th), mk := m2, gray := g2))
  {
    hide Tricolor, Base, UpvalsOk, WellFormed, HeapReady, JustMarked, RefsIn, MarkPhase;
    var h1, m1 := CloseFirst(s.hp, th), s.mk[u := s.mk[u].(color := Black)];
    var t := s.(hp := h1);
    MarkingFacts(s);
    WellFormedUpvals(s.hp);
    BaseClose(s, th);
    MarkedSame(s.mk, m1, u);
    MarkingGrows(h1, m1, s.gray, m2, g2);
    MarkingAlive(h1, m1, s.gray, m2, g2, s.white);
    FixedNotUpval(t, u);
    BaseRecolor(t, m1);
    FixedUntouched(t.(mk := m1), m2, g2);
    BaseRecolor(t.(mk := m1), m2);
    BaseAside(t.(mk := m2), t.(mk := m2, gray := g2));
    CloseMarkedPhase(s, th, u, m2, g2);
  }

  lemma CloseMarkedPhase(s: State, th: Id, u: Id, m2: Marks, g2: seq<Id>)
    requires MarkPhase(s) && UpvalsOk(s.hp)
    requires th in s.hp && s.hp[th].Thread? && s.hp[th].upvals != [] && u == s.hp[th].upvals[0]
    requires u in s.hp && s.hp[u].OpenUpval? && s.hp[u].th == th && u in s.mk && !s.mk[u].color.White?
    requires Marking(CloseFirst(s.hp, th), s.mk[u := s.mk[u].(color := Black)], s.gray, m2, g2)
    requires In(SlotValue(s.hp, th, s.hp[u].slot), Marked(m2))
    ensures MarkPhase(s.(hp := CloseFirst(s.hp, th), mk := m2, gray := g2))
  {
    hide Tricolor, UpvalsOk, JustMarked, RefsIn;
    TricolorClose(s.hp, s.mk, s.gray, s.links.grayagain, s.ls.fixedgc, th, u, m2, g2);
    MarkingAlive(CloseFirst(s.hp, th), s.mk[u := s.mk[u].(color := Black)], s.gray, m2, g2, s.white);
  }

  lemma WellFormedUpvals(hp: Heap)
    requires WellFormed(hp)
    ensures UpvalsOk(hp)
  {
  }

  lemma FixedNotUpval(s: State, u: Id)
    requires Base(s) && u in s.hp && !s.hp[u].Str?
    ensures u !in s.ls.fixedgc
  {
  }

  lemma CloseUnmarked(s: State, th: Id)
    requires Base(s) && MarkPhase(s)
    requires th in s.hp && s.hp[th].Thread? && s.hp[th].upvals != []
    requires s.hp[th].upvals[0] in s.mk && s.mk[s.hp[th].upvals[0]].color.White?
    ensures Base(s.(hp := CloseFirst(s.hp, th))) && MarkPhase(s.(hp := CloseFirst(s.hp, th)))
  {
    hide Tricolor, UpvalsOk;
    BaseClose(s, th);
    TricolorCloseWhite(s.hp, s.mk, s.gray, s.links.grayagain, s.ls.fixedgc, th);
  }

  /** The list of open upvalues without `o`. */
  function Without(us: seq<Id>, o: Id): seq<Id> {
    if us == [] then [] else if us[0] == o then us[1..] else [us[0]] + Without(us[1..], o)
  }

  lemma {:induction false} WithoutIn(us: seq<Id>, o: Id)
    requires forall i, j :: 0 <= i < j < |us| ==> us[i] != us[j]
    ensures forall x :: x in Without(us, o) <==> x in us && x != o
    ensures forall i, j :: 0 <= i < j < |Without(us, o)| ==> Without(us, o)[i] != Without(us, o)[j]
  {
    if us != [] {
      assert us == [us[0]] + us[1..];
      assert forall i :: 0 < i < |us| ==> us[1..][i - 1] == us[i];
      if us[0] != o {
        WithoutIn(us[1..], o);
        var w := Without(us[1..], o);
        assert forall i :: 0 <= i < |w| ==> w[i] in us[1..];
      }
    }
  }

  /** freeobj: an open upvalue is unlinked from its thread first. */
  function FreeObject(hp: Heap, o: Id): Heap
    requires o in hp
  {
    if hp[o].OpenUpval? && hp[o].th in hp && hp[hp[o].th].Thread? then
      hp[hp[o].th := Thread(hp[hp[o].th].stack, Without(hp[hp[o].th].upvals, o))] - {o}
    else hp - {o}
  }

  lemma FreeUpvals(hp: Heap, o: Id)
    requires UpvalsOk(hp) && o in hp && (hp[o].Thread? ==> hp[o].upvals == [])
    ensures UpvalsOk(FreeObject(hp, o))
  {
    if hp[o].OpenUpval? {
      FreeUnlinks(hp, o);
    } else {
      assert forall x :: x in hp && x != o ==> FreeObject(hp, o)[x] == hp[x];
    }
  }

  /** What freeobj does to the rest of the heap. */
  lemma FreeShape(hp: Heap, o: Id)
    requires UpvalsOk(hp) && o in hp
    ensures FreeObject(hp, o).Keys == hp.Keys - {o}
    ensures forall x :: x in hp && x != o && !(hp[o].OpenUpval? && x == hp[o].th) ==> FreeObject(hp, o)[x] == hp[x]
    ensures hp[o].OpenUpval? ==> hp[o].th in hp && hp[hp[o].th].Thread? && hp[o].th != o && o in hp[hp[o].th].upvals
    ensures hp[o].OpenUpval? ==>
              FreeObject(hp, o)[hp[o].th] == Thread(hp[hp[o].th].stack, Without(hp[hp[o].th].upvals, o))
  {
  }

  lemma FreeUnlinks(hp: Heap, o: Id)
    requires UpvalsOk(hp) && o in hp && hp[o].OpenUpval?
    ensures UpvalsOk(FreeObject(hp, o))
  {
    var h1, th := FreeObject(hp, o), hp[o].th;
    var us, w := hp[th].upvals, Without(hp[th].upvals, o);
    WithoutIn(us, o);
    assert h1[th].upvals == w;
    forall x, i | x in h1 && h1[x].Thread? && 0 <= i < |h1[x].upvals|
      ensures h1[x].upvals[i] in h1 && h1[h1[x].upvals[i]].OpenUpval? && h1[h1[x].upvals[i]].th == x
    {
      if x == th { assert w[i] in w; } else { assert h1[x] == hp[x] && hp[x].upvals[i] != o; }
    }
    forall x | x in h1 && h1[x].OpenUpval?
      ensures h1[x].th in h1 && h1[h1[x].th].Thread? && h1[x].slot < |h1[h1[x].th].stack| && x in h1[h1[x].th].upvals
    {
      assert h1[x] == hp[x];
    }
  }

  /** A live thread keeps its open upvalues live. */
  lemma UpvalOfLive(hp: Heap, o: Id, live: set<Id>)
    requires UpvalsOk(hp) && LiveClosed(hp, live) && o in hp && hp[o].OpenUpval?
    ensures hp[o].th in live ==> o in live
  {
    if hp[o].th in live {
      assert RefsIn(hp, hp[hp[o].th], live) && o in hp[hp[o].th].upvals;
    }
  }

  /** Freeing a dead object that no list mentions any more. */
  lemma FreeKeeps(s: State, o: Id, ls1: Objects)
    requires Base(s) && o in s.hp && o !in Live(s) && (s.hp[o].Thread? ==> s.hp[o].upvals == [])
    requires Partition(s.hp - {o}, ls1)
    requires Elements(ls1.finobj) <= Elements(s.ls.finobj) && Elements(ls1.tobefnz) <= Elements(s.ls.tobefnz)
      && ls1.fixedgc == s.ls.fixedgc
    requires FinOk(s.mk - {o}, ls1)
    ensures Base(s.(hp := FreeObject(s.hp, o), mk := s.mk - {o}, ls := ls1))
    ensures Live(s.(hp := FreeObject(s.hp, o), mk := s.mk - {o}, ls := ls1)) == Live(s)
    ensures FreeObject(s.hp, o).Keys == s.hp.Keys - {o}
    ensures forall x :: x in Live(s) ==> FreeObject(s.hp, o)[x] == s.hp[x]
  {
    hide UpvalsOk, TwupsOk, KindsOk, MetasOk, RefsIn, Roots, LiveClosed;
    var h1, live := FreeObject(s.hp, o), Live(s);
    var t := s.(hp := h1, mk := s.mk - {o}, ls := ls1);
    FreeShape(s.hp, o);
    FreeUpvals(s.hp, o);
    if s.hp[o].OpenUpval? { UpvalOfLive(s.hp, o, live); }
    assert Live(t) == live;
    LiveSubset(s);
    PartitionKeys(h1, s.hp - {o}, ls1);
    FreeLiveClosed(s.hp, o, live);
    FreeRoots(s, ls1);
    FreeKinds(s, o, ls1);
  }

  lemma LiveSubset(s: State)
    requires Base(s)
    ensures Live(s) <= s.hp.Keys
  {
  }

  lemma FreeLiveClosed(hp: Heap, o: Id, live: set<Id>)
    requires UpvalsOk(hp) && o in hp && o !in live && (hp[o].Thread? ==> hp[o].upvals == [])
    requires LiveClosed(hp, live) && MetasOk(hp, live) && live <= hp.Keys
    ensures LiveClosed(FreeObject(hp, o), live) && MetasOk(FreeObject(hp, o), live)
  {
    hide UpvalsOk;
    var h1 := FreeObject(hp, o);
    FreeShape(hp, o);
    if hp[o].OpenUpval? { UpvalOfLive(hp, o, live); }
    forall x | x in live
      ensures x in h1 && RefsIn(h1, h1[x], live)
      ensures (h1[x].Udata? || h1[x].Table?) && h1[x].meta.Ref? ==> h1[x].meta.id in h1 && h1[h1[x].meta.id].Table?
    {
      assert h1[x] == hp[x] && RefsIn(hp, hp[x], live);
      if hp[x].OpenUpval? { FreeSlot(hp, o, x); }
    }
  }

  lemma FreeSlot(hp: Heap, o: Id, x: Id)
    requires UpvalsOk(hp) && o in hp && x in hp && hp[x].OpenUpval? && x != o && (hp[o].Thread? ==> hp[o].upvals == [])
    ensures SlotValue(FreeObject(hp, o), hp[x].th, hp[x].slot) == SlotValue(hp, hp[x].th, hp[x].slot)
  {
  }

  lemma FreeRoots(s: State, ls1: Objects)
    requires Elements(ls1.finobj) <= Elements(s.ls.finobj) && Elements(ls1.tobefnz) <= Elements(s.ls.tobefnz)
      && ls1.fixedgc == s.ls.fixedgc
    ensures Roots(s.(ls := ls1)) <= Roots(s)
    ensures forall t: State :: t.ls == ls1 && t.an == s.an ==> Roots(t) == Roots(s.(ls := ls1))
  {
  }

  lemma FreeKinds(s: State, o: Id, ls1: Objects)
    requires Base(s) && o in s.hp && o !in Live(s)
    requires Elements(ls1.finobj) <= Elements(s.ls.finobj) && Elements(ls1.tobefnz) <= Elements(s.ls.tobefnz)
      && ls1.fixedgc == s.ls.fixedgc
    requires forall x :: x in Live(s) ==> x in FreeObject(s.hp, o) && FreeObject(s.hp, o)[x] == s.hp[x]
    ensures TwupsOk(FreeObject(s.hp, o), Live(s), s.twups)
    ensures KindsOk(FreeObject(s.hp, o), s.mk - {o}, ls1, s.an)
  {
    hide UpvalsOk, Partition, LiveClosed, MetasOk;
    forall x | x in ls1.finobj || x in ls1.tobefnz || x in ls1.fixedgc
      ensures x in Live(s) && (x in ls1.fixedgc || x in s.ls.finobj || x in s.ls.tobefnz)
    {
      assert x in ls1.finobj ==> x in Elements(ls1.finobj);
      assert x in ls1.tobefnz ==> x in Elements(ls1.tobefnz);
      assert x in Elements(s.ls.finobj) + Elements(s.ls.tobefnz) + Elements(s.ls.fixedgc);
      assert x in Roots(s);
    }
    assert s.an.running in Roots(s) && s.an.main in Roots(s);
    assert s.an.running in Live(s) && s.an.main in Live(s);
    assert forall x :: x in Live(s) ==> x in s.mk - {o} && (s.mk - {o})[x] == s.mk[x];
    FixedNotFin(s, ls1);
  }

  lemma FixedNotFin(s: State, ls1: Objects)
    requires Partition(s.hp, s.ls)
    requires Elements(ls1.finobj) <= Elements(s.ls.finobj) && Elements(ls1.tobefnz) <= Elements(s.ls.tobefnz)
    ensures forall x ::
      x in ls1.finobj || x in ls1.tobefnz ==> x !in s.ls.fixedgc && (x in s.ls.finobj || x in s.ls.tobefnz)
  {
    PartitionFacts(s.hp, s.ls);
    forall x | x in ls1.finobj || x in ls1.tobefnz ensures x in s.ls.finobj || x in s.ls.tobefnz {
      assert x in ls1.finobj ==> x in Elements(ls1.finobj);
      assert x in ls1.tobefnz ==> x in Elements(ls1.tobefnz);
    }
  }

  lemma MarkingAge(s: State, u: Id)
    requires Base(s) && MarkPhase(s) && u in s.hp && !s.hp[u].Str?
    ensures u in s.mk && s.mk[u].age.New?
  {
  }

  /** After the first upvalue of `th` is closed the collector may still follow anything. */
  lemma MarkingFactsClosed(s: State, th: Id)
    requires Base(s) && MarkPhase(s) && th in s.hp && s.hp[th].Thread? && s.hp[th].upvals != []
    ensures HeapReady(CloseFirst(s.hp, th), s.hp.Keys) && CloseFirst(s.hp, th).Keys == s.hp.Keys
    ensures var u := s.hp[th].upvals[0];
      u in CloseFirst(s.hp, th) && CloseFirst(s.hp, th)[u].ClosedUpval? && In(CloseFirst(s.hp, th)[u].v, s.hp.Keys)
  {
    hide UpvalsOk, Tricolor;
    MarkingFacts(s);
    BaseClose(s, th);
    var t := s.(hp := CloseFirst(s.hp, th));
    assert Live(t) == t.hp.Keys;
    AllIsEnclosed(t.hp);
    assert RefsIn(t.hp, t.hp[s.hp[th].upvals[0]], Live(t));
  }
}
