/** The generational mode, between two young collections: what the age of an object says about
    its colour, its place and its references, and how the lists are divided by age. */
module LuaGen {
  import opened LuaHeap
  import opened LuaMarks
  import opened LuaLists
  import opened LuaTricolor
  import opened LuaGc
  import opened LuaState

  ghost function Olds(mk: Marks): set<Id> {
    set o | o in mk && mk[o].age.IsOld()
  }

  ghost function NotNew(mk: Marks): set<Id> {
    set o | o in mk && !mk[o].age.New?
  }

  /** Young objects are white, old ones are not. */
  predicate AgeColor(m: Mark, white: bool) {
    if m.age.IsOld() then !m.color.White? else m.color == White(white)
  }

  /** Where an object is kept that the next collection has to visit: touched objects and old
      threads in `grayagain`, objects made old by a forward barrier in the gray list. An old1
      thread may be black and in no list, as the next collection starts with the old1 objects. */
  predicate Held(ob: Object, m: Mark, o: Id, gray: seq<Id>, again: seq<Id>) {
    match ob
    case Str => !IsTouched(m.age)
    case OpenUpval(_, _) => !IsTouched(m.age) && (m.age.IsOld() ==> m.color.Gray?)
    case Thread(_, _) =>
      && !IsTouched(m.age)
      && (m.age.IsOld() ==> if m.color.Black? then m.age.Old1? else o in gray || o in again)
    case _ =>
      && (m.color.Gray? ==> NeedsVisit(ob) && ((m.age.Old0? && o in gray) || m.age.Touched1?))
      && (IsTouched(m.age) ==>
            (ob.Table? || ob.Udata?) && NeedsVisit(ob) && o in again
              && m.color == if m.age.Touched1? then Gray else Black)
  }

  /** Old objects refer to old objects only; old1 and touched2 objects may refer to survivals
      of the last collection too, but not to new ones. Gray objects are to be visited, and
      threads and open upvalues are no part of this. */
  ghost predicate Edges(hp: Heap, mk: Marks, o: Id)
    requires o in hp && o in mk
  {
    mk[o].color.Black? && !hp[o].Thread? && !hp[o].OpenUpval? ==>
      RefsIn(hp, hp[o], if mk[o].age.Old1? || mk[o].age.Touched2? then NotNew(mk) else Olds(mk))
  }

  ghost predicate Aged(hp: Heap, mk: Marks, gray: seq<Id>, again: seq<Id>, white: bool, o: Id)
    requires o in hp && o in mk
  {
    AgeColor(mk[o], white) && Held(hp[o], mk[o], o, gray, again) && Edges(hp, mk, o)
  }

  function Rank(a: Age): nat {
    if a.New? then 0 else if a.Survival? then 1 else 2
  }

  /** No open upvalue is older than its thread. */
  ghost predicate Ranks(hp: Heap, mk: Marks) {
    forall u :: u in hp && u in mk && hp[u].OpenUpval? && hp[u].th in mk ==> Rank(mk[u].age) <= Rank(mk[hp[u].th].age)
  }

  /** Ages that a young collection has to advance by sweeping. */
  predicate Unsettled(a: Age) {
    a.New? || a.Survival? || a.Old0?
  }

  /** The pointers divide a list: new objects come before position `a`, survivals and old0
      objects before `b`, old1 objects before `d`. */
  predicate ChainAt(mk: Marks, l: seq<Id>, sur: Pointer, old1: Pointer, rold: Pointer, a: nat, b: nat, d: nat) {
    && a <= b <= d && PointsAt(sur, l, a) && PointsAt(old1, l, b) && PointsAt(rold, l, d)
    && (forall i :: 0 <= i < |l| ==> l[i] in mk)
    && (forall i :: a <= i < |l| ==> !mk[l[i]].age.New?)
    && (forall i :: b <= i < |l| ==> !Unsettled(mk[l[i]].age))
    && (forall i :: d <= i < |l| ==> !mk[l[i]].age.Old1?)
  }

  ghost predicate Chain(mk: Marks, l: seq<Id>, sur: Pointer, old1: Pointer, rold: Pointer) {
    exists a: nat, b: nat, d: nat :: ChainAt(mk, l, sur, old1, rold, a, b, d)
  }

  /** No old1 object comes before the pointer. */
  predicate FirstAt(mk: Marks, l: seq<Id>, p: Pointer, f: nat) {
    PointsAt(p, l, f) && (forall i :: 0 <= i < f ==> l[i] in mk && !mk[l[i]].age.Old1?)
  }

  ghost predicate First(mk: Marks, l: seq<Id>, p: Pointer) {
    exists f: nat :: FirstAt(mk, l, p, f)
  }

  ghost predicate Chains(mk: Marks, ls: Objects, p: Pointers) {
    && Chain(mk, ls.allgc, p.survival, p.old1, p.reallyold)
    && Chain(mk, ls.finobj, p.finobjsur, p.finobjold1, p.finobjrold)
    && First(mk, ls.allgc, p.firstold1)
  }

  /** What waits in the two lists that are in use between collections. */
  ghost predicate Queued(hp: Heap, mk: Marks, gray: seq<Id>, again: seq<Id>) {
    && Once(gray, again)
    && (forall o :: o in gray ==> o in mk && o in hp && mk[o].color.Gray? && NeedsVisit(hp[o]))
    && (forall o ::
      o in again ==>
      o in mk && o in hp && NeedsVisit(hp[o]) && (mk[o].color.Gray? || (mk[o].color.Black? && mk[o].age.Touched2?)))
  }

  ghost predicate AllAged(hp: Heap, mk: Marks, gray: seq<Id>, again: seq<Id>, white: bool) {
    mk.Keys == hp.Keys && forall o :: o in mk ==> Aged(hp, mk, gray, again, white, o)
  }

  /** The generational invariant. */
  ghost predicate GenInv(s: State, p: Pointers) {
    && Base(s) && s.at.Propagate? && s.sweep.NoSweep?
    && s.links.weak == s.links.allweak == s.links.eph == []
    && AllAged(s.hp, s.mk, s.gray, s.links.grayagain, s.white)
    && Queued(s.hp, s.mk, s.gray, s.links.grayagain)
    && Ranks(s.hp, s.mk) && Chains(s.mk, s.ls, p)
    && s.an.main in Marked(s.mk)
  }

  /** The state is valid for the mode of the collector. */
  ghost predicate Ok(g: GlobalState)
    reads g
  {
    if g.gckind.GenMinor? then GenInv(Snap(g), g.ptr) else Valid(Snap(g))
  }

  lemma OkBase(g: GlobalState)
    requires Ok(g)
    ensures Base(Snap(g))
  {
  }

  /** The invariant in the words of its description: whatever an old object that is in no
      list refers to is old, and an old1 or touched2 object refers to no new one. */
  lemma OldToOld(s: State, p: Pointers, o: Id)
    requires GenInv(s, p) && o in s.hp && !s.hp[o].Thread? && !s.hp[o].OpenUpval?
    ensures s.mk[o].age.Old? ==> RefsIn(s.hp, s.hp[o], Olds(s.mk))
    ensures s.mk[o].age.Old1? || s.mk[o].age.Touched2? ==> RefsIn(s.hp, s.hp[o], NotNew(s.mk))
    ensures s.mk[o].age.Touched1? ==> o in s.links.grayagain
    ensures Marked(s.mk) == Olds(s.mk)
  {
    hide Base, Queued, Ranks, Chains, RefsIn;
    assert Aged(s.hp, s.mk, s.gray, s.links.grayagain, s.white, o);
    assert Edges(s.hp, s.mk, o);
    if s.hp[o].Str? { StrRefs(s.hp, s.hp[o]); }
    forall x | x in s.mk ensures x in Marked(s.mk) <==> x in Olds(s.mk) {
      assert Aged(s.hp, s.mk, s.gray, s.links.grayagain, s.white, x);
    }
  }

  lemma StrRefs(hp: Heap, ob: Object)
    requires ob.Str?
    ensures forall s :: RefsIn(hp, ob, s)
  {
  }

  /** Nothing is dead between collections, and what is marked is old. */
  lemma GenFacts(s: State, p: Pointers)
    requires GenInv(s, p)
    ensures forall o :: o in s.mk ==> s.mk[o].color != White(!s.white)
    ensures Marked(s.mk) == Olds(s.mk) && s.mk.Keys == s.hp.Keys == Live(s)
    ensures HeapReady(s.hp, s.hp.Keys) && WellFormed(s.hp)
  {
    hide Queued, Ranks, Chains, UpvalsOk, MetasOk, TwupsOk, Partition, KindsOk, FinOk, Roots, Edges, Held;
    forall x | x in s.mk ensures s.mk[x].color != White(!s.white) && (x in Marked(s.mk) <==> x in Olds(s.mk)) {
      assert Aged(s.hp, s.mk, s.gray, s.links.grayagain, s.white, x);
    }
    assert Live(s) == s.hp.Keys;
    AllIsEnclosed(s.hp);
  }

  /** An object that nothing happened to. */
  lemma AgedFrame(h0: Heap, m0: Marks, g0: seq<Id>, a0: seq<Id>, h1: Heap, m1: Marks, g1: seq<Id>, a1: seq<Id>,
          white: bool, x: Id)
    requires x in h0 && x in m0 && x in h1 && x in m1 && h1[x] == h0[x] && m1[x] == m0[x]
    requires Aged(h0, m0, g0, a0, white, x)
    requires Olds(m0) <= Olds(m1) && NotNew(m0) <= NotNew(m1)
    requires (x in g0 ==> x in g1) && (x in a0 ==> x in a1)
    ensures Aged(h1, m1, g1, a1, white, x)
  {
    hide RefsIn;
    if m0[x].color.Black? && !h0[x].Thread? && !h0[x].OpenUpval? {
      var t0 := if m0[x].age.Old1? || m0[x].age.Touched2? then NotNew(m0) else Olds(m0);
      var t1 := if m0[x].age.Old1? || m0[x].age.Touched2? then NotNew(m1) else Olds(m1);
      RefsInSame(h0, h1, h0[x], t0);
      RefsInMonotone(h1, h0[x], t0, t1);
    }
  }

  /** Pointers into the lists of objects stay right while ages only settle. */
  lemma ChainsAges(m0: Marks, m1: Marks, ls: Objects, p: Pointers)
    requires Chains(m0, ls, p) && m0.Keys <= m1.Keys
    requires forall o :: o in m0 ==>
               && (m1[o].age.New? ==> m0[o].age.New?) && (Unsettled(m1[o].age) ==> Unsettled(m0[o].age))
               && (m1[o].age.Old1? ==> m0[o].age.Old1?)
    ensures Chains(m1, ls, p)
  {
    ChainAges(m0, m1, ls.allgc, p.survival, p.old1, p.reallyold);
    ChainAges(m0, m1, ls.finobj, p.finobjsur, p.finobjold1, p.finobjrold);
    var f: nat :| FirstAt(m0, ls.allgc, p.firstold1, f);
    assert FirstAt(m1, ls.allgc, p.firstold1, f);
  }

  lemma ChainAges(m0: Marks, m1: Marks, l: seq<Id>, sur: Pointer, old1: Pointer, rold: Pointer)
    requires Chain(m0, l, sur, old1, rold) && m0.Keys <= m1.Keys
    requires forall o :: o in m0 ==>
               && (m1[o].age.New? ==> m0[o].age.New?) && (Unsettled(m1[o].age) ==> Unsettled(m0[o].age))
               && (m1[o].age.Old1? ==> m0[o].age.Old1?)
    ensures Chain(m1, l, sur, old1, rold)
  {
    var a: nat, b: nat, d: nat :| ChainAt(m0, l, sur, old1, rold, a, b, d);
    assert ChainAt(m1, l, sur, old1, rold, a, b, d);
  }

  /** A list gets a new head: of any age, as long as the pointers are past it. */
  lemma ChainCons(mk: Marks, l: seq<Id>, sur: Pointer, old1: Pointer, rold: Pointer, o: Id)
    requires Chain(mk, l, sur, old1, rold) && o in mk
    ensures Chain(mk, [o] + l, sur, old1, rold)
  {
    var a: nat, b: nat, d: nat :| ChainAt(mk, l, sur, old1, rold, a, b, d);
    var l1 := [o] + l;
    assert forall i :: 0 < i < |l1| ==> l1[i] == l[i - 1];
    assert ChainAt(mk, l1, sur, old1, rold, a + 1, b + 1, d + 1);
  }

  lemma FirstCons(mk: Marks, l: seq<Id>, p: Pointer, o: Id)
    requires First(mk, l, p) && o in mk
    ensures First(mk, [o] + l, if mk[o].age.Old1? then To(o) else p)
  {
    var f: nat :| FirstAt(mk, l, p, f);
    var l1 := [o] + l;
    assert forall i :: 0 < i < |l1| ==> l1[i] == l[i - 1];
    assert FirstAt(mk, l1, if mk[o].age.Old1? then To(o) else p, if mk[o].age.Old1? then 0 else f + 1);
  }
}
