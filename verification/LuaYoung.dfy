/** Young collections: the old1 objects are visited first, then everything reachable is marked,
    the young objects are swept, and what was touched is settled. */
module LuaYoung {
  import opened LuaHeap
  import opened LuaMarks
  import opened LuaLists
  import opened LuaTricolor
  import opened LuaGc
  import opened LuaState
  import opened LuaGen
  import opened LuaSweep
  import opened LuaMutator
  import opened LuaObjects
  import opened LuaStep

  /** The old1 objects of `done` have become old, and those that must be visited again gray. */
  ghost function Ripened(hp: Heap, m0: Marks, done: set<Id>): Marks {
    map o | o in m0 :: if o in done && o in hp then Ripe(hp[o], m0[o]) else m0[o]
  }

  function Ripe(ob: Object, m: Mark): Mark {
    Mark(if m.color.Black? && NeedsVisit(ob) then Gray else m.color, Old, m.fin)
  }

  ghost function BlackVisits(hp: Heap, m0: Marks, done: set<Id>): set<Id> {
    set o | o in done && o in m0 && o in hp && m0[o].color.Black? && NeedsVisit(hp[o])
  }

  /** What marking the old1 objects of `done` does: `ga` is the gray list without what was
      marked on their behalf. */
  ghost predicate Remarked(hp: Heap, m0: Marks, g0: seq<Id>, done: set<Id>, ga: seq<Id>, m1: Marks, g1: seq<Id>) {
    && m0.Keys == hp.Keys && done <= m0.Keys
    && (forall o :: o in done ==> m0[o].age.Old1? && !m0[o].color.White?)
    && multiset(ga) == multiset(g0) + multiset(BlackVisits(hp, m0, done))
    && Marking(hp, Ripened(hp, m0, done), ga, m1, g1)
    && (forall o :: o in done && m0[o].color.Black? && !NeedsVisit(hp[o]) ==> RefsIn(hp, hp[o], Marked(m1)))
  }

  lemma RemarkedNone(hp: Heap, m0: Marks, g0: seq<Id>)
    requires m0.Keys == hp.Keys
    ensures Remarked(hp, m0, g0, {}, g0, m0, g0)
  {
    assert Ripened(hp, m0, {}) == m0;
    assert BlackVisits(hp, m0, {}) == {};
    MarkingNothing(hp, m0, g0);
  }

  /** One more object ripens: first its age changes. */
  lemma RemarkedAge(hp: Heap, m0: Marks, g0: seq<Id>, done: set<Id>, ga: seq<Id>, m1: Marks, g1: seq<Id>, o: Id)
    requires Remarked(hp, m0, g0, done, ga, m1, g1) && o !in done && o in m0 && m0[o].age.Old1? && !m0[o].color.White?
    ensures o in m1 && m1[o] == m0[o]
    ensures Marking(hp, Ripened(hp, m0, done + {o}), ga, m1[o := Ripe(hp[o], m0[o])], g1)
    ensures Marked(m1[o := Ripe(hp[o], m0[o])]) == Marked(m1)
  {
    hide RefsIn, JustMarked, BlackVisits;
    var a, a' := Ripened(hp, m0, done), Ripened(hp, m0, done + {o});
    assert a' == a[o := a'[o]];
    assert m1[o] == a[o];
    assert m1 == m1[o := m1[o]];
    MarkingAside(hp, o, a', a, ga, m1, g1);
    MarkedSame(m1, m1[o := a'[o]], o);
  }

  lemma BlackVisitsMore(hp: Heap, m0: Marks, done: set<Id>, o: Id)
    requires o in m0 && o in hp && o !in done
    ensures multiset(BlackVisits(hp, m0, done + {o}))
         == multiset(BlackVisits(hp, m0, done)) + if m0[o].color.Black?
           && NeedsVisit(hp[o]) then multiset{o} else multiset{}
  {
    var a, b := BlackVisits(hp, m0, done), BlackVisits(hp, m0, done + {o});
    assert b == if m0[o].color.Black? && NeedsVisit(hp[o]) then a + {o} else a;
  }

  /** Then, if it is black, it is marked again. */
  lemma RemarkedStep(hp: Heap, m0: Marks, g0: seq<Id>, done: set<Id>, ga: seq<Id>, m1: Marks, g1: seq<Id>, o: Id,
          m2: Marks, g2: seq<Id>)
    requires Remarked(hp, m0, g0, done, ga, m1, g1) && o !in done && o in m0 && m0[o].age.Old1? && !m0[o].color.White?
    requires o in m1 && m1[o] == m0[o]
    requires if m0[o].color.Black? && NeedsVisit(hp[o]) then
               m2 == m1[o := Ripe(hp[o], m0[o])] && g2 == [o] + g1
             else if m0[o].color.Black? then
               Marking(hp, m1[o := Ripe(hp[o], m0[o])], g1, m2, g2) && RefsIn(hp, hp[o], Marked(m2))
             else m2 == m1[o := Ripe(hp[o], m0[o])] && g2 == g1
    ensures Remarked(hp, m0, g0, done + {o}, if m0[o].color.Black? && NeedsVisit(hp[o]) then [o] + ga else ga, m2, g2)
  {
    hide RefsIn, JustMarked, Ripe, BlackVisits, Marking;
    RemarkedAge(hp, m0, g0, done, ga, m1, g1, o);
    BlackVisitsMore(hp, m0, done, o);
    var a', m1' := Ripened(hp, m0, done + {o}), m1[o := Ripe(hp[o], m0[o])];
    if m0[o].color.Black? && NeedsVisit(hp[o]) {
      MarkingCons(hp, o, a', ga, m1', g1);
      assert multiset([o] + ga) == multiset{o} + multiset(ga);
    } else if m0[o].color.Black? {
      MarkingTrans(hp, a', ga, m1', g1, m2, g2);
      MarkingGrows(hp, m1', g1, m2, g2);
    }
    forall x | x in done + {o} && m0[x].color.Black? && !NeedsVisit(hp[x]) ensures RefsIn(hp, hp[x], Marked(m2)) {
      if x != o { RefsInMonotone(hp, hp[x], Marked(m1), Marked(m2)); }
    }
  }

  /** The old1 objects of a part of a list. */
  ghost function Old1s(m0: Marks, l: seq<Id>): set<Id> {
    set o | o in l && o in m0 && m0[o].age.Old1?
  }

  /** markold, over the objects of the list `w` from position `i` up to the pointer `to`. */
  method MarkOld(g: GlobalState, w: Which, i: nat, to: Pointer, ghost c: set<Id>, ghost m0: Marks, ghost g0: seq<Id>,
          ghost done: set<Id>, ghost ga: seq<Id>)
    returns (ghost k: nat, ghost gb: seq<Id>)
    requires g.MarkReady(c) && Remarked(g.hp, m0, g0, done, ga, g.mk, g.gray)
    requires i <= |ListOf(g.ls, w)| && NoneTwice(ListOf(g.ls, w))
    requires forall o ::
      o in ListOf(g.ls, w) ==>
      o !in done && o in m0 && (m0[o].age.Old1? ==> !m0[o].color.White? && (m0[o].color.Black? ==> !g.hp[o].OpenUpval?))
    modifies g`mk, g`gray
    ensures g.MarkReady(c)
    ensures var l := ListOf(g.ls, w);
      && i <= k <= |l| && (k == |l| || to == To(l[k])) && (forall j :: i <= j < k ==> to != To(l[j]))
      && Remarked(g.hp, m0, g0, done + Old1s(m0, l[i..k]), gb, g.mk, g.gray)
  {
    hide Remarked, HeapReady, Marked, Marking;
    var n, l := i, ListOf(g.ls, w);
    gb := ga;
    Old1sNone(m0, l, i, done);
    while n < |l| && to != To(l[n])
      invariant i <= n <= |l| && g.MarkReady(c)
      invariant forall j :: i <= j < n ==> to != To(l[j])
      invariant Remarked(g.hp, m0, g0, done + Old1s(m0, l[i..n]), gb, g.mk, g.gray)
    {
      var p := l[n];
      ghost var d, m1, g1 := done + Old1s(m0, l[i..n]), g.mk, g.gray;
      Old1sMore(m0, l, i, n, done);
      RemarkedHere(g.hp, m0, g0, d, gb, m1, g1, p);
      if g.mk[p].age.Old1? {
        RemarkedMarked(g.hp, m0, g0, d, gb, m1, g1, p);
        g.mk := g.mk[p := g.mk[p].(age := Old)];
        MarkedSame(m1, g.mk, p);
        if g.mk[p].color.Black? {
          g.RemarkBlack(p, c);
        }
        RipeMark(g.hp[p], m0[p]);
        RemarkedStep(g.hp, m0, g0, d, gb, m1, g1, p, g.mk, g.gray);
        gb := if m0[p].color.Black? && NeedsVisit(g.hp[p]) then [p] + gb else gb;
      }
      n := n + 1;
    }
    k := n;
  }

  lemma RipeMark(ob: Object, m: Mark)
    ensures m.color.Black? && NeedsVisit(ob) ==> Ripe(ob, m) == m.(age := Old, color := Gray)
    ensures !(m.color.Black? && NeedsVisit(ob)) ==> Ripe(ob, m) == m.(age := Old)
  {
  }

  lemma Old1sNone(m0: Marks, l: seq<Id>, i: nat, done: set<Id>)
    requires i <= |l|
    ensures done + Old1s(m0, l[i..i]) == done
  {
    assert l[i..i] == [];
  }

  lemma Old1sMore(m0: Marks, l: seq<Id>, i: nat, n: nat, done: set<Id>)
    requires i <= n < |l| && NoneTwice(l) && (forall o :: o in l ==> o !in done && o in m0)
    ensures l[n] !in done + Old1s(m0, l[i..n])
    ensures done + Old1s(m0, l[i..n + 1]) == if m0[l[n]].age.Old1? then done + Old1s(m0, l[i..n]) + {l[n]}
      else done + Old1s(m0, l[i..n])
  {
    assert l[i..n + 1] == l[i..n] + [l[n]];
    assert forall j :: i <= j < n ==> l[i..n][j - i] == l[j];
  }

  /** Objects not visited yet keep their age. */
  lemma RemarkedHere(hp: Heap, m0: Marks, g0: seq<Id>, done: set<Id>, ga: seq<Id>, m1: Marks, g1: seq<Id>, o: Id)
    requires Remarked(hp, m0, g0, done, ga, m1, g1) && o !in done && o in m0
    ensures o in m1 && m1[o].age == m0[o].age && (!m0[o].color.White? ==> m1[o] == m0[o])
      && m1.Keys == m0.Keys == hp.Keys
  {
    hide RefsIn, JustMarked;
  }

  lemma RemarkedMarked(hp: Heap, m0: Marks, g0: seq<Id>, done: set<Id>, ga: seq<Id>, m1: Marks, g1: seq<Id>, o: Id)
    requires Remarked(hp, m0, g0, done, ga, m1, g1) && o !in done && o in m0 && !m0[o].color.White?
    ensures o in m1 && !m1[o].color.White? && o in Marked(m1)
  {
    RemarkedHere(hp, m0, g0, done, ga, m1, g1, o);
  }

  ghost function AllOld1(mk: Marks): set<Id> {
    set o | o in mk && mk[o].age.Old1?
  }

  const NO_LINKS := Links([], [], [], [])

  /** The two lists between collections, counted. */
  lemma QueuedCount(hp: Heap, mk: Marks, gray: seq<Id>, again: seq<Id>)
    requires Queued(hp, mk, gray, again)
    ensures NoneTwice(again)
    ensures forall o :: multiset(gray)[o] + (if o in again then 1 else 0) <= 1
    ensures forall o :: o in gray <==> multiset(gray)[o] == 1
  {
    NoneTwiceCount(again);
    forall o
      ensures multiset(again)[o] <= 1 && multiset(gray)[o] + (if o in again then 1 else 0) <= 1
        && (o in gray <==> multiset(gray)[o] == 1)
    {
      assert multiset(gray)[o] + multiset(again)[o] <= 1;
      assert o in again <==> multiset(again)[o] >= 1;
      assert o in gray <==> multiset(gray)[o] >= 1;
    }
  }

  /** Once the old1 objects have ripened every object that has to wait is in a list. */
  lemma RipenedListed(s: State, p: Pointers, ga: seq<Id>)
    requires GenInv(s, p) && multiset(ga) == multiset(s.gray) + multiset(BlackVisits(s.hp, s.mk, AllOld1(s.mk)))
    ensures Listed(s.hp, Ripened(s.hp, s.mk, AllOld1(s.mk)), ga, Elements(s.links.grayagain), NO_LINKS)
    ensures NoneTwice(s.links.grayagain)
  {
    hide Base, Ranks, Chains, Edges, Queued;
    var again, done := s.links.grayagain, AllOld1(s.mk);
    var a := Ripened(s.hp, s.mk, done);
    QueuedCount(s.hp, s.mk, s.gray, again);
    forall o ensures ListedAt(s.hp, a, ga, Elements(again), NO_LINKS, o) {
      assert multiset(ga)[o] == multiset(s.gray)[o] + multiset(BlackVisits(s.hp, s.mk, done))[o];
      assert InLinks(o, NO_LINKS) == 0;
      QueuedAt(s.hp, s.mk, s.gray, again, o);
      if o in s.mk {
        assert Aged(s.hp, s.mk, s.gray, again, s.white, o);
        RipenedAt(s.hp, s.mk, s.gray, again, done, o);
      }
    }
  }

  lemma QueuedAt(hp: Heap, mk: Marks, gray: seq<Id>, again: seq<Id>, o: Id)
    requires Queued(hp, mk, gray, again)
    ensures o in gray ==> o in mk && o in hp && mk[o].color.Gray? && NeedsVisit(hp[o])
    ensures o in again ==>
      o in mk && o in hp && NeedsVisit(hp[o]) && (mk[o].color.Gray? || (mk[o].color.Black? && mk[o].age.Touched2?))
  {
  }

  lemma RipenedAt(hp: Heap, mk: Marks, gray: seq<Id>, again: seq<Id>, done: set<Id>, o: Id)
    requires o in hp && o in mk && done == AllOld1(mk) && Held(hp[o], mk[o], o, gray, again)
      && (mk[o].age.IsOld() <==> !mk[o].color.White?)
    ensures var m := Ripened(hp, mk, done)[o];
      && FinishedColor(hp[o], m) && m.color.White? == mk[o].color.White?
      && (MustWait(hp[o], m) ==> o in gray || o in again || o in BlackVisits(hp, mk, done))
      && (o in BlackVisits(hp, mk, done) ==> mk[o].color.Black? && mk[o].age.Old1? && NeedsVisit(hp[o]))
  {
  }

  /** The generational invariant, once the old1 objects were marked again, is what the atomic
      phase starts from. */
  lemma RipeReady(s: State, p: Pointers, ga: seq<Id>, m1: Marks, g1: seq<Id>)
    requires GenInv(s, p) && Remarked(s.hp, s.mk, s.gray, AllOld1(s.mk), ga, m1, g1)
    ensures AtomicInv(s.hp, m1, g1, Elements(s.links.grayagain), NO_LINKS, Elements(s.twups))
    ensures TwupsInv(s.hp, m1, g1, Elements(s.links.grayagain), s.twups) && NoneTwice(s.links.grayagain)
  {
    hide GenInv, Base, Remarked, Marking, RefsIn, BlackVisits, Listed, Visited, UpvalFine, Ripened, Elements;
    var saved := Elements(s.links.grayagain);
    GenFacts(s, p);
    GenBase(s, p);
    RemarkedMarking(s.hp, s.mk, s.gray, AllOld1(s.mk), ga, m1, g1);
    RipenedListed(s, p, ga);
    ListedMark(s.hp, Ripened(s.hp, s.mk, AllOld1(s.mk)), ga, m1, g1, saved, NO_LINKS);
    RipeTwups(s, m1, g1);
    RipeLists(s.hp, m1, g1, saved);
    forall o | o in Marked(m1) && o !in g1 && o !in saved
      ensures if s.hp[o].OpenUpval? then UpvalFine(s.hp, o, Marked(m1), g1, saved, Elements(s.twups))
              else Visited(s.hp, o, Marked(m1), [], [], [])
    {
      RipeDone(s, p, ga, m1, g1, o);
    }
  }

  lemma RemarkedMarking(hp: Heap, m0: Marks, g0: seq<Id>, done: set<Id>, ga: seq<Id>, m1: Marks, g1: seq<Id>)
    requires Remarked(hp, m0, g0, done, ga, m1, g1)
    ensures Marking(hp, Ripened(hp, m0, done), ga, m1, g1)
    ensures multiset(ga) == multiset(g0) + multiset(BlackVisits(hp, m0, done))
    ensures m1.Keys == m0.Keys == hp.Keys
  {
  }

  lemma RipeDone(s: State, p: Pointers, ga: seq<Id>, m1: Marks, g1: seq<Id>, o: Id)
    requires GenInv(s, p) && Remarked(s.hp, s.mk, s.gray, AllOld1(s.mk), ga, m1, g1)
    requires o in Marked(m1) && o in s.hp && o !in g1 && o !in Elements(s.links.grayagain)
    ensures if s.hp[o].OpenUpval?
      then UpvalFine(s.hp, o, Marked(m1), g1, Elements(s.links.grayagain), Elements(s.twups))
            else Visited(s.hp, o, Marked(m1), [], [], [])
  {
    hide GenInv, Remarked, Marking, RefsIn, BlackVisits, Visited, UpvalFine, Ripened;
    var a := Ripened(s.hp, s.mk, AllOld1(s.mk));
    if o in Marked(a) {
      RipeVisited(s, p, ga, m1, g1, o);
    } else {
      RemarkedMarking(s.hp, s.mk, s.gray, AllOld1(s.mk), ga, m1, g1);
      JustMarkedDone(s.hp, a, ga, m1, g1, o);
    }
  }

  lemma RipeTwups(s: State, m1: Marks, g1: seq<Id>)
    requires Base(s) && s.mk.Keys == s.hp.Keys && m1.Keys == s.mk.Keys
      && (forall o :: o in s.mk ==> s.mk[o].color != White(!s.white))
    ensures TwupsInv(s.hp, m1, g1, Elements(s.links.grayagain), s.twups)
  {
    NoneDead(s);
    TwupsAll(s);
  }

  lemma RipeLists(hp: Heap, mk: Marks, gray: seq<Id>, saved: set<Id>)
    requires Listed(hp, mk, gray, saved, NO_LINKS) && mk.Keys == hp.Keys
    ensures forall o :: o in gray || o in saved ==> o in Marked(mk) && NeedsVisit(hp[o])
  {
    forall o | o in gray || o in saved ensures o in Marked(mk) && NeedsVisit(hp[o]) {
      assert ListedAt(hp, mk, gray, saved, NO_LINKS, o);
      assert o in gray <==> multiset(gray)[o] >= 1;
    }
  }

  /** An old object that is in no list refers to marked objects only. */
  lemma RipeVisited(s: State, p: Pointers, ga: seq<Id>, m1: Marks, g1: seq<Id>, o: Id)
    requires GenInv(s, p) && Remarked(s.hp, s.mk, s.gray, AllOld1(s.mk), ga, m1, g1)
    requires o in s.hp && o in Marked(Ripened(s.hp, s.mk, AllOld1(s.mk))) && o !in g1 && o !in s.links.grayagain
    ensures if s.hp[o].OpenUpval?
      then UpvalFine(s.hp, o, Marked(m1), g1, Elements(s.links.grayagain), Elements(s.twups))
            else Visited(s.hp, o, Marked(m1), [], [], [])
  {
    hide Base, Chains, Queued, RefsIn, Marking, Visited;
    var hp, done := s.hp, AllOld1(s.mk);
    RipeFacts(s, p, ga, m1, g1);
    assert Aged(hp, s.mk, s.gray, s.links.grayagain, s.white, o);
    if hp[o].OpenUpval? {
      RipeUpval(s, p, ga, m1, g1, o);
    } else if hp[o].Str? {
      StrRefs(hp, hp[o]);
      RefsVisited(hp, o, Marked(m1));
    } else {
      assert o !in s.gray && o !in BlackVisits(hp, s.mk, done);
      assert s.mk[o].color.Black? && !hp[o].Thread?;
      if s.mk[o].age.Old1? {
        assert o in done;
      } else {
        assert Edges(hp, s.mk, o);
        RefsInMonotone(hp, hp[o], Olds(s.mk), Marked(m1));
      }
      RefsVisited(hp, o, Marked(m1));
    }
  }

  lemma RefsVisited(hp: Heap, o: Id, s: set<Id>)
    requires o in hp && RefsIn(hp, hp[o], s)
    ensures Visited(hp, o, s, [], [], [])
  {
  }

  /** What is gray stays on the list; what is old is marked. */
  lemma RipeFacts(s: State, p: Pointers, ga: seq<Id>, m1: Marks, g1: seq<Id>)
    requires GenInv(s, p) && Remarked(s.hp, s.mk, s.gray, AllOld1(s.mk), ga, m1, g1)
    ensures forall o :: o in s.gray || o in BlackVisits(s.hp, s.mk, AllOld1(s.mk)) ==> o in g1
    ensures Olds(s.mk) <= Marked(m1) && s.mk.Keys == s.hp.Keys == m1.Keys
  {
    hide Base, Chains, Queued, RefsIn, Ranks, Edges, Held;
    var a := Ripened(s.hp, s.mk, AllOld1(s.mk));
    MarkingGrows(s.hp, a, ga, m1, g1);
    forall o | o in s.gray || o in BlackVisits(s.hp, s.mk, AllOld1(s.mk)) ensures o in g1 {
      assert o in s.gray ==> o in multiset(s.gray);
      assert o in multiset(ga);
    }
    forall o | o in Olds(s.mk) ensures o in Marked(a) {
      assert Aged(s.hp, s.mk, s.gray, s.links.grayagain, s.white, o);
    }
  }

  lemma RipeUpval(s: State, p: Pointers, ga: seq<Id>, m1: Marks, g1: seq<Id>, o: Id)
    requires GenInv(s, p) && Remarked(s.hp, s.mk, s.gray, AllOld1(s.mk), ga, m1, g1)
    requires o in s.hp && s.hp[o].OpenUpval? && o in s.mk && s.mk[o].age.IsOld()
    ensures UpvalFine(s.hp, o, Marked(m1), g1, Elements(s.links.grayagain), Elements(s.twups))
  {
    hide GenInv, Remarked, AllOld1, BlackVisits, Olds, Marked;
    var th := s.hp[o].th;
    GenUpvals(s, p, o);
    RipeFacts(s, p, ga, m1, g1);
    RipeThread(s, p, th);
  }

  /** An old thread is in a list, or is among the old1 objects that are marked again. */
  lemma RipeThread(s: State, p: Pointers, th: Id)
    requires GenInv(s, p) && th in s.hp && th in s.mk && s.hp[th].Thread? && s.mk[th].age.IsOld()
    ensures th in s.gray || th in s.links.grayagain || th in BlackVisits(s.hp, s.mk, AllOld1(s.mk))
  {
    hide Base, Chains, Queued, Edges, Ranks;
    assert Aged(s.hp, s.mk, s.gray, s.links.grayagain, s.white, th);
  }

  lemma GenUpvals(s: State, p: Pointers, o: Id)
    requires GenInv(s, p) && o in s.hp && s.hp[o].OpenUpval?
    ensures s.hp[o].th in s.hp && s.hp[s.hp[o].th].Thread? && s.hp[o].th in s.mk
    ensures Rank(s.mk[o].age) <= Rank(s.mk[s.hp[o].th].age)
  {
    hide Chains, Queued, AllAged, MetasOk, LiveClosed, Partition, TwupsOk, KindsOk, FinOk, Roots;
    assert s.mk.Keys == s.hp.Keys;
  }

  /** The first part of a young collection: old1 objects ripen, and are marked again. */
  method MarkOld1s(g: GlobalState, ghost c: set<Id>) returns (ghost ga: seq<Id>)
    requires GenInv(Snap(g), g.ptr) && HeapReady(g.hp, c) && Marked(g.mk) <= c
    modifies g`mk, g`gray, g`ptr
    ensures g.MarkReady(c) && Remarked(g.hp, old(g.mk), old(g.gray), AllOld1(old(g.mk)), ga, g.mk, g.gray)
    ensures g.ptr == old(g.ptr).(firstold1 := Null)
  {
    hide GenInv, Base, Remarked, HeapReady, Marked, Marking, Old1s, ListOf;
    ghost var s, p := Snap(g), g.ptr;
    ghost var k: nat;
    GenFacts(s, p);
    ReadyEnclosed(g.hp, c);
    RemarkedNone(g.hp, g.mk, g.gray);
    ListShown(s.ls);
    Old1Disjoint(s, p);
    ga := g.gray;
    ghost var done: set<Id> := {};
    if g.ptr.firstold1 != Null {
      FirstIn(s, p);
      Old1List(s, p, AllGc, done);
      var i := FindObject(g.ls.allgc, g.ptr.firstold1.id);
      k, ga := MarkOld(g, AllGc, i, g.ptr.reallyold, c, s.mk, s.gray, done, ga);
      Old1FromFirst(s, p, i, k);
      done := done + Old1s(s.mk, g.ls.allgc[i..k]);
      g.ptr := g.ptr.(firstold1 := Null);
    } else {
      Old1NoFirst(s, p);
    }
    assert done == Old1s(s.mk, s.ls.allgc);
    Old1List(s, p, FinObj, done);
    k, ga := MarkOld(g, FinObj, 0, g.ptr.finobjrold, c, s.mk, s.gray, done, ga);
    Old1FinObj(s, p, k);
    done := done + Old1s(s.mk, g.ls.finobj[0..k]);
    Old1List(s, p, ToBeFnz, done);
    k, ga := MarkOld(g, ToBeFnz, 0, Null, c, s.mk, s.gray, done, ga);
    assert s.ls.tobefnz[0..k] == s.ls.tobefnz;
    assert done + Old1s(s.mk, s.ls.tobefnz) == AllOld1(s.mk);
  }

  lemma ListShown(ls: Objects)
    ensures ListOf(ls, AllGc) == ls.allgc && ListOf(ls, FinObj) == ls.finobj && ListOf(ls, ToBeFnz) == ls.tobefnz
  {
  }

  /** The old1 objects are in the three lists, each in one. */
  lemma Old1Disjoint(s: State, p: Pointers)
    requires GenInv(s, p)
    ensures Old1s(s.mk, s.ls.allgc) + Old1s(s.mk, s.ls.finobj) + Old1s(s.mk, s.ls.tobefnz) == AllOld1(s.mk)
    ensures forall o :: o in Old1s(s.mk, s.ls.allgc) ==> o !in s.ls.finobj && o !in s.ls.tobefnz
    ensures forall o :: o in Old1s(s.mk, s.ls.finobj) ==> o !in s.ls.tobefnz
  {
    hide AllAged, Queued, Ranks, Chains, UpvalsOk, MetasOk, LiveClosed, Partition, TwupsOk, FinOk, Roots, Live;
    PartitionFacts(s.hp, s.ls);
    assert s.hp.Keys == s.mk.Keys;
  }

  lemma Old1List(s: State, p: Pointers, w: Which, done: set<Id>)
    requires GenInv(s, p) && forall o :: o in done ==> o !in ListOf(s.ls, w)
    ensures NoneTwice(ListOf(s.ls, w))
    ensures forall o :: o in ListOf(s.ls, w) ==>
              o !in done && o in s.mk && o in s.hp
                && (s.mk[o].age.Old1? ==> !s.mk[o].color.White? && (s.mk[o].color.Black? ==> !s.hp[o].OpenUpval?))
  {
    hide Queued, Ranks, Chains, UpvalsOk, MetasOk, LiveClosed, Partition, TwupsOk, KindsOk, FinOk, Roots, Live, Edges;
    ListNoneTwice(s, w);
    forall o | o in ListOf(s.ls, w)
      ensures o in s.mk && o in s.hp
        && (s.mk[o].age.Old1? ==> !s.mk[o].color.White? && (s.mk[o].color.Black? ==> !s.hp[o].OpenUpval?))
    {
      PartitionFacts(s.hp, s.ls);
      assert Aged(s.hp, s.mk, s.gray, s.links.grayagain, s.white, o);
    }
  }

  lemma FirstIn(s: State, p: Pointers)
    requires GenInv(s, p) && p.firstold1 != Null
    ensures p.firstold1.id in s.ls.allgc
  {
    hide Base, AllAged, Queued, Ranks, Chain;
    var f: nat :| FirstAt(s.mk, s.ls.allgc, p.firstold1, f);
  }

  /** The part of a list that holds its old1 objects. */
  lemma Old1Part(mk: Marks, l: seq<Id>, i: nat, k: nat)
    requires i <= k <= |l| && (forall j :: 0 <= j < |l| ==> l[j] in mk)
    requires (forall j :: 0 <= j < i ==> !mk[l[j]].age.Old1?) && (forall j :: k <= j < |l| ==> !mk[l[j]].age.Old1?)
    ensures Old1s(mk, l[i..k]) == Old1s(mk, l)
  {
    forall o | o in Old1s(mk, l) ensures o in Old1s(mk, l[i..k]) {
      var j :| 0 <= j < |l| && l[j] == o;
      assert l[i..k][j - i] == o;
    }
  }

  /** A walk that stops at a pointer stops where the pointer points. */
  lemma StopsAt(p: Pointer, l: seq<Id>, d: nat, i: nat, k: nat)
    requires PointsAt(p, l, d) && NoneTwice(l) && i <= k <= |l| && (k == |l| || p == To(l[k]))
    requires forall j :: i <= j < k ==> p != To(l[j])
    ensures k == if d < i then |l| else d
  {
    assert i <= d < |l| ==> p == To(l[d]);
  }

  lemma Old1FromFirst(s: State, p: Pointers, i: nat, k: nat)
    requires GenInv(s, p) && NoneTwice(s.ls.allgc) && p.firstold1 != Null && i <= k <= |s.ls.allgc| && i < |s.ls.allgc|
    requires s.ls.allgc[i] == p.firstold1.id && (k == |s.ls.allgc| || p.reallyold == To(s.ls.allgc[k]))
    requires forall j :: i <= j < k ==> p.reallyold != To(s.ls.allgc[j])
    ensures Old1s(s.mk, s.ls.allgc[i..k]) == Old1s(s.mk, s.ls.allgc)
  {
    hide Base, AllAged, Queued, Ranks;
    var l := s.ls.allgc;
    var f: nat :| FirstAt(s.mk, l, p.firstold1, f);
    var a: nat, b: nat, d: nat :| ChainAt(s.mk, l, p.survival, p.old1, p.reallyold, a, b, d);
    assert f == i;
    StopsAt(p.reallyold, l, d, i, k);
    Old1Part(s.mk, l, i, k);
  }

  lemma Old1NoFirst(s: State, p: Pointers)
    requires GenInv(s, p) && p.firstold1 == Null
    ensures Old1s(s.mk, s.ls.allgc) == {}
  {
    hide Base, AllAged, Queued, Ranks, Chain;
    var f: nat :| FirstAt(s.mk, s.ls.allgc, p.firstold1, f);
  }

  lemma Old1FinObj(s: State, p: Pointers, k: nat)
    requires GenInv(s, p) && NoneTwice(s.ls.finobj) && k <= |s.ls.finobj|
      && (k == |s.ls.finobj| || p.finobjrold == To(s.ls.finobj[k]))
    requires forall j :: 0 <= j < k ==> p.finobjrold != To(s.ls.finobj[j])
    ensures Old1s(s.mk, s.ls.finobj[0..k]) == Old1s(s.mk, s.ls.finobj)
  {
    hide Base, AllAged, Queued, Ranks, First;
    var l := s.ls.finobj;
    var a: nat, b: nat, d: nat :| ChainAt(s.mk, l, p.finobjsur, p.finobjold1, p.finobjrold, a, b, d);
    StopsAt(p.finobjrold, l, d, 0, k);
    Old1Part(s.mk, l, 0, k);
  }

  /** What sweepgen makes of the mark of a live object: it gets its next age, and a new one goes
      back to white. */
  function AgedMark(m: Mark, white: bool): Mark {
    if m.age.New? then Mark(White(white), Survival, m.fin) else m.(age := NextAge(m.age))
  }

  method AgeObject(g: GlobalState, o: Id)
    requires Base(Snap(g)) && o in g.mk && !g.mk[o].color.White? && o !in g.ls.fixedgc
    modifies g`mk
    ensures SweepWork(old(Snap(g)), Snap(g)) && g.mk[o].age == NextAge(old(g.mk)[o].age)
    ensures GenSwept(old(g.hp), old(g.mk), g.hp, g.mk, Live(old(Snap(g))), {o}, g.currentwhite)
  {
    hide Base, KeptLive, Partition, GenSwept;
    ghost var s := Snap(g);
    BaseFacts(s);
    LiveSubset(s);
    g.mk := g.mk[o := AgedMark(g.mk[o], g.currentwhite)];
    BaseRecolor(s, g.mk);
    KeptLiveNone(s.hp, Live(s));
    AgeSwept(s, o, g.mk);
    SnapMarks(g, s);
  }

  lemma AgeSwept(s: State, o: Id, m1: Marks)
    requires s.hp.Keys == s.mk.Keys && o in s.mk && m1 == s.mk[o := AgedMark(s.mk[o], s.white)]
    ensures GenSwept(s.hp, s.mk, s.hp, m1, Live(s), {o}, s.white)
  {
    hide Live;
  }

  /** One turn of sweepgen. During a young collection every white object not yet swept is dead. */
  method SweepGenOne(g: GlobalState, w: Which, n: nat) returns (n1: nat)
    requires Base(Snap(g)) && !KeepInvariant(g.gcstate) && g.gckind.GenMinor? && n < |ListOf(g.ls, w)|
    requires var o := ListOf(g.ls, w)[n];
      o in g.mk && (g.mk[o].color.White? ==> g.mk[o].color == White(!g.currentwhite))
    modifies g`hp, g`mk, g`gray, g`ls
    ensures SweepWork(old(Snap(g)), Snap(g)) && g.gray == old(g.gray) && Base(Snap(g))
    ensures var l := ListOf(old(g.ls), w);
      if l[n] in Live(old(Snap(g)))
      then n1 == n + 1 && g.ls == old(g.ls) && g.hp.Keys == old(g.hp).Keys && l[n] in g.mk
        && g.mk[l[n]].age == NextAge(old(g.mk)[l[n]].age)
      else n1 == n && g.ls == WithList(old(g.ls), w, RemoveAt(l, n)) && g.hp.Keys == old(g.hp).Keys - {l[n]}
    ensures GenSwept(old(g.hp), old(g.mk), g.hp, g.mk, Live(old(Snap(g))), {ListOf(old(g.ls), w)[n]}, g.currentwhite)
  {
    hide Base, Live, KeptLive, MarksSwept, Partition, UpvalsOk, SweepWork, GenSwept, NextAge;
    ghost var s := Snap(g);
    var curr := ListOf(g.ls, w)[n];
    ListFacts(s, w, n);
    if g.mk[curr].color.White? {
      DeadMeans(s, curr);
      SweepDead(g, w, n);
      BaseFacts(Snap(g)) by { SnapGray(s, g); }
      GenSweptGone(s.hp, s.mk, g.hp, g.mk, Live(s), curr, g.currentwhite);
      n1 := n;
    } else {
      LiveMeans(s, curr);
      AgeObject(g, curr);
      n1 := n + 1;
    }
    SnapGray(s, g);
  }

  lemma GenSweptGone(h0: Heap, m0: Marks, h1: Heap, m1: Marks, live: set<Id>, o: Id, white: bool)
    requires GenSwept(h0, m0, h1, m1, live, {}, white) && o !in m1
    ensures GenSwept(h0, m0, h1, m1, live, {o}, white)
  {
    forall x | x in m1 ensures GenSweptAt(h0, m0, h1, m1, live, {o}, white, x) {
      assert GenSweptAt(h0, m0, h1, m1, live, {}, white, x);
    }
  }

  /** Every white object from position `n` of a list is dead. */
  predicate WhitesDead(mk: Marks, l: seq<Id>, n: nat, white: bool) {
    forall j :: n <= j < |l| ==> l[j] in mk && (mk[l[j]].color.White? ==> mk[l[j]].color == White(!white))
  }

  lemma WhitesDeadNext(h0: Heap, m0: Marks, h1: Heap, m1: Marks, live: set<Id>, white: bool, l0: seq<Id>, l1: seq<Id>,
          n: nat, n1: nat)
    requires WhitesDead(m0, l0, n, white) && n < |l0| && NoneTwice(l0) && GenSwept(h0, m0, h1, m1, live, {l0[n]}, white)
    requires (n1 == n + 1 && l1 == l0) || (n1 == n && l1 == RemoveAt(l0, n))
    requires forall x :: x in m0 && x != l0[n] ==> x in m1
    ensures WhitesDead(m1, l1, n1, white)
  {
    forall j | n1 <= j < |l1| ensures l1[j] in m1 && (m1[l1[j]].color.White? ==> m1[l1[j]].color == White(!white)) {
      var x := if n1 == n then l0[j + 1] else l0[j];
      assert x != l0[n] && l1[j] == x;
      assert GenSweptAt(h0, m0, h1, m1, live, {l0[n]}, white, x);
    }
  }

  /** No old1 object among positions `i` to `n`. */
  predicate NoOld1(mk: Marks, l: seq<Id>, i: nat, n: nat) {
    forall j :: i <= j < n && j < |l| ==> l[j] in mk && !mk[l[j]].age.Old1?
  }

  /** The pointer to the first old1 object: kept when set, and set to the first one met. */
  ghost predicate FirstMet(mk: Marks, l: seq<Id>, i: nat, n: nat, first: Pointer, now: Pointer) {
    if first != Null then now == first
    else if now == Null then NoOld1(mk, l, i, n)
    else exists m: nat :: MetAt(mk, l, i, n, now, m)
  }

  predicate MetAt(mk: Marks, l: seq<Id>, i: nat, n: nat, now: Pointer, m: nat) {
    i <= m < n && m < |l| && now == To(l[m]) && NoOld1(mk, l, i, m)
  }

  lemma FirstMetNext(h0: Heap, m0: Marks, h1: Heap, m1: Marks, live: set<Id>, white: bool, l0: seq<Id>, l1: seq<Id>,
          i: nat, n: nat, n1: nat, first: Pointer, now: Pointer)
    requires FirstMet(m0, l0, i, n, first, now) && i <= n < |l0| && NoneTwice(l0)
      && GenSwept(h0, m0, h1, m1, live, {l0[n]}, white)
    requires (n1 == n + 1 && l1 == l0 && l0[n] in m1) || (n1 == n && l1 == RemoveAt(l0, n))
    requires forall x :: x in m0 && x != l0[n] ==> x in m1
    ensures FirstMet(m1, l1, i, n1, first, if now == Null && n1 == n + 1 && m1[l0[n]].age.Old1? then To(l0[n]) else now)
  {
    forall j | i <= j < n
      ensures l1[j] == l0[j] && l0[j] != l0[n] && (l0[j] in m0 ==> l0[j] in m1 && m1[l0[j]].age == m0[l0[j]].age)
    {
      if l0[j] in m0 { assert GenSweptAt(h0, m0, h1, m1, live, {l0[n]}, white, l0[j]); }
    }
    if first == Null {
      if now == Null {
        assert NoOld1(m1, l1, i, n);
        if n1 == n + 1 && m1[l0[n]].age.Old1? { assert MetAt(m1, l1, i, n1, To(l0[n]), n); }
      } else {
        var m: nat :| MetAt(m0, l0, i, n, now, m);
        assert MetAt(m1, l1, i, n1, now, m);
      }
    }
  }

  /** How far the sweep of a list has come: from position `i` to `k` of the old list. */
  ghost predicate GenSweeping(s0: State, s: State, w: Which, i: nat, k: nat, n: nat, first: Pointer, now: Pointer) {
    var l0 := ListOf(s0.ls, w);
    && SweepWork(s0, s) && Base(s) && Live(s) == Live(s0) && s.gray == s0.gray && s.white == s0.white
    && i <= k <= |l0| && n == i + |Stay(Live(s0), false, l0[i..k])| && SweptUpTo(s0, s, w, i, k)
    && |ListOf(s.ls, w)| - n == |l0| - k
    && GenSwept(s0.hp, s0.mk, s.hp, s.mk, Live(s0), Elements(l0[i..k]), s.white)
    && WhitesDead(s.mk, ListOf(s.ls, w), n, s.white)
    && FirstMet(s.mk, ListOf(s.ls, w), i, n, first, now)
  }

  lemma GenSweepingFacts(s0: State, s: State, w: Which, i: nat, k: nat, n: nat, first: Pointer, now: Pointer)
    requires GenSweeping(s0, s, w, i, k, n, first, now)
    ensures Base(s) && s.mk.Keys == s.hp.Keys && |ListOf(s.ls, w)| - n == |ListOf(s0.ls, w)| - k
      && i <= k <= |ListOf(s0.ls, w)| && i <= n
    ensures n < |ListOf(s.ls, w)| ==> ListOf(s.ls, w)[n] == ListOf(s0.ls, w)[k]
    ensures WhitesDead(s.mk, ListOf(s.ls, w), n, s.white)
  {
    hide Base, Live, SweepWork, GenSwept, Stay, WhitesDead, FirstMet, Elements, ListOf;
    BaseFacts(s);
    SweptUpToAt(s0, s, w, i, k);
  }

  lemma GenSweepingStart(s: State, w: Which, i: nat, first: Pointer)
    requires Base(s) && i <= |ListOf(s.ls, w)| && WhitesDead(s.mk, ListOf(s.ls, w), i, s.white)
    ensures GenSweeping(s, s, w, i, i, i, first, first)
  {
    hide Base, Live, SweepWork, GenSwept, Stay, WhitesDead, FirstMet, Elements, ListOf;
    BaseFacts(s);
    SweepWorkNone(s);
    SweptUpToNone(s, w, i);
    GenSweptNone(s.hp, s.mk, Live(s), s.white);
    FirstMetNone(s.mk, ListOf(s.ls, w), i, first);
    ElementsNone(ListOf(s.ls, w), i);
  }

  lemma GenSweepingNext(s0: State, s: State, t: State, w: Which, i: nat, k: nat, n: nat, n1: nat, first: Pointer,
          now: Pointer)
    requires Base(s0) && GenSweeping(s0, s, w, i, k, n, first, now) && n < |ListOf(s.ls, w)|
    requires SweepWork(s, t) && t.gray == s.gray && Base(t)
    requires GenSwept(s.hp, s.mk, t.hp, t.mk, Live(s), {ListOf(s.ls, w)[n]}, t.white)
    requires var l := ListOf(s.ls, w);
      if l[n] in Live(s) then n1 == n + 1 && t.ls == s.ls && t.hp.Keys == s.hp.Keys && l[n] in t.mk
      else n1 == n && t.ls == WithList(s.ls, w, RemoveAt(l, n)) && t.hp.Keys == s.hp.Keys - {l[n]}
    ensures ListOf(s.ls, w)[n] in s.mk
    ensures GenSweeping(s0, t, w, i, k + 1, n1, first,
                        if now == Null && n1 == n + 1
                          && t.mk[ListOf(s.ls, w)[n]].age.Old1? then To(ListOf(s.ls, w)[n]) else now)
  {
    hide Base, Live, KeptLive, MarksSwept, GenSwept, Stay, Leave, SweptUpTo, WhitesDead, FirstMet, Elements, ListOf,
      WithList, RemoveAt, UpvalsOk, Partition;
    var l, l0 := ListOf(s.ls, w), ListOf(s0.ls, w);
    BaseFacts(s0);
    BaseFacts(s);
    BaseFacts(t);
    ListNoneTwice(s, w);
    ListNoneTwice(s0, w);
    WhitesDeadAt(s.mk, l, n, s.white);
    ListWith(s.ls, w, RemoveAt(l, n));
    WhitesDeadNext(s.hp, s.mk, t.hp, t.mk, Live(s0), t.white, l, ListOf(t.ls, w), n, n1);
    FirstMetNext(s.hp, s.mk, t.hp, t.mk, Live(s0), t.white, l, ListOf(t.ls, w), i, n, n1, first, now);
    SweepWorkTrans(s0, s, t);
    SweptUpToAt(s0, s, w, i, k);
    SweptUpToNext(s0, s, t, w, i, k);
    ElementsMore(l0, i, k);
    GenSweptTrans(s0.hp, s0.mk, s.hp, s.mk, t.hp, t.mk, Live(s0), Elements(l0[i..k]), {l0[k]}, Elements(l0[i..k + 1]),
      t.white);
    SweptUpToLength(s0, t, w, i, k + 1);
  }

  lemma SweepWorkAside(s: State, t: State)
    requires SweepWork(s, t)
    ensures t == s.(hp := t.hp, mk := t.mk, ls := t.ls)
  {
  }

  lemma GenSweepingMeans(s0: State, s: State, w: Which, i: nat, k: nat, n: nat, first: Pointer, now: Pointer)
    requires GenSweeping(s0, s, w, i, k, n, first, now)
    ensures var l0 := ListOf(s0.ls, w);
      && SweepWork(s0, s) && Base(s) && Live(s) == Live(s0) && s.gray == s0.gray
      && i <= k <= |l0| && n == i + |Stay(Live(s0), false, l0[i..k])| && SweptUpTo(s0, s, w, i, k)
      && GenSwept(s0.hp, s0.mk, s.hp, s.mk, Live(s0), Elements(l0[i..k]), s.white)
      && FirstMet(s.mk, ListOf(s.ls, w), i, n, first, now)
  {
    hide Base, Live, SweepWork, GenSwept, Stay, SweptUpTo, WhitesDead, FirstMet, Elements, ListOf;
  }

  /** sweepgen on the list `w`, from position `i` up to the pointer `limit`. Returns where it
      stopped, and the pointer to the first old1 object. */
  method SweepGen(g: GlobalState, w: Which, i: nat, limit: Pointer, first: Pointer)
    returns (n: nat, now: Pointer, ghost k: nat)
    requires Base(Snap(g)) && !KeepInvariant(g.gcstate) && g.gckind.GenMinor?
    requires i <= |ListOf(g.ls, w)| && WhitesDead(g.mk, ListOf(g.ls, w), i, g.currentwhite)
    modifies g`hp, g`mk, g`gray, g`ls
    ensures SweepWork(old(Snap(g)), Snap(g)) && g.gray == old(g.gray) && Base(Snap(g))
      && Live(Snap(g)) == Live(old(Snap(g)))
    ensures SweptUpTo(old(Snap(g)), Snap(g), w, i, k) && i <= k <= |ListOf(old(g.ls), w)|
    ensures n == i + |Stay(Live(old(Snap(g))), false, ListOf(old(g.ls), w)[i..k])| && n <= |ListOf(g.ls, w)|
    ensures var l := ListOf(old(g.ls), w);
      (k == |l| || limit == To(l[k])) && forall j :: i <= j < k ==> limit != To(l[j])
    ensures GenSwept(old(g.hp), old(g.mk), g.hp, g.mk, Live(old(Snap(g))), Elements(ListOf(old(g.ls), w)[i..k]),
      g.currentwhite)
    ensures WhitesDead(g.mk, ListOf(g.ls, w), n, g.currentwhite)
    ensures FirstMet(g.mk, ListOf(g.ls, w), i, n, first, now)
  {
    hide Base, Live, GenSweeping, SweepWork, GenSwept, NextAge, Stay, SweptUpTo, WhitesDead, FirstMet, Elements,
      ListOf, WithList, RemoveAt;
    ghost var s0, l0 := Snap(g), ListOf(g.ls, w);
    n, now, k := i, first, i;
    GenSweepingStart(s0, w, i, first);
    GenSweepingFacts(s0, s0, w, i, i, i, first, first);
    while n < |ListOf(g.ls, w)| && limit != To(ListOf(g.ls, w)[n])
      invariant GenSweeping(s0, Snap(g), w, i, k, n, first, now)
      invariant i <= k <= |l0| && |ListOf(g.ls, w)| - n == |l0| - k
      invariant forall j :: i <= j < k ==> limit != To(l0[j])
      decreases |l0| - k
    {
      ghost var s := Snap(g);
      var curr := ListOf(g.ls, w)[n];
      GenSweepingFacts(s0, s, w, i, k, n, first, now);
      WhitesDeadAt(g.mk, ListOf(g.ls, w), n, g.currentwhite);
      var n1 := SweepGenOne(g, w, n);
      SweepWorkAside(s, Snap(g));
      GenSweepingNext(s0, s, Snap(g), w, i, k, n, n1, first, now);
      if n1 == n + 1 && now == Null && g.mk[curr].age.Old1? {
        now := To(curr);
      }
      n, k := n1, k + 1;
      GenSweepingFacts(s0, Snap(g), w, i, k, n, first, now);
    }
    GenSweepingFacts(s0, Snap(g), w, i, k, n, first, now);
    GenSweepingMeans(s0, Snap(g), w, i, k, n, first, now);
  }

  lemma FirstMetNone(mk: Marks, l: seq<Id>, i: nat, first: Pointer)
    ensures FirstMet(mk, l, i, i, first, first)
  {
  }

  lemma ElementsNone(l: seq<Id>, i: nat)
    requires i <= |l|
    ensures Elements(l[i..i]) == {}
  {
  }

  lemma ElementsMore(l: seq<Id>, i: nat, k: nat)
    requires i <= k < |l| && NoneTwice(l)
    ensures Elements(l[i..k + 1]) == Elements(l[i..k]) + {l[k]} && Elements(l[i..k]) !! {l[k]}
  {
    assert l[i..k + 1] == l[i..k] + [l[k]];
    assert forall j :: i <= j < k ==> l[i..k][j - i] == l[j];
  }

  lemma WhitesDeadAt(mk: Marks, l: seq<Id>, n: nat, white: bool)
    requires WhitesDead(mk, l, n, white) && n < |l|
    ensures l[n] in mk && (mk[l[n]].color.White? ==> mk[l[n]].color == White(!white))
  {
  }

  /** Where the walk stopped, in the old list and in the new one. */
  lemma SweptUpToAt(s: State, t: State, w: Which, i: nat, k: nat)
    requires SweptUpTo(s, t, w, i, k)
    ensures var l, n := ListOf(s.ls, w), i + |Stay(Live(s), false, ListOf(s.ls, w)[i..k])|;
      && n + |l| - k == |ListOf(t.ls, w)| && (k < |l| ==> ListOf(t.ls, w)[n] == l[k])
  {
    hide Stay, Live, Elements, Leave;
    var l := ListOf(s.ls, w);
    ListWith(s.ls, w, l[..i] + Stay(Live(s), false, l[i..k]) + l[k..]);
  }

  /** The age of an object after the old1 objects were marked again and the atomic phase is over. */
  predicate MarkedAge(a: Age, b: Age) {
    b == (if a.Old1? then Old else a) || (a.Touched2? && b.Old?)
  }

  lemma {:induction false} StaySplit(s: set<Id>, l: seq<Id>, a: nat, b: nat)
    requires a <= b <= |l|
    ensures Stay(s, false, l[..b]) == Stay(s, false, l[..a]) + Stay(s, false, l[a..b])
    decreases b - a
  {
    if a < b {
      StaySplit(s, l, a, b - 1);
      assert l[..b] == l[..b - 1] + [l[b - 1]] && l[a..b] == l[a..b - 1] + [l[b - 1]];
      StayLeaveSnoc(s, false, l[..b - 1], l[b - 1]);
      StayLeaveSnoc(s, false, l[a..b - 1], l[b - 1]);
    } else {
      assert l[a..b] == [];
    }
  }

  /** The list of finalizable objects is divided as before when some of them have left it. */
  lemma FinChain(m0: Marks, m1: Marks, strong: set<Id>, fin0: seq<Id>, fin1: seq<Id>, tob0: seq<Id>, tob1: seq<Id>,
          p: Pointers, sur1: Pointer, k: nat)
    requires Chain(m0, fin0, p.finobjsur, p.finobjold1, p.finobjrold) && NoneTwice(fin0)
    requires Separated(strong, false, fin0, k, fin1, tob0, tob1)
      && SurMoved(strong, false, fin0, k, p.finobjsur, fin1, sur1)
    requires k == |fin0| || p.finobjold1 == To(fin0[k])
    requires forall j :: 0 <= j < k ==> p.finobjold1 != To(fin0[j])
    requires m0.Keys == m1.Keys && forall x :: x in m0 ==> MarkedAge(m0[x].age, m1[x].age)
    ensures Chain(m1, fin1, sur1, p.finobjold1, p.finobjrold)
    ensures forall j :: k <= j < |fin0| ==> fin0[j] in m0 && !Unsettled(m0[fin0[j]].age)
  {
    hide SurMoved, Separated, Stay, PointsAt, NoneTwice;
    var a: nat, b: nat, d: nat :| ChainAt(m0, fin0, p.finobjsur, p.finobjold1, p.finobjrold, a, b, d);
    FinParts(strong, fin0, k, fin1, tob0, tob1);
    StopsAt(p.finobjold1, fin0, b, 0, k);
    SurMovedAt(strong, fin0, k, p.finobjsur, fin1, sur1, a);
    PointsInside(p.finobjold1, fin0, b);
    StaySplit(strong, fin0, a, b);
    PointsTail(p.finobjold1, fin0, b, b, Stay(strong, false, fin0[..b]));
    PointsTail(p.finobjrold, fin0, b, d, Stay(strong, false, fin0[..b]));
    var n0, n1 := |Stay(strong, false, fin0[..a])|, |Stay(strong, false, fin0[..b])|;
    StayLeaveMembers(strong, false, fin0[..b]);
    StayLeaveMembers(strong, false, fin0[a..b]);
    forall j | 0 <= j < |fin1| ensures fin1[j] in m1 && FinAge(m1[fin1[j]].age, j >= n0, j >= n1) {
      FinPlace(strong, fin0, fin1, a, b, j);
      var i: nat :| i < |fin0| && fin0[i] == fin1[j] && (j >= n0 ==> i >= a) && (j >= n1 ==> i >= b);
      assert fin0[i] in m0;
    }
    assert ChainAt(m1, fin1, sur1, p.finobjold1, p.finobjrold, n0, n1, n1 + d - b);
  }

  /** The age of an object of `finobj` before the sweep, by its place. */
  predicate FinAge(a: Age, notNew: bool, settled: bool) {
    (notNew ==> !a.New?) && (settled ==> !Unsettled(a)) && !a.Old1?
  }

  lemma FinParts(strong: set<Id>, fin0: seq<Id>, k: nat, fin1: seq<Id>, tob0: seq<Id>, tob1: seq<Id>)
    requires Separated(strong, false, fin0, k, fin1, tob0, tob1)
    ensures k <= |fin0| && fin1 == Stay(strong, false, fin0[..k]) + fin0[k..]
  {
  }

  lemma PointsTail(p: Pointer, l: seq<Id>, b: nat, i: nat, front: seq<Id>)
    requires PointsAt(p, l, i) && b <= i
    ensures b <= |l| && PointsAt(p, front + l[b..], |front| + i - b)
  {
  }

  lemma SurMovedAt(strong: set<Id>, fin0: seq<Id>, k: nat, sur0: Pointer, fin1: seq<Id>, sur1: Pointer, q: nat)
    requires SurMoved(strong, false, fin0, k, sur0, fin1, sur1) && NoneTwice(fin0) && q <= k <= |fin0|
      && PointsAt(sur0, fin0, q)
    ensures PointsAt(sur1, fin1, |Stay(strong, false, fin0[..q])|)
  {
  }

  /** Where an object of the new list was in the old one. */
  lemma FinPlace(strong: set<Id>, fin0: seq<Id>, fin1: seq<Id>, a: nat, b: nat, j: nat)
    requires a <= b <= |fin0| && fin1 == Stay(strong, false, fin0[..b]) + fin0[b..] && j < |fin1|
    requires Stay(strong, false, fin0[..b]) == Stay(strong, false, fin0[..a]) + Stay(strong, false, fin0[a..b])
    requires forall x :: x in Stay(strong, false, fin0[..b]) ==> x in fin0[..b]
    requires forall x :: x in Stay(strong, false, fin0[a..b]) ==> x in fin0[a..b]
    ensures exists i: nat :: i < |fin0| && fin0[i] == fin1[j] && (j >= |Stay(strong, false, fin0[..a])| ==> i >= a)
                             && (j >= |Stay(strong, false, fin0[..b])| ==> i >= b)
  {
    hide Stay;
    var s, sa, sab := Stay(strong, false, fin0[..b]), Stay(strong, false, fin0[..a]), Stay(strong, false, fin0[a..b]);
    if j >= |s| {
      assert fin1[j] == fin0[b + j - |s|];
    } else if j >= |sa| {
      assert fin1[j] == sab[j - |sa|] && sab[j - |sa|] in fin0[a..b];
      var i :| 0 <= i < b - a && fin0[a..b][i] == fin1[j];
      assert fin0[a + i] == fin1[j];
    } else {
      assert fin1[j] in s && fin1[j] in fin0[..b];
    }
  }

  /** A mark from the start of a young collection to the end of its atomic phase. */
  predicate YoungMark(m0: Mark, m1: Mark, white: bool) {
    && MarkedAge(m0.age, m1.age) && m1.fin == m0.fin
    && (m1.color.White? ==> m1.color == White(!white)) && (!m0.color.White? ==> !m1.color.White?)
  }

  /** What the marking half of a young collection does: nothing is swept yet. */
  ghost predicate YoungMarked(s: State, a: State, p: Pointers, strong: set<Id>) {
    && a == s.(hp := a.hp, mk := a.mk, gray := [], links := a.links, twups := a.twups,
               ls := s.ls.(finobj := a.ls.finobj, tobefnz := a.ls.tobefnz), white := !s.white, at := Atomic)
    && Base(a) && Live(a) == Marked(a.mk) && Listed(a.hp, a.mk, [], {}, a.links)
    && StrongSet(s, strong) && strong <= Live(a) && Roots(a) == Roots(s) && Roots(s) <= Live(a)
    && HeapShrunk(s.hp, a.hp) && (forall o :: o in s.hp ==> o in a.hp && WeakLoss(s.hp, s.hp[o], a.hp[o], strong))
    && a.mk.Keys == s.mk.Keys && (forall o :: o in s.mk ==> YoungMark(s.mk[o], a.mk[o], a.white))
    && Chain(a.mk, a.ls.allgc, p.survival, p.old1, p.reallyold)
    && Chain(a.mk, a.ls.finobj, p.finobjsur, p.finobjold1, p.finobjrold)
  }

  /** A mark after the old1 objects were marked again. */
  predicate RipeAge(m0: Mark, m1: Mark) {
    && m1.age == (if m0.age.Old1? then Old else m0.age) && m1.fin == m0.fin
    && (m1.color.White? ==> m1.color == m0.color) && (!m0.color.White? ==> !m1.color.White?)
    && (!m0.color.White? && !m0.age.Old1? ==> m1 == m0)
  }

  lemma RipeMarks(hp: Heap, m0: Marks, g0: seq<Id>, ga: seq<Id>, m1: Marks, g1: seq<Id>)
    requires Remarked(hp, m0, g0, AllOld1(m0), ga, m1, g1)
    ensures m1.Keys == m0.Keys == hp.Keys && forall o :: o in m0 ==> RipeAge(m0[o], m1[o])
  {
    hide RefsIn, JustMarked;
    var a := Ripened(hp, m0, AllOld1(m0));
    assert a.Keys == m0.Keys;
    forall o | o in m0 ensures RipeAge(m0[o], m1[o]) {
      assert a[o] == if o in AllOld1(m0) then Ripe(hp[o], m0[o]) else m0[o];
    }
  }

  lemma RipeBase(s: State, p: Pointers, b: State)
    requires GenInv(s, p) && b == s.(mk := b.mk, gray := b.gray)
    requires b.mk.Keys == s.mk.Keys && forall o :: o in s.mk ==> RipeAge(s.mk[o], b.mk[o])
    ensures Base(b) && Undead(b) && Live(b) == Live(s)
  {
    hide GenInv, Base, Live;
    GenFacts(s, p);
    GenBase(s, p);
    GenMain(s, p);
    FixedOld(s);
    BaseRecolor(s, b.mk);
    BaseAside(s.(mk := b.mk), b);
  }

  lemma GenMain(s: State, p: Pointers)
    requires GenInv(s, p)
    ensures s.an.main in Marked(s.mk)
  {
  }

  lemma FixedOld(s: State)
    requires Base(s)
    ensures forall o ::
      o in s.ls.fixedgc ==> o in s.hp && o in s.mk && s.hp[o].Str? && !s.mk[o].color.White? && s.mk[o].age.Old?
  {
  }

  /** The marking half of a young collection. */
  method MarkYoung(g: GlobalState, ghost c: set<Id>, ghost c2: set<Id>) returns (ghost strong: set<Id>)
    requires GenInv(Snap(g), g.ptr) && Covers(Snap(g), c) && CoversFin(Snap(g), c, c2)
    modifies g`hp, g`mk, g`gray, g`grayagain, g`weak, g`allweak, g`ephemeron, g`twups
    modifies g`gcstate, g`ls, g`ptr, g`currentwhite
    ensures YoungMarked(old(Snap(g)), Snap(g), g.ptr, strong) && Marked(g.mk) <= c2 && g.ptr.firstold1 == Null
  {
    hide GenInv, Base, Live, HeapReady, Enclosed, AtomicInv, TwupsInv, Marked, Cleared, Separated, StrongClosed,
      RefsIn, Remarked, Covers, SurMoved, YoungMarked, AtomicOutcome, Undead, Listed;
    ghost var s, p := Snap(g), g.ptr;
    GenFacts(s, p);
    GenBase(s, p);
    YoungCovers(s, c);
    ghost var ga := MarkOld1s(g, c);
    ghost var b := Snap(g);
    RipeAtomic(g, s, p, ga, c);
    FinNotStr(s);
    ghost var k: nat;
    strong, k := g.AtomicStep(c, c2);
    MarkedYoung(s, p, b, Snap(g), g.ptr, strong, k);
  }

  /** After the old1 objects were marked again the atomic phase may start. */
  lemma RipeAtomic(g: GlobalState, s: State, p: Pointers, ga: seq<Id>, c: set<Id>)
    requires GenInv(s, p) && Snap(g) == s.(mk := g.mk, gray := g.gray) && g.MarkReady(c)
    requires Remarked(s.hp, s.mk, s.gray, AllOld1(s.mk), ga, g.mk, g.gray)
    requires s.an.running in c && In(s.an.registry, c) && AllIn(s.an.mt, c)
    ensures g.AtomicReady(c) && Base(Snap(g)) && Undead(Snap(g)) && Live(Snap(g)) == Live(s)
    ensures g.mk.Keys == s.mk.Keys && forall o :: o in s.mk ==> RipeAge(s.mk[o], g.mk[o])
  {
    hide GenInv, Base, Live, HeapReady, AtomicInv, TwupsInv, Marked, Remarked, Undead;
    RipeReady(s, p, ga, g.mk, g.gray);
    RipeMarks(s.hp, s.mk, s.gray, ga, g.mk, g.gray);
    RipeBase(s, p, Snap(g));
    GenLinks(s, p);
  }

  lemma YoungCovers(s: State, c: set<Id>)
    requires Covers(s, c) && s.at.Propagate? && HeapReady(s.hp, s.hp.Keys)
    ensures HeapReady(s.hp, c) && Marked(s.mk) <= c
    ensures s.an.running in c && In(s.an.registry, c) && AllIn(s.an.mt, c)
  {
  }

  lemma GenLinks(s: State, p: Pointers)
    requires GenInv(s, p)
    ensures s.links == Links(s.links.grayagain, [], [], [])
  {
  }

  /** Putting together what the parts of the marking half do. */
  lemma MarkedYoung(s: State, p: Pointers, b: State, a: State, p1: Pointers, strong: set<Id>, k: nat)
    requires GenInv(s, p) && b == s.(mk := b.mk, gray := b.gray) && Base(b) && Undead(b) && Live(b) == Live(s)
    requires b.mk.Keys == s.mk.Keys && forall o :: o in s.mk ==> RipeAge(s.mk[o], b.mk[o])
    requires a == b.(hp := a.hp, mk := a.mk, gray := [], links := a.links, twups := a.twups,
                     ls := s.ls.(finobj := a.ls.finobj, tobefnz := a.ls.tobefnz), white := !s.white, at := Atomic)
    requires StrongClosed(b.hp, strong) && Marked(b.mk) <= strong <= Marked(a.mk)
      && Cleared(strong, b.hp, b.mk, a.hp, a.mk)
    requires s.an.running in strong && In(s.an.registry, strong) && AllIn(s.an.mt, strong)
    requires Separated(strong, false, s.ls.finobj, k, a.ls.finobj, s.ls.tobefnz, a.ls.tobefnz)
    requires p1 == p.(firstold1 := Null, finobjsur := p1.finobjsur)
    requires k == |s.ls.finobj| || p.finobjold1 == To(s.ls.finobj[k])
    requires forall j :: 0 <= j < k ==> p.finobjold1 != To(s.ls.finobj[j])
    requires SurMoved(strong, false, s.ls.finobj, k, p.finobjsur, a.ls.finobj, p1.finobjsur)
    requires forall x :: x in a.ls.tobefnz ==> x in Marked(a.mk)
    requires forall o :: o in Marked(a.mk) ==> o in a.hp && RefsIn(a.hp, a.hp[o], Marked(a.mk))
    requires TwupsInv(a.hp, a.mk, [], {}, a.twups) && forall t :: t in a.twups ==> t in Marked(a.mk)
    requires Listed(a.hp, a.mk, [], {}, a.links)
    ensures YoungMarked(s, a, p1, strong)
  {
    hide GenInv, Base, Live, Marked, Separated, StrongClosed, RefsIn, TwupsInv, SurMoved, Undead, Listed, StrongSet,
      Chain, HeapShrunk, WeakLoss, OnlyWeakLost, FinSplit, Roots;
    GenBase(s, p);
    ClearedMarks(strong, b.hp, b.mk, a.hp, a.mk);
    YoungMarks(s, p, b, a);
    YoungChains(s, p, a, p1, strong, k);
    OldStrong(s, p, strong, b, k);
    SplitIs(b, a, strong, k);
    AtomicBase(b, a, strong);
    AtomicKeepsRoots(b, a, strong);
    StrongSetAside(b, s, strong);
    RootsSame(s, b);
    BaseFacts(b);
  }

  lemma SplitIs(s: State, a: State, strong: set<Id>, k: nat)
    requires Separated(strong, false, s.ls.finobj, k, a.ls.finobj, s.ls.tobefnz, a.ls.tobefnz)
    requires forall j :: k <= j < |s.ls.finobj| ==> s.ls.finobj[j] in strong
    ensures FinSplit(s, a, strong)
  {
    assert SplitAt(s, a, strong, k);
  }

  lemma ClearedMarks(s: set<Id>, h0: Heap, m0: Marks, h1: Heap, m1: Marks)
    requires Cleared(s, h0, m0, h1, m1)
    ensures HeapShrunk(h0, h1) && OnlyWeakLost(h0, h1, s) && MarksProgress(m0, m1)
  {
  }

  lemma YoungMarks(s: State, p: Pointers, b: State, a: State)
    requires GenInv(s, p) && b.mk.Keys == s.mk.Keys && forall o :: o in s.mk ==> RipeAge(s.mk[o], b.mk[o])
    requires MarksProgress(b.mk, a.mk) && a.white == !s.white
    ensures a.mk.Keys == s.mk.Keys && forall o :: o in s.mk ==> YoungMark(s.mk[o], a.mk[o], a.white)
  {
    hide Base, Queued, Ranks, Chains, Held, Edges;
    forall o | o in s.mk ensures YoungMark(s.mk[o], a.mk[o], a.white) {
      assert Aged(s.hp, s.mk, s.gray, s.links.grayagain, s.white, o);
    }
  }

  lemma YoungChains(s: State, p: Pointers, a: State, p1: Pointers, strong: set<Id>, k: nat)
    requires GenInv(s, p) && a.mk.Keys == s.mk.Keys && forall o :: o in s.mk ==> YoungMark(s.mk[o], a.mk[o], a.white)
    requires Separated(strong, false, s.ls.finobj, k, a.ls.finobj, s.ls.tobefnz, a.ls.tobefnz)
    requires a.ls.allgc == s.ls.allgc && p1 == p.(firstold1 := Null, finobjsur := p1.finobjsur)
    requires k == |s.ls.finobj| || p.finobjold1 == To(s.ls.finobj[k])
    requires forall j :: 0 <= j < k ==> p.finobjold1 != To(s.ls.finobj[j])
    requires SurMoved(strong, false, s.ls.finobj, k, p.finobjsur, a.ls.finobj, p1.finobjsur)
    ensures Chain(a.mk, a.ls.allgc, p1.survival, p1.old1, p1.reallyold)
    ensures Chain(a.mk, a.ls.finobj, p1.finobjsur, p1.finobjold1, p1.finobjrold)
    ensures forall j :: k <= j < |s.ls.finobj| ==> s.ls.finobj[j] in s.mk && !Unsettled(s.mk[s.ls.finobj[j]].age)
  {
    hide Base, Queued, Ranks, AllAged, Chain, First, Separated, SurMoved;
    GenBase(s, p);
    BaseFacts(s);
    ListNoneTwice(s, FinObj);
    ListShown(s.ls);
    ChainAges(s.mk, a.mk, s.ls.allgc, p.survival, p.old1, p.reallyold);
    FinChain(s.mk, a.mk, strong, s.ls.finobj, a.ls.finobj, s.ls.tobefnz, a.ls.tobefnz, p, p1.finobjsur, k);
  }

  /** The objects with finalizers that are not looked at are old, so they are marked. */
  lemma OldStrong(s: State, p: Pointers, strong: set<Id>, b: State, k: nat)
    requires GenInv(s, p) && b.mk.Keys == s.mk.Keys && (forall o :: o in s.mk ==> RipeAge(s.mk[o], b.mk[o]))
      && Marked(b.mk) <= strong
    requires forall j :: k <= j < |s.ls.finobj| ==> s.ls.finobj[j] in s.mk && !Unsettled(s.mk[s.ls.finobj[j]].age)
    ensures forall j :: k <= j < |s.ls.finobj| ==> s.ls.finobj[j] in strong
  {
    hide Base, Queued, Ranks, Chains, Held, Edges;
    forall j | k <= j < |s.ls.finobj| ensures s.ls.finobj[j] in strong {
      var o := s.ls.finobj[j];
      assert Aged(s.hp, s.mk, s.gray, s.links.grayagain, s.white, o);
      assert o in Marked(b.mk);
    }
  }

  /** At the end of the atomic phase white objects are dead, old ones marked, and no object is old1. */
  predicate SweepReady(m: Mark, white: bool) {
    (m.color.White? ==> m.color == White(!white)) && (m.age.IsOld() ==> !m.color.White?) && !m.age.Old1?
  }

  ghost predicate AllReady(mk: Marks, l: seq<Id>, white: bool) {
    forall j :: 0 <= j < |l| ==> l[j] in mk && SweepReady(mk[l[j]], white)
  }

  /** The two parts of a list that are swept, the new objects and the survivals. */
  method SweepParts(g: GlobalState, w: Which, sur: Pointer, old1: Pointer, ghost rold: Pointer, first: Pointer)
    returns (now: Pointer, mid: Pointer, ghost b: nat)
    requires Base(Snap(g)) && !KeepInvariant(g.gcstate) && g.gckind.GenMinor?
    requires Chain(g.mk, ListOf(g.ls, w), sur, old1, rold) && AllReady(g.mk, ListOf(g.ls, w), g.currentwhite)
    modifies g`hp, g`mk, g`gray, g`ls
    ensures SweepWork(old(Snap(g)), Snap(g)) && g.gray == old(g.gray) && Base(Snap(g))
      && Live(Snap(g)) == Live(old(Snap(g)))
    ensures b <= |ListOf(old(g.ls), w)| && SweptUpTo(old(Snap(g)), Snap(g), w, 0, b)
    ensures forall j ::
      b <= j < |ListOf(old(g.ls), w)| ==>
      ListOf(old(g.ls), w)[j] in old(g.mk) && !Unsettled(old(g.mk)[ListOf(old(g.ls), w)[j]].age)
    ensures GenSwept(old(g.hp), old(g.mk), g.hp, g.mk, Live(old(Snap(g))), Elements(ListOf(old(g.ls), w)[..b]),
      g.currentwhite)
    ensures Chain(g.mk, ListOf(g.ls, w), HeadOf(ListOf(g.ls, w)), mid, old1)
    ensures first == Null ==> First(g.mk, ListOf(g.ls, w), now)
  {
    hide Base, Live, SweepWork, GenSwept, Stay, SweptUpTo, WhitesDead, FirstMet, Elements, ListOf, WithList, RemoveAt,
      UpvalsOk, Chain, First, AllReady;
    ghost var s0, l0 := Snap(g), ListOf(g.ls, w);
    ghost var a: nat, d: nat;
    BaseFacts(s0);
    ListNoneTwice(s0, w);
    a, b, d := ChainParts(g.mk, l0, sur, old1, rold);
    ReadyDead(g.mk, l0, g.currentwhite);
    var n, first1 := 0, first;
    ghost var k: nat, k1: nat;
    n, first1, k := SweepGen(g, w, 0, sur, first);
    ghost var s1, l1 := Snap(g), ListOf(g.ls, w);
    StopsAt(sur, l0, a, 0, k);
    var n2;
    n2, now, k1 := SweepGen(g, w, n, old1, first1);
    var l2 := ListOf(g.ls, w);
    mid := if n < |l2| then To(l2[n]) else Null;
    PartsStop(s0, s1, w, old1, a, b, n, k1);
    PartsTogether(s0, s1, Snap(g), w, a, b, n, k1);
    SweepWorkTrans(s0, s1, Snap(g));
    PartsAges(s0, s1, Snap(g), w, a, b, n, k1);
    PartsChain(s0, Snap(g), w, sur, old1, rold, a, b, d);
    if first == Null { PartsFirst(s0, s1, Snap(g), w, a, b, n, n2, k1, first1, now); }
  }

  function HeadOf(l: seq<Id>): Pointer {
    if l == [] then Null else To(l[0])
  }

  lemma ChainParts(mk: Marks, l: seq<Id>, sur: Pointer, old1: Pointer, rold: Pointer) returns (a: nat, b: nat, d: nat)
    requires Chain(mk, l, sur, old1, rold)
    ensures ChainAt(mk, l, sur, old1, rold, a, b, d)
  {
    a, b, d :| ChainAt(mk, l, sur, old1, rold, a, b, d);
  }

  lemma ReadyDead(mk: Marks, l: seq<Id>, white: bool)
    requires AllReady(mk, l, white)
    ensures WhitesDead(mk, l, 0, white)
  {
  }

  /** The second walk stops where `old1` points. */
  lemma PartsStop(s: State, t: State, w: Which, old1: Pointer, a: nat, b: nat, n: nat, k: nat)
    requires SweptUpTo(s, t, w, 0, a) && n == |Stay(Live(s), false, ListOf(s.ls, w)[0..a])| && a <= b
    requires PointsAt(old1, ListOf(s.ls, w), b) && NoneTwice(ListOf(s.ls, w)) && n <= k <= |ListOf(t.ls, w)|
    requires (k == |ListOf(t.ls, w)| || old1 == To(ListOf(t.ls, w)[k]))
      && forall j :: n <= j < k ==> old1 != To(ListOf(t.ls, w)[j])
    ensures k == n + b - a && b <= |ListOf(s.ls, w)| && ListOf(t.ls, w)[n..] == ListOf(s.ls, w)[a..]
    ensures ListOf(t.ls, w)[n..k] == ListOf(s.ls, w)[a..b]
  {
    hide Live, Stay, Leave, Elements;
    var l, l1 := ListOf(s.ls, w), ListOf(t.ls, w);
    ListWith(s.ls, w, l[..0] + Stay(Live(s), false, l[0..a]) + l[a..]);
    assert l1 == Stay(Live(s), false, l[0..a]) + l[a..];
    assert l1[n..] == l[a..];
    assert b < |l| ==> l1[n + b - a] == l[a..][b - a];
    assert l1[n..k] == l[a..b];
  }

  /** Both walks together sweep positions up to `b`. */
  lemma PartsTogether(s: State, t: State, u: State, w: Which, a: nat, b: nat, n: nat, k: nat)
    requires SweptUpTo(s, t, w, 0, a) && n == |Stay(Live(s), false, ListOf(s.ls, w)[0..a])|
      && SweptUpTo(t, u, w, n, k) && Live(t) == Live(s)
    requires a <= b <= |ListOf(s.ls, w)| && n <= k <= |ListOf(t.ls, w)| && k == n + b - a
      && ListOf(t.ls, w)[n..k] == ListOf(s.ls, w)[a..b]
    requires ListOf(t.ls, w)[n..] == ListOf(s.ls, w)[a..]
    ensures SweptUpTo(s, u, w, 0, b)
  {
    hide Live, Stay, Leave, Elements;
    var l, l1, live := ListOf(s.ls, w), ListOf(t.ls, w), Live(s);
    assert l[0..a] == l[..a] && l[0..b] == l[..b] && l[..0] == [];
    StaySplit(live, l, a, b);
    LeaveSplit(live, l, a, b);
    ListWith(s.ls, w, Stay(live, false, l[0..a]) + l[a..]);
    ListWith(t.ls, w, l1[..n] + Stay(live, false, l1[n..k]) + l1[k..]);
    assert l[..0] + Stay(live, false, l[0..a]) + l[a..] == Stay(live, false, l[..a]) + l[a..];
    assert l1[..n] == Stay(live, false, l[..a]);
    assert l1[k..] == l1[n..][b - a..] == l[a..][b - a..] == l[b..];
    assert l1[..n] + Stay(live, false, l1[n..k]) + l1[k..] == l[..0] + Stay(live, false, l[0..b]) + l[b..];
  }

  lemma {:induction false} LeaveSplit(s: set<Id>, l: seq<Id>, a: nat, b: nat)
    requires a <= b <= |l|
    ensures Elements(Leave(s, false, l[..b])) == Elements(Leave(s, false, l[..a])) + Elements(Leave(s, false, l[a..b]))
  {
    StayLeaveMembers(s, false, l[..a]);
    StayLeaveMembers(s, false, l[..b]);
    StayLeaveMembers(s, false, l[a..b]);
    assert l[..b] == l[..a] + l[a..b];
  }

  lemma PartsAges(s: State, t: State, u: State, w: Which, a: nat, b: nat, n: nat, k: nat)
    requires a <= b <= |ListOf(s.ls, w)| && n <= k <= |ListOf(t.ls, w)|
      && ListOf(t.ls, w)[n..k] == ListOf(s.ls, w)[a..b] && NoneTwice(ListOf(s.ls, w))
    requires GenSwept(s.hp, s.mk, t.hp, t.mk, Live(s), Elements(ListOf(s.ls, w)[0..a]), s.white)
    requires GenSwept(t.hp, t.mk, u.hp, u.mk, Live(s), Elements(ListOf(t.ls, w)[n..k]), s.white)
    ensures GenSwept(s.hp, s.mk, u.hp, u.mk, Live(s), Elements(ListOf(s.ls, w)[..b]), s.white)
  {
    hide GenSwept, Live;
    ElementsSplit(ListOf(s.ls, w), a, b);
    GenSweptTrans(s.hp, s.mk, t.hp, t.mk, u.hp, u.mk, Live(s), Elements(ListOf(s.ls, w)[0..a]),
      Elements(ListOf(s.ls, w)[a..b]), Elements(ListOf(s.ls, w)[..b]), s.white);
  }

  lemma ElementsSplit(l: seq<Id>, a: nat, b: nat)
    requires a <= b <= |l| && NoneTwice(l)
    ensures Elements(l[..b]) == Elements(l[0..a]) + Elements(l[a..b]) && Elements(l[0..a]) !! Elements(l[a..b])
  {
    assert l[..b] == l[0..a] + l[a..b];
    forall x | x in l[0..a] ensures x !in l[a..b] {
      var i :| 0 <= i < a && l[0..a][i] == x;
      assert forall j :: 0 <= j < b - a ==> l[a..b][j] == l[a + j] && l[i] != l[a + j];
    }
  }

  /** The pointers of a list after it was swept up to position `b`. */
  lemma PartsChain(s: State, u: State, w: Which, sur: Pointer, old1: Pointer, rold: Pointer, a: nat, b: nat, d: nat)
    requires Base(s) && Base(u) && ChainAt(s.mk, ListOf(s.ls, w), sur, old1, rold, a, b, d)
      && AllReady(s.mk, ListOf(s.ls, w), s.white)
    requires SweptUpTo(s, u, w, 0, b) && NoneTwice(ListOf(s.ls, w))
    requires GenSwept(s.hp, s.mk, u.hp, u.mk, Live(s), Elements(ListOf(s.ls, w)[..b]), s.white)
    ensures var l2, n := ListOf(u.ls, w), |Stay(Live(s), false, ListOf(s.ls, w)[0..a])|;
      Chain(u.mk, l2, HeadOf(l2), if n < |l2| then To(l2[n]) else Null, old1)
  {
    hide Base, Live, GenSwept, SweptUpTo, Stay, ListOf, AllReady;
    var l, l2, live := ListOf(s.ls, w), ListOf(u.ls, w), Live(s);
    assert l[0..a] == l[..a] && l[0..b] == l[..b];
    SweptList(s, u, w, b);
    StaySplit(live, l, a, b);
    StayLeaveMembers(live, false, l[..b]);
    StayLeaveMembers(live, false, l[a..b]);
    var n, n1 := |Stay(live, false, l[..a])|, |Stay(live, false, l[..b])|;
    forall j | 0 <= j < |l2| ensures l2[j] in u.mk && PartAge(u.mk[l2[j]].age, j >= n, j >= n1) {
      ListFacts(u, w, j);
      FinPlace(live, l, l2, a, b, j);
      var i: nat :| i < |l| && l[i] == l2[j] && (j >= n ==> i >= a) && (j >= n1 ==> i >= b);
      PartAges(s, u, l, a, b, d, i, j >= n, j >= n1, sur, old1, rold);
    }
    PointsAfter(old1, l, b, Stay(live, false, l[..b]), l2);
    assert ChainAt(u.mk, l2, HeadOf(l2), if n < |l2| then To(l2[n]) else Null, old1, 0, n, n1);
  }

  predicate PartAge(a: Age, settled: bool, unswept: bool) {
    !a.New? && (settled ==> !Unsettled(a)) && (unswept ==> !a.Old1?)
  }

  lemma PointsAfter(p: Pointer, l: seq<Id>, b: nat, front: seq<Id>, l2: seq<Id>)
    requires PointsAt(p, l, b) && l2 == front + l[b..]
    ensures PointsAt(p, l2, |front|)
  {
  }

  lemma SweptList(s: State, u: State, w: Which, b: nat)
    requires SweptUpTo(s, u, w, 0, b)
    ensures b <= |ListOf(s.ls, w)|
      && ListOf(u.ls, w) == Stay(Live(s), false, ListOf(s.ls, w)[..b]) + ListOf(s.ls, w)[b..]
  {
    hide Live, Stay, Leave, Elements;
    var l := ListOf(s.ls, w);
    ListWith(s.ls, w, l[..0] + Stay(Live(s), false, l[0..b]) + l[b..]);
    assert l[0..b] == l[..b];
    assert l[..0] + Stay(Live(s), false, l[0..b]) + l[b..] == Stay(Live(s), false, l[..b]) + l[b..];
  }

  lemma PartAges(s: State, u: State, l: seq<Id>, a: nat, b: nat, d: nat, i: nat, settled: bool, unswept: bool,
          sur: Pointer, old1: Pointer, rold: Pointer)
    requires ChainAt(s.mk, l, sur, old1, rold, a, b, d) && AllReady(s.mk, l, s.white) && NoneTwice(l) && i < |l|
      && l[i] in u.mk
    requires GenSwept(s.hp, s.mk, u.hp, u.mk, Live(s), Elements(l[..b]), s.white)
    requires (settled ==> i >= a) && (unswept ==> i >= b)
    ensures PartAge(u.mk[l[i]].age, settled, unswept)
  {
    hide Live;
    assert GenSweptAt(s.hp, s.mk, u.hp, u.mk, Live(s), Elements(l[..b]), s.white, l[i]);
    if i < b { assert l[..b][i] == l[i]; } else { assert forall j :: 0 <= j < b ==> l[..b][j] == l[j] != l[i]; }
  }

  /** The first old1 object of the swept parts is the first one of the list. */
  lemma PartsFirst(s: State, t: State, u: State, w: Which, a: nat, b: nat, n: nat, n2: nat, k: nat, first1: Pointer,
          now: Pointer)
    requires Base(s) && Base(t) && Base(u) && AllReady(s.mk, ListOf(s.ls, w), s.white)
      && NoneTwice(ListOf(s.ls, w)) && t.white == s.white
    requires SweptUpTo(s, t, w, 0, a) && n == |Stay(Live(s), false, ListOf(s.ls, w)[0..a])|
      && SweptUpTo(t, u, w, n, k) && Live(t) == Live(s)
    requires a <= b <= |ListOf(s.ls, w)| && SweptUpTo(s, u, w, 0, b)
      && n2 == n + |Stay(Live(s), false, ListOf(t.ls, w)[n..k])|
    requires ListOf(t.ls, w)[n..k] == ListOf(s.ls, w)[a..b] && n <= k <= |ListOf(t.ls, w)|
    requires GenSwept(t.hp, t.mk, u.hp, u.mk, Live(s), Elements(ListOf(t.ls, w)[n..k]), s.white)
    requires GenSwept(s.hp, s.mk, u.hp, u.mk, Live(s), Elements(ListOf(s.ls, w)[..b]), s.white)
    requires FirstMet(t.mk, ListOf(t.ls, w), 0, n, Null, first1) && FirstMet(u.mk, ListOf(u.ls, w), n, n2, first1, now)
    ensures First(u.mk, ListOf(u.ls, w), now)
  {
    hide Base, Live, GenSwept, SweptUpTo, Stay, ListOf, AllReady, FirstMet;
    var l, l1, l2 := ListOf(s.ls, w), ListOf(t.ls, w), ListOf(u.ls, w);
    BaseFacts(t);
    ListNoneTwice(t, w);
    SweptFront(t, u, w, n, k);
    SweptList(s, u, w, b);
    StaySplit(Live(s), l, a, b);
    assert l[0..a] == l[..a];
    assert n2 == |Stay(Live(s), false, l[..b])|;
    FrontSame(t, u, w, n, k, first1);
    TailNoOld1(s, u, w, b, n2);
    FirstWhole(u.mk, l2, n, n2, first1, now);
  }

  /** The part of the list before the walk is as it was. */
  lemma SweptFront(s: State, t: State, w: Which, i: nat, k: nat)
    requires SweptUpTo(s, t, w, i, k)
    ensures i <= |ListOf(t.ls, w)| && i <= |ListOf(s.ls, w)| && ListOf(t.ls, w)[..i] == ListOf(s.ls, w)[..i]
  {
    hide Live, Stay, Leave, Elements;
    var l := ListOf(s.ls, w);
    ListWith(s.ls, w, l[..i] + Stay(Live(s), false, l[i..k]) + l[k..]);
  }

  lemma FrontSame(t: State, u: State, w: Which, n: nat, k: nat, first1: Pointer)
    requires Base(u) && n <= k <= |ListOf(t.ls, w)| && n <= |ListOf(u.ls, w)| && NoneTwice(ListOf(t.ls, w))
    requires ListOf(u.ls, w)[..n] == ListOf(t.ls, w)[..n]
    requires GenSwept(t.hp, t.mk, u.hp, u.mk, Live(t), Elements(ListOf(t.ls, w)[n..k]), t.white)
    requires FirstMet(t.mk, ListOf(t.ls, w), 0, n, Null, first1)
    ensures FirstMet(u.mk, ListOf(u.ls, w), 0, n, Null, first1)
  {
    hide Base, Live, GenSwept;
    var l1, l2 := ListOf(t.ls, w), ListOf(u.ls, w);
    forall j | 0 <= j < n
      ensures l2[j] == l1[j] && l2[j] in u.mk && l2[j] in t.mk && u.mk[l2[j]].age == t.mk[l2[j]].age
    {
      ListFacts(u, w, j);
      assert l2[j] == l2[..n][j] == l1[..n][j];
      UnsweptAge(t, u, l1, n, k, j);
    }
    if first1 != Null {
      var m: nat :| MetAt(t.mk, l1, 0, n, first1, m);
      assert MetAt(u.mk, l2, 0, n, first1, m);
    }
  }

  lemma UnsweptAge(t: State, u: State, l: seq<Id>, n: nat, k: nat, j: nat)
    requires j < n <= k <= |l| && NoneTwice(l) && l[j] in u.mk
    requires GenSwept(t.hp, t.mk, u.hp, u.mk, Live(t), Elements(l[n..k]), t.white)
    ensures l[j] in t.mk && u.mk[l[j]].age == t.mk[l[j]].age
  {
    hide Live;
    assert forall i :: 0 <= i < k - n ==> l[n..k][i] == l[n + i] != l[j];
    assert GenSweptAt(t.hp, t.mk, u.hp, u.mk, Live(t), Elements(l[n..k]), t.white, l[j]);
  }

  lemma TailNoOld1(s: State, u: State, w: Which, b: nat, n2: nat)
    requires Base(u) && AllReady(s.mk, ListOf(s.ls, w), s.white) && NoneTwice(ListOf(s.ls, w))
      && SweptUpTo(s, u, w, 0, b)
    requires n2 == |Stay(Live(s), false, ListOf(s.ls, w)[..b])|
    requires GenSwept(s.hp, s.mk, u.hp, u.mk, Live(s), Elements(ListOf(s.ls, w)[..b]), s.white)
    ensures n2 <= |ListOf(u.ls, w)| && NoOld1(u.mk, ListOf(u.ls, w), n2, |ListOf(u.ls, w)|)
  {
    hide Base, Live, GenSwept, SweptUpTo, Stay, ListOf;
    var l, l2 := ListOf(s.ls, w), ListOf(u.ls, w);
    SweptList(s, u, w, b);
    forall j | n2 <= j < |l2| ensures l2[j] in u.mk && !u.mk[l2[j]].age.Old1? {
      ListFacts(u, w, j);
      var i := b + j - n2;
      assert l2[j] == l[i];
      assert forall x :: 0 <= x < b ==> l[..b][x] == l[x] != l[i];
      UnsweptOld(s, u, l, b, i);
    }
  }

  lemma UnsweptOld(s: State, u: State, l: seq<Id>, b: nat, i: nat)
    requires b <= i < |l| && l[i] in u.mk && l[i] in s.mk && !s.mk[l[i]].age.Old1? && l[i] !in Elements(l[..b])
    requires GenSwept(s.hp, s.mk, u.hp, u.mk, Live(s), Elements(l[..b]), s.white)
    ensures !u.mk[l[i]].age.Old1?
  {
    hide Live;
    assert GenSweptAt(s.hp, s.mk, u.hp, u.mk, Live(s), Elements(l[..b]), s.white, l[i]);
  }

  lemma FirstWhole(mk: Marks, l: seq<Id>, n: nat, n2: nat, first1: Pointer, now: Pointer)
    requires n <= n2 <= |l| && FirstMet(mk, l, 0, n, Null, first1) && FirstMet(mk, l, n, n2, first1, now)
      && NoOld1(mk, l, n2, |l|)
    ensures First(mk, l, now)
  {
    if now == Null {
      assert FirstAt(mk, l, now, |l|);
    } else if first1 == Null {
      var m: nat :| MetAt(mk, l, n, n2, now, m);
      assert FirstAt(mk, l, now, m);
    } else {
      var m: nat :| MetAt(mk, l, 0, n, now, m);
      assert FirstAt(mk, l, now, m);
    }
  }

  /** A list that is not swept keeps its ages, and its pointers. */
  lemma OtherList(s: State, t: State, w: Which, v: Which, b: nat)
    requires Base(s) && Base(t) && v != w && ListOf(t.ls, v) == ListOf(s.ls, v) && b <= |ListOf(s.ls, w)|
    requires GenSwept(s.hp, s.mk, t.hp, t.mk, Live(s), Elements(ListOf(s.ls, w)[..b]), s.white)
    ensures forall j :: 0 <= j < |ListOf(s.ls, v)| ==> SameAge(s.mk, t.mk, ListOf(s.ls, v)[j])
    ensures AllReady(s.mk, ListOf(s.ls, v), s.white) ==> AllReady(t.mk, ListOf(t.ls, v), s.white)
  {
    hide Base, Live;
    var l := ListOf(s.ls, v);
    forall j | 0 <= j < |l| ensures SameAge(s.mk, t.mk, l[j]) {
      ListFacts(t, v, j);
      ListsApartIn(s, w, v, l[j]);
      OtherAge(s, t, Elements(ListOf(s.ls, w)[..b]), l[j]);
    }
  }

  predicate SameAge(m0: Marks, m1: Marks, o: Id) {
    o in m0 && o in m1 && m1[o].age == m0[o].age
      && (m1[o].color == m0[o].color || (!m0[o].color.White? && m1[o].color.Black?))
  }

  lemma OtherAge(s: State, t: State, swept: set<Id>, o: Id)
    requires GenSwept(s.hp, s.mk, t.hp, t.mk, Live(s), swept, s.white) && o in t.mk && o !in swept
    ensures SameAge(s.mk, t.mk, o)
  {
    hide Live;
    assert GenSweptAt(s.hp, s.mk, t.hp, t.mk, Live(s), swept, s.white, o);
  }

  lemma ListsApartIn(s: State, w: Which, v: Which, o: Id)
    requires Base(s) && w != v && o in ListOf(s.ls, v)
    ensures o !in ListOf(s.ls, w)
  {
    hide UpvalsOk, MetasOk, LiveClosed, TwupsOk, KindsOk, FinOk, Roots, Live, Partition;
    PartitionFacts(s.hp, s.ls);
  }

  lemma ChainSame(m0: Marks, m1: Marks, l: seq<Id>, sur: Pointer, old1: Pointer, rold: Pointer)
    requires Chain(m0, l, sur, old1, rold) && forall j :: 0 <= j < |l| ==> SameAge(m0, m1, l[j])
    ensures Chain(m1, l, sur, old1, rold)
  {
    var a: nat, b: nat, d: nat :| ChainAt(m0, l, sur, old1, rold, a, b, d);
    assert ChainAt(m1, l, sur, old1, rold, a, b, d);
  }

  lemma FirstSame(m0: Marks, m1: Marks, l: seq<Id>, p: Pointer)
    requires First(m0, l, p) && forall j :: 0 <= j < |l| ==> SameAge(m0, m1, l[j])
    ensures First(m1, l, p)
  {
    var f: nat :| FirstAt(m0, l, p, f);
    assert FirstAt(m1, l, p, f);
  }

  /** What the sweep of a young collection does: all that is left is live and one age older. */
  ghost predicate SweptYoung(a: State, w: State) {
    && w == a.(hp := w.hp, mk := w.mk, ls := w.ls, at := SwpAllGc)
    && Base(w) && Live(w) == Live(a) && Roots(w) <= Roots(a) && KeptLive(a.hp, w.hp, Live(a))
    && w.mk.Keys <= Live(a) && GenSwept(a.hp, a.mk, w.hp, w.mk, Live(a), w.mk.Keys, a.white)
  }

  /** Every object is in the part of a list that is swept, or settled. */
  lemma AllAges(a: State, w: State, swept: set<Id>)
    requires GenSwept(a.hp, a.mk, w.hp, w.mk, Live(a), swept, a.white)
    requires forall o :: o in a.mk ==> SweepReady(a.mk[o], a.white)
    requires forall o :: o in w.mk && o in swept ==> o in Live(a)
    requires forall o :: o in w.mk && o !in swept ==> !Unsettled(a.mk[o].age)
    ensures GenSwept(a.hp, a.mk, w.hp, w.mk, Live(a), w.mk.Keys, a.white) && w.mk.Keys <= Live(a)
  {
    forall o | o in w.mk ensures GenSweptAt(a.hp, a.mk, w.hp, w.mk, Live(a), w.mk.Keys, a.white, o) && o in Live(a) {
      assert GenSweptAt(a.hp, a.mk, w.hp, w.mk, Live(a), swept, a.white, o);
    }
  }

  /** One sweep, seen from its list: what it swept and left is live, what it did not sweep is settled. */
  ghost predicate Covered(s: State, t: State, w: Which, b: nat) {
    && b <= |ListOf(s.ls, w)| && SweptUpTo(s, t, w, 0, b) && SweepWork(s, t)
    && GenSwept(s.hp, s.mk, t.hp, t.mk, Live(s), Elements(ListOf(s.ls, w)[..b]), s.white)
    && (forall j ::
      b <= j < |ListOf(s.ls, w)| ==> ListOf(s.ls, w)[j] in s.mk && !Unsettled(s.mk[ListOf(s.ls, w)[j]].age))
  }

  lemma CoveredParts(s: State, t: State, w: Which, b: nat)
    requires Covered(s, t, w, b) && Base(s)
    ensures Base(t) && Live(t) == Live(s) && t == s.(hp := t.hp, mk := t.mk, ls := t.ls)
      && KeptLive(s.hp, t.hp, Live(s)) && UpvalsOk(s.hp)
    ensures Roots(t) <= Roots(s) && t.hp.Keys <= s.hp.Keys && t.hp.Keys == t.mk.Keys && t.white == s.white
    ensures forall v :: v != w ==> ListOf(t.ls, v) == ListOf(s.ls, v)
    ensures forall o :: o in ListOf(s.ls, w)[..b] && o in t.mk ==> o in Live(s)
    ensures forall o ::
      o in ListOf(s.ls, w) && o !in Elements(ListOf(s.ls, w)[..b]) ==> o in s.mk && !Unsettled(s.mk[o].age)
  {
    hide Base, Live, UpvalsOk, GenSwept, KeptLive, MarksSwept, Roots, SweptUpTo;
    BaseFacts(s);
    WorkFacts(s, t);
    BaseFacts(t);
    SweptRoots(s, t, t, w, 0, b);
    CoveredLive(s, t, w, b);
    var l := ListOf(s.ls, w);
    assert l == l[..b] + l[b..];
  }

  lemma CoveredLive(s: State, t: State, w: Which, b: nat)
    requires SweptUpTo(s, t, w, 0, b) && t.hp.Keys == t.mk.Keys && b <= |ListOf(s.ls, w)|
    ensures forall o :: o in ListOf(s.ls, w)[..b] && o in t.mk ==> o in Live(s)
    ensures t.hp.Keys <= s.hp.Keys && forall v :: v != w ==> ListOf(t.ls, v) == ListOf(s.ls, v)
  {
    hide Live, Stay, Leave;
    var l := ListOf(s.ls, w);
    assert l[0..b] == l[..b];
    StayLeaveMembers(Live(s), false, l[..b]);
  }

  /** The three sweeps together. */
  lemma SweepTotal(a: State, s2: State, s3: State, w: State, b0: nat, b1: nat)
    requires Base(a) && a.at.SwpAllGc? && forall o :: o in a.mk ==> SweepReady(a.mk[o], a.white)
    requires Covered(a, s2, AllGc, b0) && Covered(s2, s3, FinObj, b1) && Covered(s3, w, ToBeFnz, |s3.ls.tobefnz|)
    ensures SweptYoung(a, w)
  {
    hide Base, Live, GenSwept, KeptLive, Covered, Elements, UpvalsOk, Roots;
    CoveredParts(a, s2, AllGc, b0);
    CoveredParts(s2, s3, FinObj, b1);
    CoveredParts(s3, w, ToBeFnz, |s3.ls.tobefnz|);
    KeptLiveTrans(a.hp, s2.hp, s3.hp, Live(a));
    KeptLiveTrans(a.hp, s3.hp, w.hp, Live(a));
    ListShown(a.ls);
    ListShown(s2.ls);
    ListShown(s3.ls);
    var all := TotalSwept(a, s2, s3, w, b0, b1);
    AllAges(a, w, all);
  }

  lemma TotalSwept(a: State, s2: State, s3: State, w: State, b0: nat, b1: nat) returns (all: set<Id>)
    requires Base(a) && Base(s2) && Base(s3)
    requires Covered(a, s2, AllGc, b0) && Covered(s2, s3, FinObj, b1) && Covered(s3, w, ToBeFnz, |s3.ls.tobefnz|)
    requires s2.white == a.white == s3.white && Live(s2) == Live(a) == Live(s3)
    ensures GenSwept(a.hp, a.mk, w.hp, w.mk, Live(a), all, a.white)
    ensures forall o :: o in w.mk && o in all ==> o in Live(a)
    ensures forall o :: o in w.mk && o !in all ==> o in a.mk && !Unsettled(a.mk[o].age)
  {
    hide Base, Live, GenSwept, KeptLive, Covered, UpvalsOk, Roots, ListOf;
    CoveredParts(a, s2, AllGc, b0);
    CoveredParts(s2, s3, FinObj, b1);
    CoveredParts(s3, w, ToBeFnz, |s3.ls.tobefnz|);
    CoveredSwept(a, s2, AllGc, b0);
    CoveredSwept(s2, s3, FinObj, b1);
    CoveredSwept(s3, w, ToBeFnz, |s3.ls.tobefnz|);
    ListShown(a.ls);
    ListShown(s2.ls);
    ListShown(s3.ls);
    assert s3.ls.tobefnz[..|s3.ls.tobefnz|] == s3.ls.tobefnz == a.ls.tobefnz;
    var e0, e1, e2 := Elements(a.ls.allgc[..b0]), Elements(a.ls.finobj[..b1]), Elements(a.ls.tobefnz);
    SweptApart(a, b0, b1);
    GenSweptTrans(a.hp, a.mk, s2.hp, s2.mk, s3.hp, s3.mk, Live(a), e0, e1, e0 + e1, a.white);
    GenSweptTrans(a.hp, a.mk, s3.hp, s3.mk, w.hp, w.mk, Live(a), e0 + e1, e2, e0 + e1 + e2, a.white);
    all := e0 + e1 + e2;
    forall o | o in w.mk && o !in all ensures o in a.mk && !Unsettled(a.mk[o].age) {
      PlaceOf(a, o);
      if o in a.ls.finobj {
        BackAge(a, s2, e0, o);
      }
    }
  }

  lemma CoveredSwept(s: State, t: State, w: Which, b: nat)
    requires Covered(s, t, w, b)
    ensures b <= |ListOf(s.ls, w)|
    ensures GenSwept(s.hp, s.mk, t.hp, t.mk, Live(s), Elements(ListOf(s.ls, w)[..b]), s.white)
  {
  }

  lemma SweptApart(a: State, b0: nat, b1: nat)
    requires Base(a) && b0 <= |a.ls.allgc| && b1 <= |a.ls.finobj|
    ensures Elements(a.ls.allgc[..b0]) !! Elements(a.ls.finobj[..b1])
    ensures Elements(a.ls.allgc[..b0]) + Elements(a.ls.finobj[..b1]) !! Elements(a.ls.tobefnz)
    ensures forall o :: o in a.ls.finobj ==> o !in Elements(a.ls.allgc[..b0])
  {
    hide UpvalsOk, MetasOk, LiveClosed, TwupsOk, KindsOk, FinOk, Roots, Live, Partition;
    PartitionFacts(a.hp, a.ls);
    assert forall o :: o in a.ls.allgc[..b0] ==> o in a.ls.allgc;
    assert forall o :: o in a.ls.finobj[..b1] ==> o in a.ls.finobj;
  }

  lemma PlaceOf(a: State, o: Id)
    requires Base(a)
    ensures o in a.hp ==> o in a.mk && (o in a.ls.allgc || o in a.ls.finobj || o in a.ls.tobefnz || o in a.ls.fixedgc)
    ensures o in a.ls.fixedgc ==> o in a.mk && a.mk[o].age.Old?
  {
    hide UpvalsOk, MetasOk, LiveClosed, TwupsOk, FinOk, Roots, Live, Partition;
    PartitionFacts(a.hp, a.ls);
  }

  lemma BackAge(s: State, t: State, swept: set<Id>, o: Id)
    requires GenSwept(s.hp, s.mk, t.hp, t.mk, Live(s), swept, s.white) && o in t.mk && o !in swept
    ensures o in s.mk && s.mk[o].age == t.mk[o].age
  {
    hide Live;
    assert GenSweptAt(s.hp, s.mk, t.hp, t.mk, Live(s), swept, s.white, o);
  }

  /** The sweeping half of a young collection: both parts of `allgc` and of `finobj`, all of
      `tobefnz`, and the pointers advance. */
  method SweepYoung(g: GlobalState)
    requires Base(Snap(g)) && g.gckind.GenMinor? && g.gcstate.SwpAllGc? && g.ptr.firstold1 == Null
    requires forall o :: o in g.mk ==> SweepReady(g.mk[o], g.currentwhite)
    requires Chain(g.mk, g.ls.allgc, g.ptr.survival, g.ptr.old1, g.ptr.reallyold)
    requires Chain(g.mk, g.ls.finobj, g.ptr.finobjsur, g.ptr.finobjold1, g.ptr.finobjrold)
    modifies g`hp, g`mk, g`gray, g`ls, g`ptr
    ensures SweptYoung(old(Snap(g)), Snap(g)) && Chains(g.mk, g.ls, g.ptr)
  {
    hide Base, Live, GenSwept, KeptLive, Covered, UpvalsOk, Roots, SweepWork, SweptUpTo, Chain, First, AllReady,
      WhitesDead, FirstMet, SweptYoung, SweepReady, Elements, Unsettled;
    ghost var a, p := Snap(g), g.ptr;
    ghost var b0: nat, b1: nat, k: nat;
    AllLists(a);
    var first, mid, dummy;
    first, mid, b0 := SweepParts(g, AllGc, g.ptr.survival, g.ptr.old1, g.ptr.reallyold, g.ptr.firstold1);
    g.ptr := g.ptr.(reallyold := g.ptr.old1, old1 := mid, survival := HeadOf(g.ls.allgc), firstold1 := first);
    ghost var s2 := Snap(g);
    CoveredIs(a, s2, AllGc, b0);
    AfterAllGc(a, s2, b0, p);
    dummy, mid, b1 := SweepParts(g, FinObj, g.ptr.finobjsur, g.ptr.finobjold1, g.ptr.finobjrold, Null);
    g.ptr := g.ptr.(finobjrold := g.ptr.finobjold1, finobjold1 := mid, finobjsur := HeadOf(g.ls.finobj));
    ghost var s3 := Snap(g);
    CoveredIs(s2, s3, FinObj, b1);
    AfterFinObj(s2, s3, b1, g.ptr.survival, g.ptr.old1, g.ptr.reallyold, first);
    var n;
    n, dummy, k := SweepGen(g, ToBeFnz, 0, Null, dummy);
    CoveredIs(s3, Snap(g), ToBeFnz, k);
    AfterToBeFnz(s3, Snap(g), k, g.ptr);
    SweepTotal(a, s2, s3, Snap(g), b0, b1);
  }

  lemma AllLists(s: State)
    requires Base(s) && forall o :: o in s.mk ==> SweepReady(s.mk[o], s.white)
    ensures AllReady(s.mk, s.ls.allgc, s.white) && AllReady(s.mk, s.ls.finobj, s.white)
      && AllReady(s.mk, s.ls.tobefnz, s.white)
    ensures forall v :: AllReady(s.mk, ListOf(s.ls, v), s.white)
    ensures ListOf(s.ls, AllGc) == s.ls.allgc && ListOf(s.ls, FinObj) == s.ls.finobj
      && ListOf(s.ls, ToBeFnz) == s.ls.tobefnz
  {
    hide UpvalsOk, MetasOk, LiveClosed, TwupsOk, KindsOk, FinOk, Roots, Live, Partition;
    PartitionFacts(s.hp, s.ls);
  }

  lemma CoveredIs(s: State, t: State, w: Which, b: nat)
    requires b <= |ListOf(s.ls, w)| && SweptUpTo(s, t, w, 0, b) && SweepWork(s, t)
    requires GenSwept(s.hp, s.mk, t.hp, t.mk, Live(s), Elements(ListOf(s.ls, w)[..b]), s.white)
          || GenSwept(s.hp, s.mk, t.hp, t.mk, Live(s), Elements(ListOf(s.ls, w)[0..b]), s.white)
    requires forall j ::
      b <= j < |ListOf(s.ls, w)| ==> ListOf(s.ls, w)[j] in s.mk && !Unsettled(s.mk[ListOf(s.ls, w)[j]].age)
    ensures Covered(s, t, w, b)
  {
    assert ListOf(s.ls, w)[..b] == ListOf(s.ls, w)[0..b];
  }

  /** What the first sweep leaves for the others. */
  lemma AfterAllGc(a: State, s2: State, b: nat, p: Pointers)
    requires Base(a) && Base(s2) && Covered(a, s2, AllGc, b)
    requires AllReady(a.mk, a.ls.finobj, a.white) && AllReady(a.mk, a.ls.tobefnz, a.white)
    requires Chain(a.mk, a.ls.finobj, p.finobjsur, p.finobjold1, p.finobjrold)
    ensures AllReady(s2.mk, s2.ls.finobj, a.white) && AllReady(s2.mk, s2.ls.tobefnz, a.white)
    ensures Chain(s2.mk, s2.ls.finobj, p.finobjsur, p.finobjold1, p.finobjrold)
    ensures ListOf(s2.ls, FinObj) == s2.ls.finobj && ListOf(s2.ls, ToBeFnz) == s2.ls.tobefnz
      && ListOf(s2.ls, AllGc) == s2.ls.allgc
  {
    hide Base, Live, GenSwept, KeptLive, Covered, UpvalsOk, Roots, AllReady, Chain, SameAge;
    CoveredParts(a, s2, AllGc, b);
    CoveredSwept(a, s2, AllGc, b);
    ListShown(a.ls);
    ListShown(s2.ls);
    OtherList(a, s2, AllGc, FinObj, b);
    OtherList(a, s2, AllGc, ToBeFnz, b);
    ChainSame(a.mk, s2.mk, a.ls.finobj, p.finobjsur, p.finobjold1, p.finobjrold);
  }

  lemma AfterFinObj(s: State, t: State, b: nat, sur: Pointer, old1: Pointer, rold: Pointer, first: Pointer)
    requires Base(s) && Base(t) && Covered(s, t, FinObj, b) && AllReady(s.mk, s.ls.tobefnz, s.white)
    requires Chain(s.mk, s.ls.allgc, sur, old1, rold) && First(s.mk, s.ls.allgc, first)
    ensures WhitesDead(t.mk, t.ls.tobefnz, 0, t.white) && t.ls.allgc == s.ls.allgc
    ensures Chain(t.mk, t.ls.allgc, sur, old1, rold) && First(t.mk, t.ls.allgc, first)
    ensures ListOf(t.ls, FinObj) == t.ls.finobj && ListOf(t.ls, ToBeFnz) == t.ls.tobefnz
      && ListOf(t.ls, AllGc) == t.ls.allgc
  {
    hide Base, Live, GenSwept, KeptLive, Covered, UpvalsOk, Roots, AllReady, Chain, First, SameAge, WhitesDead;
    CoveredParts(s, t, FinObj, b);
    CoveredSwept(s, t, FinObj, b);
    ListShown(s.ls);
    ListShown(t.ls);
    OtherList(s, t, FinObj, AllGc, b);
    OtherList(s, t, FinObj, ToBeFnz, b);
    ReadyDead(t.mk, t.ls.tobefnz, t.white);
    ChainSame(s.mk, t.mk, s.ls.allgc, sur, old1, rold);
    FirstSame(s.mk, t.mk, s.ls.allgc, first);
  }

  lemma AfterToBeFnz(s: State, t: State, b: nat, p: Pointers)
    requires Base(s) && Base(t) && Covered(s, t, ToBeFnz, b) && Chains(s.mk, s.ls, p)
    ensures Chains(t.mk, t.ls, p)
  {
    hide Base, Live, GenSwept, KeptLive, Covered, UpvalsOk, Roots, Chain, First, SameAge;
    CoveredParts(s, t, ToBeFnz, b);
    CoveredSwept(s, t, ToBeFnz, b);
    ListShown(s.ls);
    ListShown(t.ls);
    OtherList(s, t, ToBeFnz, AllGc, b);
    OtherList(s, t, ToBeFnz, FinObj, b);
    ChainSame(s.mk, t.mk, s.ls.allgc, p.survival, p.old1, p.reallyold);
    ChainSame(s.mk, t.mk, s.ls.finobj, p.finobjsur, p.finobjold1, p.finobjrold);
    FirstSame(s.mk, t.mk, s.ls.allgc, p.firstold1);
  }

  /** What correctgraylist makes of the mark of an object in a list. */
  function CorrectMark(ob: Object, m: Mark): Mark {
    if m.color.White? then m
    else if m.age.Touched1? then m.(color := Black, age := Touched2)
    else if ob.Thread? then m
    else m.(color := Black, age := if m.age.Touched2? then Old else m.age)
  }

  predicate Remains(ob: Object, m: Mark) {
    !m.color.White? && (m.age.Touched1? || ob.Thread?)
  }

  ghost predicate Corrected(hp: Heap, m0: Marks, m1: Marks, s: set<Id>) {
    m1.Keys == m0.Keys == hp.Keys
      && forall o :: o in m0 ==> m1[o] == if o in s then CorrectMark(hp[o], m0[o]) else m0[o]
  }

  function Kept(hp: Heap, m0: Marks, l: seq<Id>): seq<Id> {
    if l == [] then []
    else var x := l[|l| - 1];
      Kept(hp, m0, l[..|l| - 1]) + if x in hp && x in m0 && Remains(hp[x], m0[x]) then [x] else []
  }

  lemma {:induction false} KeptIn(hp: Heap, m0: Marks, l: seq<Id>)
    requires NoneTwice(l)
    ensures forall x :: x in Kept(hp, m0, l) <==> x in l && x in hp && x in m0 && Remains(hp[x], m0[x])
    ensures NoneTwice(Kept(hp, m0, l))
  {
    if l != [] {
      var l1, x := l[..|l| - 1], l[|l| - 1];
      assert l == l1 + [x];
      assert forall i :: 0 <= i < |l1| ==> l1[i] == l[i];
      assert x !in l1;
      KeptIn(hp, m0, l1);
    }
  }

  lemma KeptSnoc(hp: Heap, m0: Marks, l: seq<Id>, x: Id)
    ensures Kept(hp, m0, l + [x]) == Kept(hp, m0, l) + if x in hp && x in m0 && Remains(hp[x], m0[x]) then [x] else []
  {
    assert (l + [x])[..|l|] == l;
  }

  /** correctgraylist on the list `l`, which follows `front` in the list of gray objects; `seen`
      are the objects looked at before. */
  method CorrectGrayList(g: GlobalState, front: seq<Id>, l: seq<Id>, ghost m0: Marks, ghost seen: seq<Id>)
    returns (r: seq<Id>)
    requires Corrected(g.hp, m0, g.mk, Elements(seen)) && front == Kept(g.hp, m0, seen)
    requires NoneTwice(seen + l) && forall x :: x in l ==> x in g.mk
    modifies g`mk
    ensures Corrected(g.hp, m0, g.mk, Elements(seen + l)) && r == Kept(g.hp, m0, seen + l)
      && g.mk.Keys == old(g.mk).Keys
  {
    hide Kept, Corrected, NoneTwice, Elements;
    r := front;
    assert seen + l[..0] == seen;
    CorrectedKeys(g.hp, m0, g.mk, seen);
    for n := 0 to |l|
      invariant Corrected(g.hp, m0, g.mk, Elements(seen + l[..n])) && r == Kept(g.hp, m0, seen + l[..n])
      invariant g.mk.Keys == old(g.mk).Keys
    {
      var curr := l[n];
      SeenNext(seen, l, n);
      KeptSnoc(g.hp, m0, seen + l[..n], curr);
      ghost var m1 := g.mk;
      CorrectedAt(g.hp, m0, m1, seen + l[..n], curr);
      assert m1 == m1[curr := m1[curr]];
      if g.mk[curr].color.White? {
      } else if g.mk[curr].age.Touched1? {
        g.mk := g.mk[curr := g.mk[curr].(color := Black, age := Touched2)];
        r := r + [curr];
      } else if g.hp[curr].Thread? {
        r := r + [curr];
      } else {
        g.mk := g.mk[curr := g.mk[curr].(color := Black, age :=
          if g.mk[curr].age.Touched2? then Old else g.mk[curr].age)];
      }
      CorrectedNext(g.hp, m0, m1, seen + l[..n], curr, g.mk);
    }
    assert seen + l[..|l|] == seen + l;
  }

  lemma SeenNext(seen: seq<Id>, l: seq<Id>, n: nat)
    requires n < |l| && NoneTwice(seen + l)
    ensures l[n] !in seen + l[..n] && seen + l[..n + 1] == seen + l[..n] + [l[n]]
  {
    var a := seen + l;
    assert a[|seen| + n] == l[n];
    assert seen + l[..n] == a[..|seen| + n];
    assert forall i :: 0 <= i < |seen| + n ==> a[..|seen| + n][i] == a[i] != a[|seen| + n];
  }

  lemma CorrectedKeys(hp: Heap, m0: Marks, m1: Marks, seen: seq<Id>)
    requires Corrected(hp, m0, m1, Elements(seen))
    ensures m1.Keys == m0.Keys == hp.Keys
  {
  }

  lemma CorrectedAt(hp: Heap, m0: Marks, m1: Marks, seen: seq<Id>, x: Id)
    requires Corrected(hp, m0, m1, Elements(seen)) && x in m1 && x !in seen
    ensures x in m0 && x in hp && m1[x] == m0[x]
  {
  }

  lemma CorrectedNext(hp: Heap, m0: Marks, m1: Marks, seen: seq<Id>, x: Id, m2: Marks)
    requires Corrected(hp, m0, m1, Elements(seen)) && x in m0 && x in m1 && x !in seen
    requires m2 == m1[x := CorrectMark(hp[x], m1[x])]
    ensures Corrected(hp, m0, m2, Elements(seen + [x]))
  {
  }

  /** correctgraylists: all lists are corrected and put together. */
  method CorrectGrayLists(g: GlobalState)
    requires g.hp.Keys == g.mk.Keys && NoneTwice(g.grayagain + g.weak + g.allweak + g.ephemeron)
    requires forall x :: x in g.grayagain + g.weak + g.allweak + g.ephemeron ==> x in g.mk
    modifies g`mk, g`grayagain, g`weak, g`allweak, g`ephemeron
    ensures g.weak == g.allweak == g.ephemeron == []
    ensures var l := old(g.grayagain + g.weak + g.allweak + g.ephemeron);
      Corrected(g.hp, old(g.mk), g.mk, Elements(l)) && g.grayagain == Kept(g.hp, old(g.mk), l)
  {
    hide Kept, Corrected, NoneTwice, CorrectMark;
    ghost var m0, a, b, c, d := g.mk, g.grayagain, g.weak, g.allweak, g.ephemeron;
    CorrectedNone(g.hp, m0);
    assert [] + a == a;
    NoneTwiceFront(a + b + c, d);
    NoneTwiceFront(a + b, c);
    NoneTwiceFront(a, b);
    var r := CorrectGrayList(g, [], g.grayagain, m0, []);
    r := CorrectGrayList(g, r, g.weak, m0, a);
    r := CorrectGrayList(g, r, g.allweak, m0, a + b);
    r := CorrectGrayList(g, r, g.ephemeron, m0, a + b + c);
    g.grayagain := r;
    g.weak, g.allweak, g.ephemeron := [], [], [];
  }

  lemma CorrectedNone(hp: Heap, mk: Marks)
    requires hp.Keys == mk.Keys
    ensures Corrected(hp, mk, mk, Elements([])) && Kept(hp, mk, []) == []
  {
  }

  lemma NoneTwiceFront(a: seq<Id>, b: seq<Id>)
    requires NoneTwice(a + b)
    ensures NoneTwice(a)
  {
    assert forall i :: 0 <= i < |a| ==> (a + b)[i] == a[i];
  }

  /** The age after a young collection: every object that survives is one step older. */
  function Older(a: Age): Age {
    match a
    case New => Survival
    case Survival => Old1
    case Old0 => Old1
    case Old1 => Old
    case Old => Old
    case Touched1 => Touched2
    case Touched2 => Old
  }

  /** All lists of gray objects at the end of the atomic phase. */
  function AllLinks(k: Links): seq<Id> {
    k.grayagain + k.weak + k.allweak + k.eph
  }

  lemma LinksCount(k: Links)
    ensures forall o :: multiset(AllLinks(k))[o] == InLinks(o, k)
    ensures forall o :: o in AllLinks(k) <==> InLinks(o, k) >= 1
  {
    assert multiset(AllLinks(k)) == multiset(k.grayagain) + multiset(k.weak) + multiset(k.allweak) + multiset(k.eph);
    forall o ensures o in AllLinks(k) <==> InLinks(o, k) >= 1 {
      assert o in AllLinks(k) <==> o in multiset(AllLinks(k));
    }
  }

  lemma LinksOnce(hp: Heap, mk: Marks, k: Links)
    requires Listed(hp, mk, [], {}, k)
    ensures NoneTwice(AllLinks(k))
    ensures forall o :: o in AllLinks(k) ==> o in mk && o in hp && mk[o].color.Gray? && NeedsVisit(hp[o])
  {
    LinksCount(k);
    NoneTwiceCount(AllLinks(k));
    forall o
      ensures multiset(AllLinks(k))[o] <= 1
        && (o in AllLinks(k) ==> o in mk && o in hp && mk[o].color.Gray? && NeedsVisit(hp[o]))
    {
      assert ListedAt(hp, mk, [], {}, k, o);
    }
  }

  /** The marks of one survivor, at the start, after marking, after sweeping and at the end. */
  datatype Life = Life(ms: Mark, ma: Mark, mw: Mark, mt: Mark)

  /** What happened to the mark of an object: `ob` was its contents after marking, `ob1` at the
      end, and `listed` says that it was in a list. */
  ghost predicate Lived(ob: Object, ob1: Object, m: Life, listed: bool, white: bool) {
    && AgeColor(m.ms, !white) && YoungMark(m.ms, m.ma, white) && !m.ma.color.White?
    && FinishedColor(ob, m.ma) && (MustWait(ob, m.ma) ==> listed) && (listed ==> NeedsVisit(ob) && m.ma.color.Gray?)
    && m.mw.age == NextAge(m.ma.age) && m.mw.fin == m.ma.fin
    && (if m.ma.age.New? then m.mw.color == White(white)
        else m.mw.color == m.ma.color || (ob.OpenUpval? && ob1.ClosedUpval? && m.mw.color.Black?))
    && (ob1 == ob || (ob.OpenUpval? && ob1.ClosedUpval? && !m.mw.color.Gray?))
    && m.mt == (if listed then CorrectMark(ob1, m.mw) else m.mw)
  }

  lemma OneStepOlder(ob: Object, ob1: Object, m: Life, listed: bool, white: bool, o: Id, kept: seq<Id>)
    requires Lived(ob, ob1, m, listed, white) && (o in kept <==> listed && Remains(ob1, m.mw))
    ensures m.mt.age == Older(m.ms.age) && m.mt.fin == m.ms.fin
    ensures AgeColor(m.mt, white) && Held(ob1, m.mt, o, [], kept)
    ensures o in kept ==> NeedsVisit(ob1) && (m.mt.color.Gray? || (m.mt.color.Black? && m.mt.age.Touched2?))
    ensures !m.ms.color.White? ==> !m.mt.color.White?
    ensures (m.mt.color == White(!white)) == (m.mw.color == White(!white))
  {
  }

  /** The states of a young collection: at its start, marked, swept, and at its end. */
  ghost predicate Stages(s: State, p: Pointers, a: State, p1: Pointers, w: State, t: State, p2: Pointers,
          strong: set<Id>) {
    && GenInv(s, p) && YoungMarked(s, a, p1, strong) && SweptYoung(a.(at := SwpAllGc), w) && Chains(w.mk, w.ls, p2)
    && Corrected(w.hp, w.mk, t.mk, Elements(AllLinks(a.links)))
    && t == w.(mk := t.mk, links := Links(Kept(w.hp, w.mk, AllLinks(a.links)), [], [], []), at := Propagate)
  }

  function LifeOf(s: State, a: State, w: State, t: State, o: Id): Life
    requires o in s.mk && o in a.mk && o in w.mk && o in t.mk
  {
    Life(s.mk[o], a.mk[o], w.mk[o], t.mk[o])
  }

  /** The life of a survivor. */
  lemma SurvivorLife(s: State, p: Pointers, a: State, p1: Pointers, w: State, t: State, p2: Pointers, strong: set<Id>,
          o: Id)
    requires Stages(s, p, a, p1, w, t, p2, strong) && o in t.mk
    ensures o in s.mk && o in a.mk && o in w.mk && o in a.hp && o in t.hp && o in s.hp
    ensures Lived(a.hp[o], t.hp[o], LifeOf(s, a, w, t, o), o in AllLinks(a.links), t.white)
    ensures o in t.links.grayagain <==> o in AllLinks(a.links) && Remains(t.hp[o], w.mk[o])
    ensures a.hp[o].OpenUpval? && t.hp[o].ClosedUpval? ==> a.hp[o].th !in Live(a)
  {
    hide Base, Queued, Ranks, Chains, Chain, StrongSet, Edges, Roots, KeptLive, Held, CorrectMark, FinishedColor,
      YoungMark;
    var k := AllLinks(a.links);
    LinksOnce(a.hp, a.mk, a.links);
    LinksCount(a.links);
    KeptIn(w.hp, w.mk, k);
    assert GenSweptAt(a.hp, a.mk, w.hp, w.mk, Live(a), w.mk.Keys, a.white, o);
    assert o in s.mk && Aged(s.hp, s.mk, s.gray, s.links.grayagain, s.white, o);
    assert ListedAt(a.hp, a.mk, [], {}, a.links, o);
    SurvivorShape(a, w, o);
    BaseKeys(a, w, s);
  }

  lemma BaseKeys(a: State, w: State, s: State)
    requires Base(a) && Base(w) && Base(s)
    ensures a.hp.Keys == a.mk.Keys && w.hp.Keys == w.mk.Keys && s.hp.Keys == s.mk.Keys
  {
  }

  /** A live object keeps its contents, but for an upvalue that was closed. */
  lemma SurvivorShape(a: State, w: State, o: Id)
    requires KeptLive(a.hp, w.hp, Live(a)) && o in Live(a) && o in a.hp
    ensures o in w.hp && (w.hp[o] == a.hp[o]
      || (a.hp[o].OpenUpval? && w.hp[o] == ClosedUpval(SlotValue(a.hp, a.hp[o].th, a.hp[o].slot))))
  {
  }

  /** Every survivor is one step older. */
  ghost predicate AllOlder(s: State, t: State) {
    forall o :: o in t.mk ==> o in s.mk && t.mk[o].age == Older(s.mk[o].age)
  }

  /** An upvalue that is closed by the sweep was young: its thread is dead, so not old. */
  lemma ClosedIsYoung(s: State, p: Pointers, a: State, p1: Pointers, strong: set<Id>, o: Id)
    requires GenInv(s, p) && YoungMarked(s, a, p1, strong) && o in s.mk && o in a.hp && a.hp[o].OpenUpval?
      && a.hp[o].th !in Live(a)
    ensures !s.mk[o].age.IsOld()
  {
    hide Base, Queued, Chains, Chain, StrongSet, Edges, Roots, WeakLoss, Listed;
    SameShapes(s.hp, a.hp);
    GenUpvals(s, p, o);
    var th := s.hp[o].th;
    assert Aged(s.hp, s.mk, s.gray, s.links.grayagain, s.white, th);
    assert YoungMark(s.mk[th], a.mk[th], a.white);
  }

  /** Where the contents of a survivor come from. */
  lemma SurvivorFrom(s: State, p: Pointers, a: State, p1: Pointers, w: State, t: State, p2: Pointers, strong: set<Id>,
          o: Id)
    requires Stages(s, p, a, p1, w, t, p2, strong) && o in t.mk
    ensures o in s.mk && o in s.hp && o in a.hp && o in t.hp && HeapShrunk(s.hp, a.hp)
    ensures Aged(s.hp, s.mk, s.gray, s.links.grayagain, s.white, o)
    ensures t.hp[o] == a.hp[o] || (a.hp[o].OpenUpval? && t.hp[o].ClosedUpval? && !s.mk[o].age.IsOld())
  {
    hide Base, Queued, Ranks, Chains, Chain, StrongSet, Roots, KeptLive, CorrectMark, Listed, WeakLoss, Corrected,
      AgeColor, Live, Edges, Held, GenSwept;
    SurvivorLife(s, p, a, p1, w, t, p2, strong, o);
    if t.hp[o] != a.hp[o] { ClosedIsYoung(s, p, a, p1, strong, o); }
  }

  /** What a survivor that is really old refers to was not new, so it is old now. */
  lemma SurvivorRefs(s: State, p: Pointers, a: State, p1: Pointers, w: State, t: State, p2: Pointers, strong: set<Id>,
          o: Id)
    requires Stages(s, p, a, p1, w, t, p2, strong) && AllOlder(s, t) && Base(t) && o in t.mk && o in Live(t)
    requires t.mk[o].age.Old? && o in t.hp && !t.hp[o].Thread? && !t.hp[o].OpenUpval?
    ensures RefsIn(t.hp, t.hp[o], Olds(t.mk))
  {
    hide Stages, Base, HeapShrunk, RefsIn, RefSet, Aged, Live;
    SurvivorFrom(s, p, a, p1, w, t, p2, strong, o);
    assert t.mk[o].age == Older(s.mk[o].age);
    SameShapes(s.hp, a.hp);
    BaseRefs(t, o);
    if t.hp[o].Str? {
      StrRefs(t.hp, t.hp[o]);
    } else {
      SettledBlack(s, o);
      RefsInMonotone(s.hp, s.hp[o], if s.mk[o].age.Old1?
        || s.mk[o].age.Touched2? then NotNew(s.mk) else Olds(s.mk), NotNew(s.mk));
      ShrunkRefs(s.hp, a.hp, o, NotNew(s.mk));
      RefsInSame(a.hp, t.hp, t.hp[o], NotNew(s.mk));
      OldFromNotNew(s, t, o);
    }
  }

  lemma BaseRefs(t: State, o: Id)
    requires Base(t) && o in t.hp
    ensures t.hp.Keys == t.mk.Keys && (o in Live(t) ==> RefsIn(t.hp, t.hp[o], t.hp.Keys))
  {
    LiveSubset(t);
    if o in Live(t) { RefsInMonotone(t.hp, t.hp[o], Live(t), t.hp.Keys); }
  }

  /** An object that becomes or stays really old is black at the start, if it is no thread,
      open upvalue or string. */
  lemma SettledBlack(s: State, o: Id)
    requires o in s.hp && o in s.mk && Aged(s.hp, s.mk, s.gray, s.links.grayagain, s.white, o)
    requires Older(s.mk[o].age).Old? && !s.hp[o].Thread? && !s.hp[o].OpenUpval? && !s.hp[o].Str?
    ensures RefsIn(s.hp, s.hp[o], if s.mk[o].age.Old1? || s.mk[o].age.Touched2? then NotNew(s.mk) else Olds(s.mk))
    ensures Olds(s.mk) <= NotNew(s.mk)
  {
    hide RefsIn;
  }

  lemma OldFromNotNew(s: State, t: State, o: Id)
    requires AllOlder(s, t) && o in t.hp && !t.hp[o].OpenUpval? && t.hp.Keys == t.mk.Keys
    requires RefsIn(t.hp, t.hp[o], NotNew(s.mk)) && RefsIn(t.hp, t.hp[o], t.hp.Keys)
    ensures RefsIn(t.hp, t.hp[o], Olds(t.mk))
  {
    hide RefSet, RefsIn;
    RefSetIn(t.hp, t.hp[o], NotNew(s.mk));
    RefSetIn(t.hp, t.hp[o], t.hp.Keys);
    RefSetIn(t.hp, t.hp[o], Olds(t.mk));
    forall x | x in NotNew(s.mk) && x in t.mk ensures x in Olds(t.mk) {
      assert t.mk[x].age == Older(s.mk[x].age);
    }
  }

  /** What the end of a young collection says of one object. */
  lemma SurvivorAged(s: State, p: Pointers, a: State, p1: Pointers, w: State, t: State, p2: Pointers, strong: set<Id>,
          o: Id)
    requires Stages(s, p, a, p1, w, t, p2, strong) && o in t.mk
    ensures o in s.mk && o in w.mk && o in t.hp && t.mk[o].age == Older(s.mk[o].age) && t.mk[o].fin == w.mk[o].fin
    ensures AgeColor(t.mk[o], t.white) && Held(t.hp[o], t.mk[o], o, [], t.links.grayagain)
    ensures o in t.links.grayagain ==>
      NeedsVisit(t.hp[o]) && (t.mk[o].color.Gray? || (t.mk[o].color.Black? && t.mk[o].age.Touched2?))
    ensures (t.mk[o].color == White(!t.white)) == (w.mk[o].color == White(!t.white))
    ensures !s.mk[o].color.White? ==> !t.mk[o].color.White?
    ensures t.hp[o].Str? ==> t.mk[o] == w.mk[o]
  {
    hide Base, Queued, Ranks, Chains, Chain, StrongSet, Roots, KeptLive, CorrectMark, Listed, WeakLoss, Corrected,
      AgeColor, Live, Edges, Held, GenSwept, Lived;
    SurvivorLife(s, p, a, p1, w, t, p2, strong, o);
    var m := LifeOf(s, a, w, t, o);
    OneStepOlder(a.hp[o], t.hp[o], m, o in AllLinks(a.links), t.white, o, t.links.grayagain);
    StringLife(a.hp[o], t.hp[o], m, o in AllLinks(a.links), t.white);
  }

  lemma StringLife(ob: Object, ob1: Object, m: Life, listed: bool, white: bool)
    requires Lived(ob, ob1, m, listed, white)
    ensures ob1.Str? ==> m.mt == m.mw
    ensures m.mt.fin == m.mw.fin
  {
  }

  /** The correction of the lists is no concern of the base invariant. */
  lemma YoungBase(s: State, p: Pointers, a: State, p1: Pointers, w: State, t: State, p2: Pointers, strong: set<Id>)
    requires Stages(s, p, a, p1, w, t, p2, strong)
    ensures Base(t) && Live(t) == Live(w) && Live(w) == Live(a) && t.mk.Keys <= Live(t)
      && t.mk.Keys == t.hp.Keys == w.mk.Keys
    ensures AllOlder(s, t)
  {
    hide Base, GenInv, YoungMarked, Chains, Roots, KeptLive, GenSwept, Live, Kept, AllLinks, CorrectMark;
    forall o | o in t.mk
      ensures o in w.mk && (t.mk[o].color == White(!w.white) <==> w.mk[o].color == White(!w.white))
        && t.mk[o].fin == w.mk[o].fin
      ensures o in s.mk && t.mk[o].age == Older(s.mk[o].age) && (t.hp[o].Str? ==> t.mk[o] == w.mk[o])
    {
      SurvivorAged(s, p, a, p1, w, t, p2, strong, o);
    }
    FixedOld(w);
    BaseRecolor(w, t.mk);
    BaseAside(w.(mk := t.mk), t);
    LiveAside(a, a.(at := SwpAllGc));
    BaseFacts(t);
  }

  lemma LiveAside(s: State, t: State)
    requires t == s.(at := t.at)
    ensures Live(t) == Live(s)
  {
  }

  /** A young collection keeps the generational invariant. */
  lemma YoungInv(s: State, p: Pointers, a: State, p1: Pointers, w: State, t: State, p2: Pointers, strong: set<Id>)
    requires Stages(s, p, a, p1, w, t, p2, strong)
    ensures GenInv(t, p2) && AllOlder(s, t) && Live(t) == Live(a) && t.mk.Keys <= Live(a)
  {
    hide Base, Chains, Chain, First, Roots, KeptLive, GenSwept, Live, Kept, AllLinks, CorrectMark, Ranks, Queued,
      AllAged, Edges, Held, AgeColor, RefsIn, YoungMarked, Corrected;
    YoungBase(s, p, a, p1, w, t, p2, strong);
    hide AllOlder;
    forall o | o in t.mk ensures o in t.hp && Aged(t.hp, t.mk, [], t.links.grayagain, t.white, o) {
      SurvivorAged(s, p, a, p1, w, t, p2, strong, o);
      SurvivorEdges(s, p, a, p1, w, t, p2, strong, o);
    }
    AgedAll(t);
    YoungQueued(s, p, a, p1, w, t, p2, strong);
    YoungRanks(s, p, a, p1, w, t, p2, strong);
    YoungEnd(s, p, a, p1, w, t, p2, strong);
  }

  lemma AgedAll(t: State)
    requires t.mk.Keys == t.hp.Keys
      && forall o :: o in t.mk ==> o in t.hp && Aged(t.hp, t.mk, [], t.links.grayagain, t.white, o)
    ensures AllAged(t.hp, t.mk, [], t.links.grayagain, t.white)
  {
  }

  lemma SurvivorEdges(s: State, p: Pointers, a: State, p1: Pointers, w: State, t: State, p2: Pointers, strong: set<Id>,
          o: Id)
    requires Stages(s, p, a, p1, w, t, p2, strong) && AllOlder(s, t) && Base(t) && o in t.mk && o in t.hp
      && o in Live(t)
    requires AgeColor(t.mk[o], t.white) && Held(t.hp[o], t.mk[o], o, [], t.links.grayagain) && o in s.mk
      && t.mk[o].age == Older(s.mk[o].age)
    ensures Edges(t.hp, t.mk, o)
  {
    hide Stages, Base, RefsIn, Live;
    if t.mk[o].color.Black? && !t.hp[o].Thread? && !t.hp[o].OpenUpval? {
      if t.mk[o].age.Old? {
        SurvivorRefs(s, p, a, p1, w, t, p2, strong, o);
      } else {
        BaseRefs(t, o);
        assert NotNew(t.mk) == t.hp.Keys;
      }
    }
  }

  lemma YoungQueued(s: State, p: Pointers, a: State, p1: Pointers, w: State, t: State, p2: Pointers, strong: set<Id>)
    requires Stages(s, p, a, p1, w, t, p2, strong)
    ensures t.gray == [] && Queued(t.hp, t.mk, [], t.links.grayagain)
  {
    hide GenInv, Base, Chains, Chain, Roots, KeptLive, GenSwept, Live, CorrectMark, StrongSet, WeakLoss;
    var k := AllLinks(a.links);
    LinksOnce(a.hp, a.mk, a.links);
    KeptIn(w.hp, w.mk, k);
    NoneTwiceCount(t.links.grayagain);
    assert Once([], t.links.grayagain);
    BaseFacts(w);
    forall o | o in t.links.grayagain
      ensures o in t.mk && o in t.hp && NeedsVisit(t.hp[o])
        && (t.mk[o].color.Gray? || (t.mk[o].color.Black? && t.mk[o].age.Touched2?))
    {
      assert o in t.mk;
      SurvivorAged(s, p, a, p1, w, t, p2, strong, o);
    }
  }

  lemma YoungRanks(s: State, p: Pointers, a: State, p1: Pointers, w: State, t: State, p2: Pointers, strong: set<Id>)
    requires Stages(s, p, a, p1, w, t, p2, strong)
    ensures Ranks(t.hp, t.mk)
  {
    hide Base, Chains, Chain, Roots, KeptLive, GenSwept, Live, CorrectMark, Kept, AllLinks, YoungMarked, Queued,
      AllAged, Edges, Held;
    forall u | u in t.hp && u in t.mk && t.hp[u].OpenUpval? && t.hp[u].th in t.mk
      ensures Rank(t.mk[u].age) <= Rank(t.mk[t.hp[u].th].age)
    {
      SurvivorAged(s, p, a, p1, w, t, p2, strong, u);
      SurvivorAged(s, p, a, p1, w, t, p2, strong, t.hp[u].th);
      SurvivorFrom(s, p, a, p1, w, t, p2, strong, u);
      SameShapes(s.hp, a.hp);
      GenUpvals(s, p, u);
    }
  }

  lemma YoungEnd(s: State, p: Pointers, a: State, p1: Pointers, w: State, t: State, p2: Pointers, strong: set<Id>)
    requires Stages(s, p, a, p1, w, t, p2, strong) && Base(t)
    ensures Chains(t.mk, t.ls, p2) && t.an.main in Marked(t.mk) && t.at.Propagate? && t.sweep.NoSweep?
  {
    hide Stages, Base, Chains;
    StagesChains(s, p, a, p1, w, t, p2, strong);
    MainThere(t);
    SurvivorAged(s, p, a, p1, w, t, p2, strong, t.an.main);
    MainOld(s, p, a, p1, w, t, p2, strong);
  }

  lemma MainOld(s: State, p: Pointers, a: State, p1: Pointers, w: State, t: State, p2: Pointers, strong: set<Id>)
    requires Stages(s, p, a, p1, w, t, p2, strong)
    ensures t.an.main in Marked(s.mk)
  {
    hide Base, Chain, First, Chains, Roots, KeptLive, GenSwept, Live, Kept, AllLinks, Queued, Ranks, AllAged,
      StrongSet, WeakLoss, Listed, Corrected;
  }

  lemma StagesChains(s: State, p: Pointers, a: State, p1: Pointers, w: State, t: State, p2: Pointers, strong: set<Id>)
    requires Stages(s, p, a, p1, w, t, p2, strong)
    ensures Chains(t.mk, t.ls, p2) && t.at.Propagate? && t.sweep.NoSweep?
  {
    hide Base, Chain, First, Chains, Roots, KeptLive, GenSwept, Live, Kept, AllLinks, Queued, AllAged, Ranks, Edges,
      Held, StrongSet, WeakLoss, Listed, Corrected;
    CorrectedChains(w.hp, w.mk, t.mk, Elements(AllLinks(a.links)), w.ls, p2);
  }

  lemma CorrectedChains(hp: Heap, m0: Marks, m1: Marks, seen: set<Id>, ls: Objects, p: Pointers)
    requires Corrected(hp, m0, m1, seen) && Chains(m0, ls, p)
    ensures Chains(m1, ls, p)
  {
    hide Chains;
    ChainsAges(m0, m1, ls, p);
  }

  lemma MainThere(s: State)
    requires Base(s)
    ensures s.an.main in s.mk && s.an.main in s.hp
  {
  }

  /** youngcollection, staying in minor mode. Afterwards the generational invariant holds again,
      every object that is left is one step older, everything strongly reachable is left with its
      contents, and nothing is left outside `c2`, which the old objects, the roots and the
      references do not leave. */
  method YoungCollection(g: GlobalState, ghost c: set<Id>, ghost c2: set<Id>) returns (ghost strong: set<Id>)
    requires GenInv(Snap(g), g.ptr) && g.gckind.GenMinor? && Covers(Snap(g), c) && CoversFin(Snap(g), c, c2)
    modifies g`hp, g`mk, g`gray, g`grayagain, g`weak, g`allweak, g`ephemeron, g`twups
    modifies g`gcstate, g`ls, g`ptr, g`currentwhite
    ensures GenInv(Snap(g), g.ptr) && AllOlder(old(Snap(g)), Snap(g))
    ensures Preserved(old(Snap(g)), Snap(g), strong)
    ensures g.hp.Keys <= c2
  {
    hide GenInv, Base, Live, Covers, CoversFin, YoungMarked, Preserved, Stages, AllOlder, Marked;
    ghost var s, p := Snap(g), g.ptr;
    strong := MarkYoung(g, c, c2);
    ghost var a, p1 := Snap(g), g.ptr;
    ghost var w := FinishYoung(g, s, p, strong);
    YoungInv(s, p, a, p1, w, Snap(g), g.ptr, strong);
    YoungPreserved(s, p, a, p1, w, Snap(g), g.ptr, strong);
    YoungKeys(s, p, a, p1, Snap(g), g.ptr, strong, c2);
  }

  /** The other half: sweeping, and correcting the lists of gray objects. */
  method FinishYoung(g: GlobalState, ghost s: State, ghost p: Pointers, ghost strong: set<Id>) returns (ghost w: State)
    requires GenInv(s, p) && YoungMarked(s, Snap(g), g.ptr, strong) && g.gckind.GenMinor? && g.ptr.firstold1 == Null
    modifies g`hp, g`mk, g`gray, g`grayagain, g`weak, g`allweak, g`ephemeron, g`gcstate, g`ls, g`ptr
    ensures Stages(s, p, old(Snap(g)), old(g.ptr), w, Snap(g), g.ptr, strong)
  {
    hide GenInv, Base, Live, YoungMarked, SweptYoung, Chains, Chain, Corrected, Kept, NoneTwice, Stages, Listed,
      Marked, SweepReady;
    ghost var a := Snap(g);
    MarkedReady(s, p, a, g.ptr, strong);
    g.gcstate := SwpAllGc;
    SnapSweep(g, a);
    SweepYoung(g);
    w := Snap(g);
    SweptLists(a, w);
    CorrectGrayLists(g);
    g.gcstate := Propagate;
    StagesAre(s, p, a, old(g.ptr), w, Snap(g), g.ptr, strong);
  }

  lemma MarkedReady(s: State, p: Pointers, a: State, p1: Pointers, strong: set<Id>)
    requires GenInv(s, p) && YoungMarked(s, a, p1, strong)
    ensures Base(a.(at := SwpAllGc)) && forall o :: o in a.mk ==> SweepReady(a.mk[o], a.white)
    ensures Chain(a.mk, a.ls.allgc, p1.survival, p1.old1, p1.reallyold)
      && Chain(a.mk, a.ls.finobj, p1.finobjsur, p1.finobjold1, p1.finobjrold)
    ensures Listed(a.hp, a.mk, [], {}, a.links) && Base(a) && Live(a) == Marked(a.mk)
  {
    hide Base, Queued, Ranks, Chains, Chain, StrongSet, Roots, WeakLoss, Listed, Edges, Held, HeapShrunk;
    BaseAside(a, a.(at := SwpAllGc));
    forall o | o in a.mk ensures SweepReady(a.mk[o], a.white) {
      assert Aged(s.hp, s.mk, s.gray, s.links.grayagain, s.white, o);
      assert YoungMark(s.mk[o], a.mk[o], a.white);
    }
  }

  /** What the lists hold was marked, so it survived the sweep. */
  lemma SweptLists(a: State, w: State)
    requires SweptYoung(a.(at := SwpAllGc), w) && Listed(a.hp, a.mk, [], {}, a.links) && Base(a)
      && Live(a) == Marked(a.mk)
    ensures w.hp.Keys == w.mk.Keys && NoneTwice(AllLinks(w.links)) && forall o :: o in AllLinks(w.links) ==> o in w.mk
  {
    hide Base, Roots, GenSwept, NoneTwice;
    BaseFacts(w);
    LinksOnce(a.hp, a.mk, a.links);
    LiveSubset(w);
  }

  lemma StagesAre(s: State, p: Pointers, a: State, p1: Pointers, w: State, t: State, p2: Pointers, strong: set<Id>)
    requires GenInv(s, p) && YoungMarked(s, a, p1, strong) && SweptYoung(a.(at := SwpAllGc), w)
      && Chains(w.mk, w.ls, p2)
    requires Corrected(w.hp, w.mk, t.mk, Elements(AllLinks(w.links)))
    requires t == w.(mk := t.mk, links := Links(Kept(w.hp, w.mk, AllLinks(w.links)), [], [], []), at := Propagate)
    ensures Stages(s, p, a, p1, w, t, p2, strong)
  {
    hide GenInv, Base, Live, Chains, Corrected, Kept, Roots, KeptLive, GenSwept;
  }

  lemma YoungPreserved(s: State, p: Pointers, a: State, p1: Pointers, w: State, t: State, p2: Pointers, strong: set<Id>)
    requires Stages(s, p, a, p1, w, t, p2, strong) && GenInv(t, p2) && Live(t) == Live(a)
    ensures Preserved(s, t, strong)
  {
    hide GenInv, Base, Live, Chains, Chain, Corrected, Kept, Roots, KeptLive, GenSwept, StrongSet, WeakLoss, Listed,
      HeapShrunk, Preserved;
    GenFacts(s, p);
    GenBase(s, p);
    GenBase(t, p2);
    BaseFacts(s);
    BaseFacts(a);
    LiveSubset(a);
    ShrunkKeys(s.hp, a.hp);
    RootsSame(w, t);
    RootsSame(a, a.(at := SwpAllGc));
    LiveAside(a, a.(at := SwpAllGc));
    CollectedAtomic(s, a, t, strong);
  }

  lemma YoungKeys(s: State, p: Pointers, a: State, p1: Pointers, t: State, p2: Pointers, strong: set<Id>, c2: set<Id>)
    requires YoungMarked(s, a, p1, strong) && GenInv(t, p2) && t.mk.Keys <= Live(a) && Marked(a.mk) <= c2
    ensures t.hp.Keys <= c2
  {
    hide Base, Roots, Chain, Chains, Queued, Ranks, StrongSet;
  }
}
