/** The collector's state and its marking half: what visiting an object of each kind does, how
    ephemeron tables converge, how weak tables are cleared, and the atomic phase that puts these
    together. */
module LuaGc {
  import opened LuaHeap
  import opened LuaMarks
  import opened LuaLists
  import opened LuaTricolor

  datatype GcState = Propagate | EnterAtomic | Atomic | SwpAllGc | SwpFinObj | SwpToBeFnz | SwpEnd | CallFin | Pause

  /** Heads of the lists threaded through `gclist`. */
  datatype ListHead = GrayHead | GrayAgainHead | WeakHead | AllWeakHead | EphemeronHead

  datatype GcKind = Incremental | GenMinor

  /** Where the sweep of a list continues; NULL once the list is finished. */
  datatype SweepPos = NoSweep | From(i: nat)

  /** A pointer into one of the lists of objects. */
  datatype Pointer = Null | To(id: Id)

  /** The lists every object is linked in, one of them. */
  datatype Objects = Objects(allgc: seq<Id>, finobj: seq<Id>, tobefnz: seq<Id>, fixedgc: seq<Id>)

  /** Roots that are not objects of a list: threads, the registry, basic metatables. */
  datatype Anchors = Anchors(main: Id, running: Id, registry: Value, mt: seq<Value>)

  /** Pointers into the lists of objects, used by the generational mode. */
  datatype Pointers = Pointers(survival: Pointer, old1: Pointer, reallyold: Pointer, firstold1: Pointer,
                               finobjsur: Pointer, finobjold1: Pointer, finobjrold: Pointer)

  ghost predicate HeapReady(hp: Heap, c: set<Id>) {
    Closed(hp) && WellFormed(hp) && Enclosed(hp, c) && c <= hp.Keys
  }

  /** What `o` makes the collector follow directly. */
  lemma FollowIn(hp: Heap, c: set<Id>, o: Id)
    requires HeapReady(hp, c) && o in c
    ensures o in hp
    ensures hp[o].OpenUpval? ==> In(SlotValue(hp, hp[o].th, hp[o].slot), c)
    ensures hp[o].ClosedUpval? ==> In(hp[o].v, c)
    ensures hp[o].Udata? || hp[o].Table? ==>
      In(hp[o].meta, c) && (hp[o].meta.Ref? ==> hp[o].meta.id in hp && hp[hp[o].meta.id].Table?)
  {
  }

  /** The same for one entry of a table. */
  lemma FollowEntry(hp: Heap, c: set<Id>, h: Id, i: nat)
    requires HeapReady(hp, c) && h in c && h in hp && hp[h].Table? && i < |hp[h].hash|
    ensures In(hp[h].hash[i].key, hp.Keys) && In(hp[h].hash[i].val, hp.Keys)
    ensures IsStr(hp, hp[h].hash[i].key) ==> hp[h].hash[i].key.id in c
    ensures IsStr(hp, hp[h].hash[i].val) ==> hp[h].hash[i].val.id in c
    ensures hp[h].hash[i].val != Nil && (hp[h].mode.Strong? || hp[h].mode.WeakValues?) ==> In(hp[h].hash[i].key, c)
    ensures hp[h].mode.Strong? || (hp[h].mode.Ephemeron? && KeyAlive(hp, hp[h].hash[i].key, c)) ==>
      In(hp[h].hash[i].val, c)
  {
    assert StrongRefsIn(hp, hp[h], c) && StringsIn(hp, hp[h], c) && RefsIn(hp, hp[h], hp.Keys);
  }

  lemma FollowArray(hp: Heap, c: set<Id>, h: Id)
    requires HeapReady(hp, c) && h in c && h in hp && hp[h].Table?
    ensures hp[h].mode.Strong? || hp[h].mode.Ephemeron? ==> AllIn(hp[h].arr, c)
    ensures AllIn(hp[h].arr, hp.Keys)
    ensures forall i :: 0 <= i < |hp[h].arr| && IsStr(hp, hp[h].arr[i]) ==> hp[h].arr[i].id in c
  {
    assert StrongRefsIn(hp, hp[h], c) && StringsIn(hp, hp[h], c) && RefsIn(hp, hp[h], hp.Keys);
  }

  /** What must be known of `o` when its visit ends by linking it at `head`; GrayHead
      stands for no list, up to genlink. */
  ghost predicate Fits(atomic: bool, hp: Heap, o: Id, s: set<Id>, head: ListHead)
    requires o in hp
  {
    match head
    case GrayHead => RefsIn(hp, hp[o], s)
    case GrayAgainHead => !atomic
    case WeakHead => atomic && hp[o].Table? && hp[o].mode.WeakValues? && In(hp[o].meta, s) && KeysIn(hp[o].hash, s)
    case AllWeakHead =>
      && atomic && hp[o].Table? && In(hp[o].meta, s)
      && (hp[o].mode.AllWeak? || (hp[o].mode.Ephemeron? && AllIn(hp[o].arr, s) && ValsIn(hp[o].hash, s)))
    case EphemeronHead => atomic && hp[o].Table? && hp[o].mode.Ephemeron? && In(hp[o].meta, s) && AllIn(hp[o].arr, s)
  }

  /** Entry `j` is among the first `i` visited. */
  predicate Passed(j: int, i: int, n: int, inv: bool) {
    if inv then n - i <= j else j < i
  }

  /** Ephemeron rule for one entry: once its key was marked at the start, its value is marked. */
  predicate EntryPassed(hp: Heap, n: Entry, s0: set<Id>, s: set<Id>, hasclears: bool, hasww: bool) {
    && (!hasclears ==> In(n.key, s))
    && (!hasww ==> In(n.val, s))
    && (KeyAlive(hp, n.key, s0) ==> In(n.val, s))
  }

  lemma EntryPassedMonotone(h0: Heap, h1: Heap, n: Entry, s0: set<Id>, s1: set<Id>, s: set<Id>, t: set<Id>, c0: bool,
          w0: bool, c1: bool, w1: bool)
    requires HeapShrunk(h0, h1) && (EntryPassed(h0, n, s1, s, c0, w0) || EntryPassed(h1, n, s1, s, c0, w0))
    requires s0 <= s1 && s <= t && (c0 ==> c1) && (w0 ==> w1)
    ensures EntryPassed(h1, n, s0, t, c1, w1)
  {
    assert IsStr(h0, n.key) <==> IsStr(h1, n.key) by {
      if n.key.Ref? && n.key.id in h0 { assert Shrunk(h0[n.key.id], h1[n.key.id]); }
    }
  }

  lemma DeadKeysTrans(a: Object, b: Object, c: Object)
    requires DeadKeysOnly(a, b) && DeadKeysOnly(b, c)
    ensures DeadKeysOnly(a, c)
  {
  }

  /** No entry of `h` whose key was alive given `s0` has its value outside `s`. */
  predicate Converged(hp: Heap, h: Id, s0: set<Id>, s: set<Id>) {
    h in hp && hp[h].Table? &&
    forall i :: 0 <= i < |hp[h].hash| && KeyAlive(hp, hp[h].hash[i].key, s0) ==> In(hp[h].hash[i].val, s)
  }

  lemma ConvergedLess(hp: Heap, h: Id, s0: set<Id>, s1: set<Id>, s: set<Id>)
    requires Converged(hp, h, s1, s) && s0 <= s1
    ensures Converged(hp, h, s0, s)
  {
  }

  ghost predicate OnlyStrings(hp: Heap, m0: Marks, m1: Marks) {
    forall o :: o in NewlyMarked(m0, m1) ==> o in hp && hp[o].Str?
  }

  lemma OnlyStringsSame(hp: Heap, m0: Marks, m1: Marks, m2: Marks, o: Id)
    requires o in m0 && o in m1 && o in m2 && m2 == m1[o := m2[o]] && !m0[o].color.White? && !m2[o].color.White?
    ensures OnlyStrings(hp, m0, m1) ==> OnlyStrings(hp, m0, m2)
  {
  }

  lemma WalkColor(h: Id, h0: Heap, m0: Marks, g0: seq<Id>, h1: Heap, m1: Marks, g1: seq<Id>)
    requires Walk(h, h0, m0, g0, h1, m1, g1)
    ensures m0.Keys == m1.Keys == h0.Keys == h1.Keys && Marked(m0) <= Marked(m1)
    ensures h in m0 && !m0[h].color.White? ==> m1[h] == m0[h]
  {
  }

  lemma WalkSubset(h: Id, h0: Heap, m0: Marks, g0: seq<Id>, h1: Heap, m1: Marks, g1: seq<Id>)
    requires Walk(h, h0, m0, g0, h1, m1, g1) && h0[h].Table?
    ensures Marked(m0) <= Marked(m1)
    ensures h1[h].Table? && h1[h].meta == h0[h].meta && h1[h].mode == h0[h].mode && h1[h].arr == h0[h].arr
  {
  }

  lemma FitsAllWeak(atomic: bool, hp: Heap, h: Id, s: set<Id>)
    requires h in hp && hp[h].Table? && hp[h].mode.AllWeak? && In(hp[h].meta, s)
    ensures Fits(atomic, hp, h, s, if !atomic then GrayAgainHead else AllWeakHead)
  {
  }

  lemma MarkedKeeps(m0: Marks, m1: Marks, o: Id)
    requires o in m0 && o in m1 && m1[o] == m0[o] && !m0[o].color.White?
    ensures o in Marked(m0) && o in Marked(m1)
  {
  }

  lemma FollowSlots(hp: Heap, c: set<Id>, o: Id)
    requires HeapReady(hp, c) && o in c
    ensures o in hp
    ensures hp[o].Udata? ==> AllIn(hp[o].uvs, c)
    ensures hp[o].Closure? ==> AllIn(hp[o].refs, c)
    ensures hp[o].Thread? ==> AllIn(hp[o].stack, c) && forall i :: 0 <= i < |hp[o].upvals| ==> hp[o].upvals[i] in c
  {
  }

  lemma ThreadVisit(atomic: bool, th: Id, hp: Heap, m0: Marks, g0: seq<Id>, k0: Links, m1: Marks, m2: Marks,
          g2: seq<Id>, k1: Links)
    requires th in hp && hp[th].Thread? && th in m0 && m0[th].color.Black? && th in m1 && th in m2 && m2[th] == m1[th]
    requires Marking(hp, m0, g0, m2[th := m0[th]], g2)
    requires m0.Keys == m2.Keys && RefsIn(hp, hp[th], Marked(m2))
    requires if m0[th].age.IsOld() || !atomic
             then k1 == k0.(grayagain := [th] + k0.grayagain) && m1[th] == m0[th].(color := Gray)
             else k1 == k0 && m1[th] == m0[th]
    ensures Visit(atomic, th, hp, m0, g0, k0, hp, m2, g2, k1)
  {
  }

  ghost function Blackened(mk: Marks, o: Id): Marks
    requires o in mk
  {
    mk[o := mk[o].(color := Black)]
  }

  ghost predicate MarksProgress(m0: Marks, m1: Marks) {
    && m0.Keys == m1.Keys
    && forall o :: o in m0 ==>
         && (!m0[o].color.White? ==> !m1[o].color.White?)
         && (m1[o].color.White? ==> m1[o] == m0[o])
         && m1[o].fin == m0[o].fin
         && (m1[o].age == m0[o].age || (m0[o].age.Touched2? && m1[o].age.Old?))
  }

  /** What every part of the atomic phase does: marks grow, entries may go, ages and
      finalizer bits stay but for objects touched in the previous cycle. */
  ghost predicate Progress(h0: Heap, m0: Marks, h1: Heap, m1: Marks) {
    HeapShrunk(h0, h1) && NothingLost(h0, h1) && MarksProgress(m0, m1)
  }

  /** Progress that may also empty slots of weak tables, for want of an object of `s`. */
  ghost predicate Cleared(s: set<Id>, h0: Heap, m0: Marks, h1: Heap, m1: Marks) {
    HeapShrunk(h0, h1) && OnlyWeakLost(h0, h1, s) && MarksProgress(m0, m1)
  }

  lemma ClearedTrans(s: set<Id>, h0: Heap, m0: Marks, h1: Heap, m1: Marks, h2: Heap, m2: Marks)
    requires Cleared(s, h0, m0, h1, m1) && Cleared(s, h1, m1, h2, m2)
    ensures Cleared(s, h0, m0, h2, m2)
  {
    ShrunkTrans(h0, h1, h2);
    WeakLostTrans(h0, h1, h2, s);
  }

  lemma ProgressCleared(s: set<Id>, h0: Heap, m0: Marks, h1: Heap, m1: Marks)
    requires Progress(h0, m0, h1, m1)
    ensures Cleared(s, h0, m0, h1, m1)
  {
  }

  /** No key, no slot value of table `x` is outside `s`. */
  predicate KeysDone(hp: Heap, x: Id, s: set<Id>) {
    x in hp && hp[x].Table? && KeysIn(hp[x].hash, s)
  }

  predicate ValuesDone(hp: Heap, x: Id, s: set<Id>) {
    x in hp && hp[x].Table? && AllIn(hp[x].arr, s) && ValsIn(hp[x].hash, s)
  }

  predicate WeakTables(hp: Heap, s: set<Id>, l: seq<Id>) {
    forall x :: x in l ==> x in s && x in hp && hp[x].Table? && !hp[x].mode.Strong?
  }

  lemma ClearedFacts(s: set<Id>, h0: Heap, m0: Marks, h1: Heap, m1: Marks)
    requires Cleared(s, h0, m0, h1, m1)
    ensures HeapShrunk(h0, h1) && Marked(m0) <= Marked(m1) && m0.Keys == m1.Keys
    ensures forall l :: WeakTables(h0, Marked(m0), l) ==> WeakTables(h1, Marked(m1), l)
    ensures forall x :: KeysDone(h0, x, Marked(m0)) ==> KeysDone(h1, x, Marked(m1))
    ensures forall x :: ValuesDone(h0, x, Marked(m0)) ==> ValuesDone(h1, x, Marked(m1))
  {
    forall x | x in h0 && h0[x].Table?
      ensures h1[x].Table? && h1[x].mode == h0[x].mode
      ensures KeysDone(h0, x, Marked(m0)) ==> KeysDone(h1, x, Marked(m1))
      ensures ValuesDone(h0, x, Marked(m0)) ==> ValuesDone(h1, x, Marked(m1))
    {
      assert Shrunk(h0[x], h1[x]);
    }
  }

  /** Part of clearing the weak table `h`: entries go only for mentioning an object
      outside `s`, and only strings get marked. */
  ghost predicate Clearing(h: Id, s: set<Id>, h0: Heap, m0: Marks, h1: Heap, m1: Marks, g: seq<Id>) {
    && h in h0 && h in h1 && h1 == h0[h := h1[h]]
    && HeapShrunk(h0, h1) && WeakLoss(h0, h0[h], h1[h], s)
    && Marking(h1, m0, g, m1, g) && OnlyStrings(h1, m0, m1)
  }

  lemma ClearingCleared(h: Id, s: set<Id>, h0: Heap, m0: Marks, h1: Heap, m1: Marks, g: seq<Id>)
    requires Clearing(h, s, h0, m0, h1, m1, g)
    ensures Cleared(s, h0, m0, h1, m1)
  {
  }

  lemma AtomicClearing(h: Id, s: set<Id>, h0: Heap, m0: Marks, h1: Heap, m1: Marks, g: seq<Id>, k: Links,
          twups: seq<Id>)
    requires Clearing(h, s, h0, m0, h1, m1, g) && WellFormed(h1)
    requires AtomicInv(h0, m0, g, {}, k, {}) && TwupsInv(h0, m0, g, {}, twups)
    ensures AtomicInv(h1, m1, g, {}, k, {}) && TwupsInv(h1, m1, g, {}, twups)
  {
    AtomicShrunk(h0, h1, m0, g, {}, k, {}, twups);
    AtomicMark(h1, m0, g, m1, g, {}, k, {});
    TwupsMark(h1, m0, g, m1, g, {}, twups);
  }

  lemma ReadyWellFormed(hp: Heap, c: set<Id>)
    requires HeapReady(hp, c)
    ensures WellFormed(hp)
  {
  }

  /** `twups` only gains threads, all of them marked. */
  ghost predicate TwupsFrom(t0: seq<Id>, t1: seq<Id>, mk: Marks) {
    && (forall t :: t in t0 ==> t in t1)
    && (forall t :: t in t1 ==> t in t0 || t in Marked(mk))
  }

  lemma TwupsFromTrans(t0: seq<Id>, t1: seq<Id>, m1: Marks, t2: seq<Id>, m2: Marks)
    requires TwupsFrom(t0, t1, m1) && TwupsFrom(t1, t2, m2) && Marked(m1) <= Marked(m2)
    ensures TwupsFrom(t0, t2, m2)
  {
  }

  lemma TwupsFromVisit(o: Id, t0: seq<Id>, t1: seq<Id>, mk: Marks)
    requires t1 == t0 || (t1 == [o] + t0 && o in Marked(mk))
    ensures TwupsFrom(t0, t1, mk)
  {
  }

  predicate Suffix(a: seq<Id>, b: seq<Id>) {
    |a| <= |b| && b[|b| - |a|..] == a
  }

  /** Lists of weak tables only gain elements, at the head. */
  ghost predicate ListsGrow(k0: Links, k1: Links) {
    Suffix(k0.weak, k1.weak) && Suffix(k0.allweak, k1.allweak)
  }

  lemma SuffixTrans(a: seq<Id>, b: seq<Id>, c: seq<Id>)
    requires Suffix(a, b) && Suffix(b, c)
    ensures Suffix(a, c)
  {
    assert c[|c| - |a|..] == c[|c| - |b|..][|b| - |a|..];
  }

  lemma ListsGrowTrans(k0: Links, k1: Links, k2: Links)
    requires ListsGrow(k0, k1) && ListsGrow(k1, k2)
    ensures ListsGrow(k0, k2)
  {
    SuffixTrans(k0.weak, k1.weak, k2.weak);
    SuffixTrans(k0.allweak, k1.allweak, k2.allweak);
  }

  lemma ListsGrowSelf(k0: Links, k1: Links)
    requires k1.weak == k0.weak && k1.allweak == k0.allweak
    ensures ListsGrow(k0, k1)
  {
  }

  lemma VisitLists(o: Id, h0: Heap, m0: Marks, g0: seq<Id>, k0: Links, h1: Heap, m1: Marks, g1: seq<Id>, k1: Links)
    requires Visit(true, o, h0, m0, g0, k0, h1, m1, g1, k1)
    ensures ListsGrow(k0, k1)
  {
    assert Relinked(o, k0, k1);
  }

  function Elements<T>(s: seq<T>): set<T> {
    set x | x in s
  }

  /** Ephemeron tables taken off their list and not yet traversed in this pass. */
  ghost predicate EphemeronsWait(hp: Heap, mk: Marks, next: seq<Id>) {
    forall x :: x in next ==>
      x in hp && x in mk && !mk[x].color.White? && hp[x].Table? && hp[x].mode.Ephemeron? && In(hp[x].meta, Marked(mk))
  }

  lemma Elements0(l: seq<Id>)
    requires l != [] && NoneTwice(l)
    ensures Elements(l[1..]) == Elements(l) - {l[0]} && NoneTwice(l[1..])
  {
    assert l == [l[0]] + l[1..];
    assert forall i :: 0 <= i < |l| - 1 ==> l[1..][i] == l[i + 1];
  }

  lemma PassStart(hp: Heap, mk: Marks, next: seq<Id>, k: Links, twups: seq<Id>)
    requires AtomicInv(hp, mk, [], {}, k, {}) && TwupsInv(hp, mk, [], {}, twups) && k.eph == next
    ensures AtomicInv(hp, mk, [], Elements(next), k.(eph := []), {}) && TwupsInv(hp, mk, [], Elements(next), twups)
    ensures EphemeronsWait(hp, mk, next) && NoneTwice(next)
  {
    hide Listed;
    ListedPass(hp, mk, k, Elements(next));
  }

  lemma PassNext(hp: Heap, mk: Marks, next: seq<Id>, k: Links, twups: seq<Id>)
    requires next != [] && EphemeronsWait(hp, mk, next) && NoneTwice(next)
    requires AtomicInv(hp, mk, [], Elements(next), k, {}) && TwupsInv(hp, mk, [], Elements(next), twups)
    ensures next[0] in hp && next[0] in mk && !mk[next[0]].color.White? && next[0] in Marked(mk)
    ensures hp[next[0]].Table? && hp[next[0]].mode.Ephemeron? && In(hp[next[0]].meta, Marked(mk))
    ensures AtomicInv(hp, Blackened(mk, next[0]), [next[0]] + [], Elements(next[1..]), k, {})
    ensures TwupsInv(hp, Blackened(mk, next[0]), [next[0]] + [], Elements(next[1..]), twups)
    ensures NoneTwice(next[1..])
  {
    hide Listed;
    var w := next[0];
    Elements0(next);
    ListedNext(hp, mk, w, Elements(next), Elements(next[1..]), k);
    assert [w] + [] == [w];
    assert next == [w] + next[1..];
    assert forall x :: x in Elements(next) <==> x in [w] + [] || x in Elements(next[1..]);
    assert Marked(Blackened(mk, w)) == Marked(mk);
  }

  lemma ProgressWhites(h0: Heap, m0: Marks, h1: Heap, m1: Marks)
    requires Progress(h0, m0, h1, m1)
    ensures Marked(m0) <= Marked(m1) && |Whites(m1)| <= |Whites(m0)| && HeapShrunk(h0, h1) && m0.Keys == m1.Keys
  {
    SubsetSize(Whites(m1), Whites(m0));
  }

  lemma WaitKept(h0: Heap, m0: Marks, h1: Heap, m1: Marks, next: seq<Id>)
    requires Progress(h0, m0, h1, m1)
    ensures EphemeronsWait(h0, m0, next) ==> EphemeronsWait(h1, m1, next)
    ensures next != [] ==> EphemeronsWait(h0, m0, next) ==> EphemeronsWait(h1, m1, next[1..])
  {
    ProgressWhites(h0, m0, h1, m1);
    if EphemeronsWait(h0, m0, next) {
      forall x | x in next
        ensures x in h1 && x in m1 && !m1[x].color.White? && h1[x].Table? && h1[x].mode.Ephemeron?
          && In(h1[x].meta, Marked(m1))
      {
        assert Shrunk(h0[x], h1[x]);
      }
    }
  }

  lemma ConvergedKept(h0: Heap, h1: Heap, x: Id, s0: set<Id>, s: set<Id>, t: set<Id>)
    requires HeapShrunk(h0, h1) && Converged(h0, x, s0, s) && s <= t
    ensures Converged(h1, x, s0, t)
  {
    assert Shrunk(h0[x], h1[x]);
    forall i | 0 <= i < |h1[x].hash| && KeyAlive(h1, h1[x].hash[i].key, s0) ensures In(h1[x].hash[i].val, t) {
      var k := h0[x].hash[i].key;
      assert ShrunkEntry(h0[x].hash[i], h1[x].hash[i]);
      if h1[x].hash[i] == h0[x].hash[i] {
        if k.Ref? && k.id in h0 { assert Shrunk(h0[k.id], h1[k.id]); }
        assert KeyAlive(h0, k, s0);
      }
    }
  }

  lemma SettledEph(w: Id, hp: Heap, m0: Marks, m1: Marks, k0: Links, k1: Links)
    requires w in hp && w in m0 && w in m1 && Settled(true, hp, w, m0, m1, k0, k1)
    ensures k1.eph == k0.eph || k1.eph == [w] + k0.eph
  {
  }

  /** One more table traversed in a pass that has marked nothing but strings. */
  lemma PassConverged(w: Id, h0: Heap, mr: Marks, mb: Marks, k0: Links, h1: Heap, m1: Marks, g1: seq<Id>, k1: Links)
    requires w in mb && !mb[w].color.White? && Visit(true, w, h0, Blackened(mb, w), [], k0, h1, m1, g1, k1)
    requires mr.Keys == mb.Keys && Marked(mr) <= Marked(mb) <= Marked(m1)
    requires OnlyStrings(h0, mr, mb) && OnlyStrings(h1, Blackened(mb, w), m1)
    requires forall x :: x in k0.eph ==> Converged(h0, x, Marked(mr), Marked(mb))
    requires Converged(h1, w, Marked(Blackened(mb, w)), Marked(m1))
    ensures OnlyStrings(h1, mr, m1)
    ensures forall x :: x in k1.eph ==> Converged(h1, x, Marked(mr), Marked(m1))
  {
    hide Settled, Converged;
    forall x | x in k1.eph ensures Converged(h1, x, Marked(mr), Marked(m1)) {
      MarkedSame(mb, Blackened(mb, w), w);
      if x in k0.eph {
        ConvergedKept(h0, h1, x, Marked(mr), Marked(mb), Marked(m1));
      } else {
        SettledEph(w, h1, Blackened(mb, w), m1, k0, k1);
        ConvergedLess(h1, w, Marked(mr), Marked(mb), Marked(m1));
      }
    }
    forall o | o in NewlyMarked(mr, m1) ensures o in h1 && h1[o].Str? {
      if o in Marked(mb) {
        assert o in NewlyMarked(mr, mb);
        assert Shrunk(h0[o], h1[o]);
      } else {
        assert o in NewlyMarked(Blackened(mb, w), m1);
      }
    }
  }

  /** A table that converged for the marks at the start of a pass has converged for good
      when the pass marked nothing but strings. */
  lemma ConvergedByStrings(hp: Heap, m0: Marks, m1: Marks, x: Id)
    requires OnlyStrings(hp, m0, m1) && m0.Keys == m1.Keys
    requires Converged(hp, x, Marked(m0), Marked(m1))
    ensures Converged(hp, x, Marked(m1), Marked(m1))
  {
    forall i | 0 <= i < |hp[x].hash| && KeyAlive(hp, hp[x].hash[i].key, Marked(m1))
      ensures In(hp[x].hash[i].val, Marked(m1))
    {
      var k := hp[x].hash[i].key;
      if k.Ref? && k.id in Marked(m1) && k.id !in Marked(m0) { assert k.id in NewlyMarked(m0, m1); }
      assert KeyAlive(hp, k, Marked(m0));
    }
  }

  /** `s` is closed under the references the collector follows. */
  ghost predicate StrongClosed(hp: Heap, s: set<Id>) {
    forall o :: o in s && o in hp ==> StrongRefsIn(hp, hp[o], s)
  }

  /** With nothing left to visit and every ephemeron table converged, the marked objects
      are closed under strong references. */
  lemma AtomicStrongClosed(hp: Heap, mk: Marks, k: Links)
    requires AtomicInv(hp, mk, [], {}, k, {})
    requires forall x :: x in k.eph ==> Converged(hp, x, Marked(mk), Marked(mk))
    ensures StrongClosed(hp, Marked(mk))
  {
    hide Listed;
    forall o | o in Marked(mk) && o in hp ensures StrongRefsIn(hp, hp[o], Marked(mk)) {
    }
  }

  lemma AtomicHead(hp: Heap, mk: Marks, o: Id, g: seq<Id>, saved: set<Id>, k: Links, unchecked: set<Id>, twups: seq<Id>)
    requires AtomicInv(hp, mk, [o] + g, saved, k, unchecked) && TwupsInv(hp, mk, [o] + g, saved, twups)
    ensures o in mk && o in Marked(mk) && !mk[o].color.White? && mk.Keys == hp.Keys && NeedsVisit(hp[o])
    ensures AtomicInv(hp, Blackened(mk, o), [o] + g, saved, k, unchecked)
    ensures TwupsInv(hp, Blackened(mk, o), [o] + g, saved, twups)
  {
    hide Listed;
    assert o in [o] + g;
    ListedBlack(hp, mk, o, g, saved, k);
    assert Marked(Blackened(mk, o)) == Marked(mk);
  }

  lemma VisitMarked(o: Id, h0: Heap, m0: Marks, g0: seq<Id>, k0: Links, h1: Heap, m1: Marks, g1: seq<Id>, k1: Links)
    requires o in m0 && !m0[o].color.White? && Visit(true, o, h0, Blackened(m0, o), g0, k0, h1, m1, g1, k1)
    ensures o in Marked(m1) && Marked(m0) <= Marked(m1)
  {
    hide Visited, RefsIn;
    var mb := Blackened(m0, o);
    MarkingGrows(h1, mb, g0, m1[o := mb[o]], g1);
    MarkedSame(m1[o := mb[o]], m1, o);
    MarkedSame(m0, mb, o);
  }

  lemma VisitProgress(o: Id, h0: Heap, m0: Marks, g0: seq<Id>, k0: Links, h1: Heap, m1: Marks, g1: seq<Id>, k1: Links)
    requires o in m0 && !m0[o].color.White?
    requires Visit(true, o, h0, Blackened(m0, o), g0, k0, h1, m1, g1, k1)
    ensures Progress(h0, m0, h1, m1)
    ensures |Whites(m1)| < |Whites(m0)| || (|Whites(m1)| == |Whites(m0)| && |g1| == |g0|)
  {
    hide Visited, RefsIn;
    var mb := Blackened(m0, o);
    var m1' := m1[o := mb[o]];
    MarkedSame(m0, mb, o);
    MarkingGrows(h1, mb, g0, m1', g1);
    MarkedSame(m1', m1, o);
    if |Whites(m1')| == |Whites(mb)| { MarkingIdle(h1, mb, g0, m1', g1); }
  }

  lemma MarkingProgress(hp: Heap, m0: Marks, g0: seq<Id>, m1: Marks, g1: seq<Id>)
    requires Marking(hp, m0, g0, m1, g1)
    ensures Progress(hp, m0, hp, m1)
  {
  }

  lemma SlotMarked(hp: Heap, u: Id, s: set<Id>, gray: seq<Id>, saved: set<Id>, unchecked: set<Id>)
    requires u in hp && hp[u].OpenUpval? && In(SlotValue(hp, hp[u].th, hp[u].slot), s)
    ensures UpvalFine(hp, u, s, gray, saved, unchecked)
  {
  }

  lemma TwupsMember(hp: Heap, mk: Marks, gray: seq<Id>, saved: set<Id>, twups: seq<Id>, t: Id)
    requires TwupsInv(hp, mk, gray, saved, twups) && t in twups
    ensures t in hp && hp[t].Thread?
  {
  }

  lemma ThreadGray(hp: Heap, m0: Marks, g0: seq<Id>, m1: Marks, g1: seq<Id>, t: Id)
    requires Marking(hp, m0, g0, m1, g1) && t in hp && hp[t].Thread?
    ensures t in Marked(m1) ==> t in Marked(m0) || t in g1
    ensures t in g0 ==> t in g1
  {
    GrayHasNew(hp, m0, g0, m1, g1);
  }

  lemma TwupsRemoved(hp: Heap, mk: Marks, gray: seq<Id>, saved: set<Id>, twups: seq<Id>, a: seq<Id>, b: seq<Id>, t: Id)
    requires TwupsInv(hp, mk, gray, saved, twups) && twups == a + [t] + b
    requires t in hp && hp[t].Thread? && (hp[t].upvals == [] || (t in Marked(mk) ==> t in gray))
    ensures TwupsInv(hp, mk, gray, saved, a + b)
  {
    assert forall x :: x in twups <==> x in a || x == t || x in b;
  }

  lemma AtomicMarked(hp: Heap, mk: Marks, gray: seq<Id>, saved: set<Id>, k: Links, u0: set<Id>, u1: set<Id>, t: Id)
    requires AtomicInv(hp, mk, gray, saved, k, u0) && u0 - {t} <= u1 && t in Marked(mk)
    ensures AtomicInv(hp, mk, gray, saved, k, u1)
  {
    hide RefsIn, Listed;
    forall o | o in Marked(mk) && o !in gray && o !in saved
      ensures if hp[o].OpenUpval? then UpvalFine(hp, o, Marked(mk), gray, saved, u1)
              else Visited(hp, o, Marked(mk), k.weak, k.allweak, k.eph)
    {
    }
  }

  lemma ProgressTrans(h0: Heap, m0: Marks, h1: Heap, m1: Marks, h2: Heap, m2: Marks)
    requires Progress(h0, m0, h1, m1) && Progress(h1, m1, h2, m2)
    ensures Progress(h0, m0, h2, m2)
  {
    ShrunkTrans(h0, h1, h2);
    NothingLostTrans(h0, h1, h2);
  }

  lemma Progress3(h0: Heap, m0: Marks, h1: Heap, m1: Marks, h2: Heap, m2: Marks, h3: Heap, m3: Marks)
    requires Progress(h0, m0, h1, m1) && Progress(h1, m1, h2, m2) && Progress(h2, m2, h3, m3)
    ensures Progress(h0, m0, h3, m3)
    ensures Marked(m0) <= Marked(m1) <= Marked(m2) <= Marked(m3)
  {
    ProgressTrans(h0, m0, h1, m1, h2, m2);
    ProgressTrans(h0, m0, h2, m2, h3, m3);
  }

  lemma GrowTails(k0: Links, k1: Links)
    requires ListsGrow(k0, k1)
    ensures |k0.weak| <= |k1.weak| && k1.weak[|k1.weak| - |k0.weak|..] == k0.weak
    ensures |k0.allweak| <= |k1.allweak| && k1.allweak[|k1.allweak| - |k0.allweak|..] == k0.allweak
  {
  }

  lemma NothingLostStrong(h0: Heap, h1: Heap, o: Id, s: set<Id>)
    requires NothingLost(h0, h1) && o in h0 && StrongRefsIn(h1, h1[o], s)
    ensures StrongRefsIn(h0, h0[o], s)
  {
    assert SameContents(h0[o], h1[o]);
    forall v ensures KeyAlive(h0, v, s) <==> KeyAlive(h1, v, s) {
      if v.Ref? && v.id in h0 { assert SameContents(h0[v.id], h1[v.id]); }
    }
    if h0[o].OpenUpval? && h0[o].th in h0 { assert SameContents(h0[h0[o].th], h1[h0[o].th]); }
  }

  /** What the collector closed under strong references was so closed from the start. */
  lemma ProgressStrong(h0: Heap, m0: Marks, h1: Heap, m1: Marks, s: set<Id>)
    requires Progress(h0, m0, h1, m1)
    ensures StrongClosed(h1, s) ==> StrongClosed(h0, s)
  {
    if StrongClosed(h1, s) {
      forall o | o in s && o in h0 ensures StrongRefsIn(h0, h0[o], s) {
        NothingLostStrong(h0, h1, o, s);
      }
    }
  }

  lemma AfterMarkPhase(h0: Heap, m0: Marks, h1: Heap, m1: Marks)
    requires Progress(h0, m0, h1, m1)
    ensures Marked(m0) <= Marked(m1) && m0.Keys == m1.Keys
    ensures StrongClosed(h1, Marked(m1)) ==> StrongClosed(h0, Marked(m1))
    ensures Cleared(Marked(m1), h0, m0, h1, m1)
  {
    ProgressWhites(h0, m0, h1, m1);
    ProgressStrong(h0, m0, h1, m1, Marked(m1));
    ProgressCleared(Marked(m1), h0, m0, h1, m1);
  }

  lemma ListedTables(hp: Heap, mk: Marks, gray: seq<Id>, k: Links)
    requires AtomicInv(hp, mk, gray, {}, k, {})
    ensures WeakTables(hp, Marked(mk), k.weak) && WeakTables(hp, Marked(mk), k.allweak)
      && WeakTables(hp, Marked(mk), k.eph)
  {
    hide Listed;
  }

  lemma StillListed(hp: Heap, mk: Marks, k: Links)
    requires AtomicInv(hp, mk, [], {}, k, {})
    ensures Listed(hp, mk, [], {}, k)
  {
  }

  lemma PrefixTables(hp: Heap, mk: Marks, l: seq<Id>, n: nat)
    requires n <= |l| && WeakTables(hp, Marked(mk), l)
    ensures WeakTables(hp, Marked(mk), l[..n])
  {
  }

  /** After the last clearing no marked object refers to an unmarked one, weakly or not. */
  lemma AllLive(hp: Heap, mk: Marks, k: Links)
    requires AtomicInv(hp, mk, [], {}, k, {})
    requires forall x :: x in k.weak ==> ValuesDone(hp, x, Marked(mk))
    requires forall x :: x in k.allweak ==> ValuesDone(hp, x, Marked(mk)) && KeysDone(hp, x, Marked(mk))
    requires forall x :: x in k.eph ==> KeysDone(hp, x, Marked(mk)) && Converged(hp, x, Marked(mk), Marked(mk))
    ensures forall o :: o in Marked(mk) ==> o in hp && RefsIn(hp, hp[o], Marked(mk))
  {
    hide Listed;
  }

  lemma ReadyLarger(h0: Heap, h1: Heap, mk: Marks, c: set<Id>, c2: set<Id>)
    requires HeapShrunk(h0, h1) && Enclosed(h0, c2) && c <= c2 <= h1.Keys && HeapReady(h1, c)
    ensures HeapReady(h1, c2)
  {
    ShrunkEnclosed(h0, h1, c2);
  }

  predicate Leaves(s: set<Id>, all: bool, o: Id) {
    all || o !in s
  }

  /** Objects of `l` that stay in `finobj`, and those that leave it, in order. */
  ghost function Stay(s: set<Id>, all: bool, l: seq<Id>): seq<Id> {
    if l == [] then []
    else Stay(s, all, l[..|l| - 1]) + if Leaves(s, all, l[|l| - 1]) then [] else [l[|l| - 1]]
  }

  ghost function Leave(s: set<Id>, all: bool, l: seq<Id>): seq<Id> {
    if l == [] then []
    else Leave(s, all, l[..|l| - 1]) + if Leaves(s, all, l[|l| - 1]) then [l[|l| - 1]] else []
  }

  lemma {:induction false} StaySame(s: set<Id>, t: set<Id>, l: seq<Id>)
    requires forall x :: x in l ==> (x in s <==> x in t)
    ensures Stay(s, false, l) == Stay(t, false, l) && Leave(s, false, l) == Leave(t, false, l)
  {
    if l != [] { StaySame(s, t, l[..|l| - 1]); }
  }

  ghost predicate Separated(s: set<Id>, all: bool, fin0: seq<Id>, k: nat, fin1: seq<Id>, tob0: seq<Id>, tob1: seq<Id>) {
    && k <= |fin0|
    && fin1 == Stay(s, all, fin0[..k]) + fin0[k..]
    && tob1 == tob0 + Leave(s, all, fin0[..k])
  }

  lemma {:induction false} StayLeaveMembers(s: set<Id>, all: bool, l: seq<Id>)
    ensures forall x :: x in Stay(s, all, l) <==> x in l && !Leaves(s, all, x)
    ensures forall x :: x in Leave(s, all, l) <==> x in l && Leaves(s, all, x)
  {
    if l != [] {
      StayLeaveMembers(s, all, l[..|l| - 1]);
      assert l == l[..|l| - 1] + [l[|l| - 1]];
    }
  }

  /** The objects set aside are those that were not strongly reachable: what was marked
      since is strings, which have no finalizer. */
  lemma SeparatedByStrong(hp: Heap, m1: Marks, m2: Marks, fin0: seq<Id>, k: nat, fin1: seq<Id>, tob0: seq<Id>,
          tob1: seq<Id>)
    requires Separated(Marked(m2), false, fin0, k, fin1, tob0, tob1)
    requires OnlyStrings(hp, m1, m2) && m1.Keys == m2.Keys && Marked(m1) <= Marked(m2)
    requires forall x :: x in fin0 ==> x in hp && !hp[x].Str?
    ensures Separated(Marked(m1), false, fin0, k, fin1, tob0, tob1)
    ensures forall x :: x in tob1 ==> x in fin0 || x in tob0
  {
    forall x | x in fin0 ensures x in Marked(m1) <==> x in Marked(m2) {
      if x in Marked(m2) { assert x in Marked(m1) || x in NewlyMarked(m1, m2); }
    }
    StaySame(Marked(m2), Marked(m1), fin0[..k]);
    StayLeaveMembers(Marked(m2), false, fin0[..k]);
  }

  /** The pointer `p` is to position `i` of the list, or NULL at its end. */
  predicate PointsAt(p: Pointer, l: seq<Id>, i: nat) {
    i <= |l| && p == if i == |l| then Null else To(l[i])
  }

  /** Where position `q` of `finobj` has gone when `k` objects have been looked at. */
  ghost function SurAt(s: set<Id>, all: bool, fin0: seq<Id>, k: nat, q: nat): nat
    requires k <= |fin0| && q <= |fin0|
  {
    if k <= q then |Stay(s, all, fin0[..k])| + (q - k) else |Stay(s, all, fin0[..q])|
  }

  /** `finobjsur` still divides the list where it did. */
  ghost predicate SurMoved(s: set<Id>, all: bool, fin0: seq<Id>, k: nat, sur0: Pointer, fin1: seq<Id>, sur1: Pointer) {
    k <= |fin0| && NoneTwice(fin0) ==>
      forall q: nat :: PointsAt(sur0, fin0, q) ==> PointsAt(sur1, fin1, SurAt(s, all, fin0, k, q))
  }

  lemma SurByStrong(hp: Heap, m1: Marks, m2: Marks, fin0: seq<Id>, k: nat, sur0: Pointer, fin1: seq<Id>, sur1: Pointer)
    requires SurMoved(Marked(m2), false, fin0, k, sur0, fin1, sur1) && k <= |fin0|
    requires OnlyStrings(hp, m1, m2) && m1.Keys == m2.Keys && Marked(m1) <= Marked(m2)
    requires forall x :: x in fin0 ==> x in hp && !hp[x].Str?
    ensures SurMoved(Marked(m1), false, fin0, k, sur0, fin1, sur1)
  {
    forall x | x in fin0 ensures x in Marked(m1) <==> x in Marked(m2) {
      if x in Marked(m2) { assert x in Marked(m1) || x in NewlyMarked(m1, m2); }
    }
    hide Stay;
    forall q: nat | q <= |fin0| && PointsAt(sur0, fin0, q)
      ensures SurAt(Marked(m1), false, fin0, k, q) == SurAt(Marked(m2), false, fin0, k, q)
    {
      StaySame(Marked(m2), Marked(m1), fin0[..q]);
      StaySame(Marked(m2), Marked(m1), fin0[..k]);
    }
  }

  lemma ShapesKept(h0: Heap, h1: Heap)
    requires HeapShrunk(h0, h1)
    ensures forall x :: x in h0 ==> x in h1 && (h0[x].Str? <==> h1[x].Str?)
  {
    assert forall x :: x in h0 ==> Shrunk(h0[x], h1[x]);
  }

  lemma ProgressNone(hp: Heap, mk: Marks)
    ensures Progress(hp, mk, hp, mk)
  {
  }

  lemma AliveLess(hp: Heap, v: Value, s: set<Id>, t: set<Id>)
    requires s <= t
    ensures KeyAlive(hp, v, s) ==> KeyAlive(hp, v, t)
  {
  }

  lemma ClearNone(h: Id, s: set<Id>, hp: Heap)
    requires h in hp
    ensures hp == hp[h := hp[h]] && HeapShrunk(hp, hp) && WeakLoss(hp, hp[h], hp[h], s)
  {
  }

  lemma ClearOne(h: Id, i: nat, s: set<Id>, h0: Heap, h1: Heap)
    requires h in h0 && h0[h].Table? && !h0[h].mode.Strong? && i < |h0[h].hash|
    requires h1 == h0[h := h0[h].(hash := h0[h].hash[i := Entry(h0[h].hash[i].key, Nil)])]
    requires !KeyAlive(h0, h0[h].hash[i].key, s) || !KeyAlive(h0, h0[h].hash[i].val, s)
    ensures HeapShrunk(h0, h1) && WeakLoss(h0, h0[h], h1[h], s)
  {
  }

  lemma ClearSlot(h: Id, i: nat, s: set<Id>, h0: Heap, h1: Heap)
    requires h in h0 && h0[h].Table? && !h0[h].mode.Strong? && i < |h0[h].arr|
    requires h1 == h0[h := h0[h].(arr := h0[h].arr[i := Nil])] && !KeyAlive(h0, h0[h].arr[i], s)
    ensures HeapShrunk(h0, h1) && WeakLoss(h0, h0[h], h1[h], s)
  {
  }

  lemma ClearTrans(h: Id, s: set<Id>, h0: Heap, h1: Heap, h2: Heap)
    requires h in h0 && h in h1 && h in h2 && h1 == h0[h := h1[h]] && h2 == h1[h := h2[h]]
    requires HeapShrunk(h0, h1) && WeakLoss(h0, h0[h], h1[h], s)
    requires HeapShrunk(h1, h2) && (WeakLoss(h1, h1[h], h2[h], s) || DeadKeysOnly(h1[h], h2[h]))
    ensures h2 == h0[h := h2[h]] && HeapShrunk(h0, h2) && WeakLoss(h0, h0[h], h2[h], s)
  {
    ShrunkTrans(h0, h1, h2);
    forall v ensures KeyAlive(h0, v, s) <==> KeyAlive(h1, v, s) {
      if v.Ref? && v.id in h0 { assert Shrunk(h0[v.id], h1[v.id]); }
    }
  }

  lemma OnlyStringsNone(hp: Heap, m: Marks)
    ensures OnlyStrings(hp, m, m)
  {
  }

  lemma ClearingStart(h: Id, s: set<Id>, hp: Heap, mk: Marks, g: seq<Id>)
    requires h in hp && mk.Keys == hp.Keys
    ensures Clearing(h, s, hp, mk, hp, mk, g)
  {
    MarkingNothing(hp, mk, g);
    OnlyStringsNone(hp, mk);
  }

  lemma OnlyStringsShrunk(h0: Heap, h1: Heap, m0: Marks, m1: Marks)
    requires HeapShrunk(h0, h1) && OnlyStrings(h0, m0, m1)
    ensures OnlyStrings(h1, m0, m1)
  {
    assert forall o :: o in h0 ==> Shrunk(h0[o], h1[o]);
  }

  lemma ClearingStep(h: Id, s: set<Id>, h0: Heap, m0: Marks, h1: Heap, m1: Marks, g: seq<Id>)
    requires h in h0 && h in h1 && h1 == h0[h := h1[h]]
    requires HeapShrunk(h0, h1) && WeakLoss(h0, h0[h], h1[h], s) && Marking(h1, m0, g, m1, g)
    requires OnlyStrings(h0, m0, m1)
    ensures Clearing(h, s, h0, m0, h1, m1, g)
  {
    OnlyStringsShrunk(h0, h1, m0, m1);
  }

  lemma ClearingFacts(h: Id, s: set<Id>, h0: Heap, m0: Marks, h1: Heap, m1: Marks, g: seq<Id>)
    requires Clearing(h, s, h0, m0, h1, m1, g)
    ensures h in h0 && h in h1 && Marked(m0) <= Marked(m1) && m0.Keys == m1.Keys
    ensures h0[h].Table? ==> h1[h].Table? && h1[h].mode == h0[h].mode && |h1[h].hash| == |h0[h].hash|
  {
    MarkingGrows(h1, m0, g, m1, g);
  }

  lemma OnlyStringsTrans(hp: Heap, m0: Marks, m1: Marks, m2: Marks)
    requires OnlyStrings(hp, m0, m1) && OnlyStrings(hp, m1, m2) && m0.Keys == m1.Keys
    ensures OnlyStrings(hp, m0, m2)
  {
    forall o | o in NewlyMarked(m0, m2) ensures o in hp && hp[o].Str? {
      if o in Marked(m1) { assert o in NewlyMarked(m0, m1); } else { assert o in NewlyMarked(m1, m2); }
    }
  }

  lemma ClearingTrans(h: Id, s: set<Id>, h0: Heap, m0: Marks, h1: Heap, m1: Marks, h2: Heap, m2: Marks, g: seq<Id>)
    requires Clearing(h, s, h0, m0, h1, m1, g) && Clearing(h, s, h1, m1, h2, m2, g)
    ensures Clearing(h, s, h0, m0, h2, m2, g) && Marked(m1) <= Marked(m2)
    ensures h1[h].Table? ==> h2[h].Table? && h2[h].mode == h1[h].mode && |h2[h].arr| == |h1[h].arr|
    ensures h1[h].Table? ==> forall t :: Marked(m1) <= t && AllIn(h1[h].arr, t) ==> AllIn(h2[h].arr, t)
  {
    hide Marking, HeapShrunk, OnlyStrings;
    ClearTrans(h, s, h0, h1, h2);
    MarkingShrunk(h1, h2, m0, g, m1, g);
    MarkingTrans(h2, m0, g, m1, g, m2, g);
    MarkingGrows(h2, m1, g, m2, g);
    MarkingGrows(h2, m0, g, m1, g);
    OnlyStringsShrunk(h1, h2, m0, m1);
    OnlyStringsTrans(h2, m0, m1, m2);
  }

  lemma SurStart(s: set<Id>, all: bool, fin: seq<Id>, sur: Pointer)
    ensures SurMoved(s, all, fin, 0, sur, fin, sur)
  {
  }

  lemma {:induction false} StayPart(s: set<Id>, all: bool, l: seq<Id>, q: nat)
    requires q <= |l|
    ensures |Stay(s, all, l[..q])| <= |Stay(s, all, l)| && multiset(Stay(s, all, l)) <= multiset(l)
  {
    if l != [] {
      assert l == l[..|l| - 1] + [l[|l| - 1]];
      StayPart(s, all, l[..|l| - 1], if q == |l| then q - 1 else q);
      assert q < |l| ==> l[..|l| - 1][..q] == l[..q];
      assert q == |l| ==> l[..q] == l;
    }
  }

  function RemoveAt(l: seq<Id>, i: nat): seq<Id>
    requires i < |l|
  {
    l[..i] + l[i + 1..]
  }

  /** checkpointer: a pointer to the object that leaves a list goes to the next one. */
  function CheckPointer(p: Pointer, l: seq<Id>, j: nat): Pointer
    requires j < |l|
  {
    if p == To(l[j]) then (if j + 1 < |l| then To(l[j + 1]) else Null) else p
  }

  function After(i: nat, j: nat): nat {
    if j < i then i - 1 else i
  }

  lemma PointerRemove(p: Pointer, l: seq<Id>, i: nat, j: nat)
    requires PointsAt(p, l, i) && j < |l| && NoneTwice(l)
    ensures PointsAt(CheckPointer(p, l, j), RemoveAt(l, j), After(i, j))
  {
    var l1 := RemoveAt(l, j);
    assert forall k :: 0 <= k < |l1| ==> l1[k] == if k < j then l[k] else l[k + 1];
  }

  lemma PointsInside(p: Pointer, l: seq<Id>, i: nat)
    requires PointsAt(p, l, i)
    ensures i <= |l|
  {
  }

  lemma StayLeaveSnoc(s: set<Id>, all: bool, l: seq<Id>, o: Id)
    ensures Stay(s, all, l + [o]) == Stay(s, all, l) + if Leaves(s, all, o) then [] else [o]
    ensures Leave(s, all, l + [o]) == Leave(s, all, l) + if Leaves(s, all, o) then [o] else []
  {
    assert (l + [o])[..|l|] == l;
  }

  lemma SurNext(s: set<Id>, all: bool, fin0: seq<Id>, k: nat, q: nat)
    requires k < |fin0| && q <= |fin0|
    ensures var i := |Stay(s, all, fin0[..k])|;
      SurAt(s, all, fin0, k + 1, q) == if Leaves(s, all, fin0[k]) then After(SurAt(s, all, fin0, k, q), i)
        else SurAt(s, all, fin0, k, q)
  {
    assert fin0[..k + 1] == fin0[..k] + [fin0[k]];
    StayLeaveSnoc(s, all, fin0[..k], fin0[k]);
    if q < k {
      StayPart(s, all, fin0[..k], q);
      assert fin0[..k][..q] == fin0[..q];
    }
  }

  lemma SeparatedNoneTwice(s: set<Id>, all: bool, fin0: seq<Id>, k: nat, fin: seq<Id>, tob0: seq<Id>, tob: seq<Id>)
    requires Separated(s, all, fin0, k, fin, tob0, tob) && NoneTwice(fin0)
    ensures NoneTwice(fin)
  {
    hide Stay;
    StayPart(s, all, fin0[..k], k);
    assert fin0 == fin0[..k] + fin0[k..];
    assert multiset(fin) <= multiset(fin0);
    NoneTwiceCount(fin0);
    NoneTwiceCount(fin);
  }

  lemma SurStep(s: set<Id>, all: bool, fin0: seq<Id>, k: nat, fin: seq<Id>, tob0: seq<Id>, tob: seq<Id>, sur0: Pointer,
          sur: Pointer)
    requires Separated(s, all, fin0, k, fin, tob0, tob) && SurMoved(s, all, fin0, k, sur0, fin, sur) && k < |fin0|
    ensures |Stay(s, all, fin0[..k])| < |fin| && fin[|Stay(s, all, fin0[..k])|] == fin0[k]
    ensures var i := |Stay(s, all, fin0[..k])|;
      SurMoved(s, all, fin0, k + 1, sur0, if Leaves(s, all, fin0[k]) then RemoveAt(fin, i) else fin,
               if Leaves(s, all, fin0[k]) then CheckPointer(sur, fin, i) else sur)
  {
    var i := |Stay(s, all, fin0[..k])|;
    assert fin[i] == fin0[k];
    if NoneTwice(fin0) {
      SeparatedNoneTwice(s, all, fin0, k, fin, tob0, tob);
      hide CheckPointer, RemoveAt, PointsAt;
      forall q: nat | PointsAt(sur0, fin0, q)
        ensures q <= |fin0| && PointsAt(if Leaves(s, all, fin0[k]) then CheckPointer(sur, fin, i) else sur,
                                        if Leaves(s, all, fin0[k]) then RemoveAt(fin, i)
                                          else fin, SurAt(s, all, fin0, k + 1, q))
      {
        PointsInside(sur0, fin0, q);
        SurNext(s, all, fin0, k, q);
        if Leaves(s, all, fin0[k]) { PointerRemove(sur, fin, SurAt(s, all, fin0, k, q), i); }
      }
    }
  }

  lemma SeparatedStart(s: set<Id>, all: bool, fin: seq<Id>, tob: seq<Id>)
    ensures Separated(s, all, fin, 0, fin, tob, tob) && |Stay(s, all, fin[..0])| == 0
  {
  }

  lemma SeparatedStep(s: set<Id>, all: bool, fin0: seq<Id>, k: nat, fin: seq<Id>, tob0: seq<Id>, tob: seq<Id>)
    requires Separated(s, all, fin0, k, fin, tob0, tob)
    ensures var i := |Stay(s, all, fin0[..k])|; i <= |fin| && (i < |fin| <==> k < |fin0|)
    ensures k < |fin0| ==>
              var i := |Stay(s, all, fin0[..k])|;
              && fin[i] == fin0[k]
              && if Leaves(s, all, fin0[k])
                 then |Stay(s, all, fin0[..k + 1])| == i
                      && Separated(s, all, fin0, k + 1, fin[..i] + fin[i + 1..], tob0, tob + [fin0[k]])
                 else |Stay(s, all, fin0[..k + 1])| == i + 1 && Separated(s, all, fin0, k + 1, fin, tob0, tob)
  {
    if k < |fin0| {
      var i := |Stay(s, all, fin0[..k])|;
      assert fin0[..k + 1] == fin0[..k] + [fin0[k]];
      StayLeaveSnoc(s, all, fin0[..k], fin0[k]);
      assert fin0[k..] == [fin0[k]] + fin0[k + 1..];
      assert fin[i] == fin0[k];
      assert fin[..i] + fin[i + 1..] == Stay(s, all, fin0[..k]) + fin0[k + 1..];
    }
  }

  lemma {:induction false} StayLeaveMultiset(s: set<Id>, all: bool, l: seq<Id>)
    ensures multiset(Stay(s, all, l)) + multiset(Leave(s, all, l)) == multiset(l)
  {
    if l != [] {
      StayLeaveMultiset(s, all, l[..|l| - 1]);
      assert l == l[..|l| - 1] + [l[|l| - 1]];
    }
  }

  /** Two stretches of a visit of `h` in a row. */
  lemma WalkTrans(h: Id, h0: Heap, m0: Marks, g0: seq<Id>, h1: Heap, m1: Marks, g1: seq<Id>, h2: Heap, m2: Marks,
          g2: seq<Id>)
    requires Walk(h, h0, m0, g0, h1, m1, g1) && Walk(h, h1, m1, g1, h2, m2, g2)
    ensures Walk(h, h0, m0, g0, h2, m2, g2)
    ensures m0.Keys == m1.Keys == m2.Keys == h2.Keys && Marked(m0) <= Marked(m1) <= Marked(m2)
    ensures HeapShrunk(h1, h2) && HeapShrunk(h0, h2)
  {
    hide Marking, HeapShrunk, DeadKeysOnly;
    if h1[h] != h0[h] && h2[h] != h1[h] { DeadKeysTrans(h0[h], h1[h], h2[h]); }
    ShrunkTrans(h0, h1, h2);
    MarkingShrunk(h1, h2, m0, g0, m1, g1);
    MarkingTrans(h2, m0, g0, m1, g1, m2, g2);
    MarkingGrows(h2, m0, g0, m1, g1);
    MarkingGrows(h2, m1, g1, m2, g2);
  }

  lemma WalkStrings(h: Id, h0: Heap, m0: Marks, g0: seq<Id>, h1: Heap, m1: Marks, g1: seq<Id>, h2: Heap, m2: Marks,
          g2: seq<Id>)
    requires Walk(h, h0, m0, g0, h1, m1, g1) && Walk(h, h1, m1, g1, h2, m2, g2)
    ensures |Whites(m2)| <= |Whites(m1)| <= |Whites(m0)|
    ensures OnlyStrings(h1, m0, m1) && OnlyStrings(h2, m1, m2) ==> OnlyStrings(h2, m0, m2)
  {
    MarkingGrows(h1, m0, g0, m1, g1);
    MarkingGrows(h2, m1, g1, m2, g2);
    if OnlyStrings(h1, m0, m1) && OnlyStrings(h2, m1, m2) {
      forall o | o in NewlyMarked(m0, m2) ensures o in h2 && h2[o].Str? {
        if o in NewlyMarked(m0, m1) { assert Shrunk(h1[o], h2[o]); } else { assert o in NewlyMarked(m1, m2); }
      }
    }
  }

  /** Clearing spoils no ephemeron table that has converged. */
  lemma ClearingConverged(h: Id, s: set<Id>, h0: Heap, m0: Marks, h1: Heap, m1: Marks, g: seq<Id>)
    requires Clearing(h, s, h0, m0, h1, m1, g)
    ensures forall x :: Converged(h0, x, Marked(m0), Marked(m0)) ==> Converged(h1, x, Marked(m1), Marked(m1))
  {
    MarkingGrows(h1, m0, g, m1, g);
    forall x | Converged(h0, x, Marked(m0), Marked(m0)) ensures Converged(h1, x, Marked(m1), Marked(m1)) {
      ConvergedKept(h0, h1, x, Marked(m0), Marked(m0), Marked(m1));
      ConvergedByStrings(h1, m0, m1, x);
    }
  }

  lemma ClearingStrings(h: Id, s: set<Id>, h0: Heap, m0: Marks, h1: Heap, m1: Marks, g: seq<Id>)
    requires Clearing(h, s, h0, m0, h1, m1, g)
    ensures HeapShrunk(h0, h1) && OnlyStrings(h1, m0, m1)
  {
  }

  lemma MarkedLess(hp: Heap, m0: Marks, g0: seq<Id>, m1: Marks, g1: seq<Id>, o: Id)
    requires Marking(hp, m0, g0, m1, g1)
    requires o in m0 && m0[o].color.White? && o in Marked(m1)
    ensures |Whites(m1)| < |Whites(m0)|
  {
    MarkingGrows(hp, m0, g0, m1, g1);
    assert Whites(m1) <= Whites(m0) - {o};
    SubsetSize(Whites(m1), Whites(m0) - {o});
  }

  lemma ShrunkReady(h0: Heap, h1: Heap, c: set<Id>)
    requires HeapShrunk(h0, h1) && HeapReady(h0, c)
    ensures HeapReady(h1, c)
  {
    ShrunkClosed(h0, h1);
    ShrunkEnclosed(h0, h1, c);
  }

  lemma MarksLess(m0: Marks, o: Id, m1: Marks)
    requires o in m0 && m0[o].color.White? && m1.Keys == m0.Keys
    requires m1[o].color != m0[o].color && !m1[o].color.White?
    requires forall x :: x in m0 && x != o ==> m1[x] == m0[x]
    ensures Marked(m1) == Marked(m0) + {o}
    ensures Whites(m1) == Whites(m0) - {o} && |Whites(m1)| < |Whites(m0)|
  {
  }

  class GlobalState {
    var hp: Heap
    var mk: Marks
    var gray: seq<Id>
    var grayagain: seq<Id>
    var weak: seq<Id>
    var allweak: seq<Id>
    var ephemeron: seq<Id>
    var twups: seq<Id>
    var gcstate: GcState
    var currentwhite: bool
    var sweepgc: SweepPos
    var gckind: GcKind
    var ls: Objects
    var an: Anchors
    var ptr: Pointers

    /** lua_newstate: the main thread is the only object. */
    constructor (main: Id)
      ensures hp == map[main := Thread([], [])] && mk == map[main := Mark(White(false), New, false)]
      ensures gray == [] && Lists() == Links([], [], [], []) && twups == []
      ensures gcstate == Pause && !currentwhite && sweepgc == NoSweep && gckind == Incremental
      ensures ls == Objects([main], [], [], []) && an == Anchors(main, main, Nil, [])
      ensures ptr == Pointers(Null, Null, Null, Null, Null, Null, Null)
    {
      hp, mk, gray := map[main := Thread([], [])], map[main := Mark(White(false), New, false)], [];
      grayagain, weak, allweak, ephemeron, twups := [], [], [], [], [];
      gcstate, currentwhite, sweepgc, gckind := Pause, false, NoSweep, Incremental;
      ls, an := Objects([main], [], [], []), Anchors(main, main, Nil, []);
      ptr := Pointers(Null, Null, Null, Null, Null, Null, Null);
    }

    ghost function Lists(): Links
      reads this
    {
      Links(grayagain, weak, allweak, ephemeron)
    }

    ghost predicate MarkReady(c: set<Id>)
      reads this
    {
      hp.Keys == mk.Keys && HeapReady(hp, c) && c <= hp.Keys && Marked(mk) <= c
    }

    /** reallymarkobject: strings, upvalues and userdata without user values are finished
        here; everything else goes to `gray`, to be visited later. */
    method ReallyMarkObject(o: Id, ghost c: set<Id>)
      requires MarkReady(c)
      requires o in c && o in mk && mk[o].color.White?
      modifies this`mk, this`gray
      ensures MarkReady(c)
      ensures Marking(hp, old(mk), old(gray), mk, gray)
      ensures o in Marked(mk)
      ensures !MarksPast(hp, old(mk), o) ==>
                mk == old(mk)[o := mk[o]] && gray == if NeedsVisit(hp[o]) then [o] + old(gray) else old(gray)
      ensures NeedsVisit(hp[o]) ==> mk == old(mk)[o := old(mk)[o].(color := Gray)]
      decreases |Whites(mk)|, if hp[o].Udata? then 1 else 0, 1
    {
      hide HeapReady, Marking;
      ghost var m0 := mk;
      if hp[o].OpenUpval? || hp[o].ClosedUpval? {
        MarkUpval(o, c);
      } else if hp[o].Udata? && hp[o].uvs == [] {
        MarkLightUdata(o, c);
      } else if hp[o].Str? {
        mk := mk[o := mk[o].(color := Black)];
        MarkingSelf(hp, m0, gray, o, Black, mk);
      } else {
        gray := [o] + gray;
        mk := mk[o := mk[o].(color := Gray)];
        MarkingSelf(hp, m0, old(gray), o, Gray, mk);
      }
    }

    /** Open upvalues are kept gray, closed ones turn black; both mark their value now. */
    method MarkUpval(o: Id, ghost c: set<Id>)
      requires MarkReady(c)
      requires o in c && o in mk && mk[o].color.White? && (hp[o].OpenUpval? || hp[o].ClosedUpval?)
      modifies this`mk, this`gray
      ensures MarkReady(c)
      ensures Marking(hp, old(mk), old(gray), mk, gray)
      ensures o in Marked(mk)
      ensures !MarksPast(hp, old(mk), o) ==>
                mk == old(mk)[o := mk[o]] && gray == if NeedsVisit(hp[o]) then [o] + old(gray) else old(gray)
      decreases |Whites(mk)|, 0, 0
    {
      hide HeapReady, Marking;
      FollowIn(hp, c, o);
      var color := if hp[o].OpenUpval? then Gray else Black;
      mk := mk[o := mk[o].(color := color)];
      ghost var m1 := mk;
      MarksLess(old(mk), o, m1);
      if hp[o].OpenUpval? {
        MarkValue(SlotValue(hp, hp[o].th, hp[o].slot), c);
      } else {
        MarkValue(hp[o].v, c);
      }
      MarkingGrows(hp, m1, old(gray), mk, gray);
      MarkingFrom(hp, old(mk), old(gray), o, color, m1, mk, gray);
    }

    method MarkLightUdata(o: Id, ghost c: set<Id>)
      requires MarkReady(c)
      requires o in c && o in mk && mk[o].color.White? && hp[o].Udata? && hp[o].uvs == []
      modifies this`mk, this`gray
      ensures MarkReady(c)
      ensures Marking(hp, old(mk), old(gray), mk, gray)
      ensures o in Marked(mk)
      ensures !MarksPast(hp, old(mk), o) ==>
                mk == old(mk)[o := mk[o]] && gray == if NeedsVisit(hp[o]) then [o] + old(gray) else old(gray)
      decreases |Whites(mk)|, 1, 0
    {
      hide HeapReady, Marking;
      FollowIn(hp, c, o);
      MarkValue(hp[o].meta, c);
      ghost var m1, g1 := mk, gray;
      MarkingGrows(hp, old(mk), old(gray), m1, g1);
      mk := mk[o := mk[o].(color := Black)];
      MarkingSelf(hp, m1, g1, o, Black, mk);
      MarkingTrans(hp, old(mk), old(gray), m1, g1, mk, gray);
    }

    method MarkValue(v: Value, ghost c: set<Id>)
      requires MarkReady(c) && In(v, c)
      modifies this`mk, this`gray
      ensures MarkReady(c)
      ensures Marking(hp, old(mk), old(gray), mk, gray)
      ensures In(v, Marked(mk))
      ensures !WhiteValue(old(mk), v) ==> mk == old(mk) && gray == old(gray)
      ensures !v.Ref? || NeedsVisit(hp[v.id]) ==> forall o :: o in mk && v != Ref(o) ==> mk[o] == old(mk)[o]
      decreases |Whites(mk)|, if v.Ref? && v.id in hp && hp[v.id].Udata? then 1 else 0, 2
    {
      hide HeapReady, Marking;
      if v.Ref? && mk[v.id].color.White? {
        ReallyMarkObject(v.id, c);
      } else {
        MarkingNothing(hp, mk, gray);
      }
    }

    /** reallymarkobject on an object that is black already: what is finished at once marks its
        value again; everything else goes to `gray`, to be visited once more. */
    method RemarkBlack(o: Id, ghost c: set<Id>)
      requires MarkReady(c)
      requires o in c && o in mk && mk[o].color.Black? && !hp[o].OpenUpval?
      modifies this`mk, this`gray
      ensures MarkReady(c)
      ensures NeedsVisit(hp[o]) ==> mk == old(mk)[o := old(mk)[o].(color := Gray)] && gray == [o] + old(gray)
      ensures !NeedsVisit(hp[o]) ==> Marking(hp, old(mk), old(gray), mk, gray) && RefsIn(hp, hp[o], Marked(mk))
    {
      hide HeapReady, Marking, Marked;
      FollowIn(hp, c, o);
      if hp[o].ClosedUpval? {
        MarkValue(hp[o].v, c);
      } else if hp[o].Udata? && hp[o].uvs == [] {
        MarkValue(hp[o].meta, c);
      } else if hp[o].Str? {
        mk := mk[o := mk[o].(color := Black)];
        assert mk == old(mk);
        MarkingNothing(hp, mk, gray);
      } else {
        ghost var m0 := mk;
        gray := [o] + gray;
        mk := mk[o := mk[o].(color := Gray)];
        MarkedSame(m0, mk, o);
      }
    }

    /** linkgclist: an object enters a list only while it is not gray. */
    method LinkGcList(o: Id, head: ListHead)
      requires o in mk && !mk[o].color.Gray?
      modifies this`mk, this`gray, this`grayagain, this`weak, this`allweak, this`ephemeron
      ensures mk == old(mk)[o := old(mk)[o].(color := Gray)]
      ensures gray == if head.GrayHead? then [o] + old(gray) else old(gray)
      ensures Lists() == match head
                         case GrayHead => old(Lists())
                         case GrayAgainHead => old(Lists()).(grayagain := [o] + old(grayagain))
                         case WeakHead => old(Lists()).(weak := [o] + old(weak))
                         case AllWeakHead => old(Lists()).(allweak := [o] + old(allweak))
                         case EphemeronHead => old(Lists()).(eph := [o] + old(ephemeron))
    {
      match head {
        case GrayHead => gray := [o] + gray;
        case GrayAgainHead => grayagain := [o] + grayagain;
        case WeakHead => weak := [o] + weak;
        case AllWeakHead => allweak := [o] + allweak;
        case EphemeronHead => ephemeron := [o] + ephemeron;
      }
      mk := mk[o := mk[o].(color := Gray)];
    }

    /** genlink: objects touched in this cycle stay in a gray list for post-processing;
        those touched in the previous one become regular old. */
    method GenLink(o: Id)
      requires o in mk && mk[o].color.Black?
      modifies this`mk, this`gray, this`grayagain, this`weak, this`allweak, this`ephemeron
      ensures gray == old(gray)
      ensures old(mk)[o].age.Touched1? ==>
        mk == old(mk)[o := old(mk)[o].(color := Gray)] && Lists() == old(Lists()).(grayagain := [o] + old(grayagain))
      ensures !old(mk)[o].age.Touched1? ==>
        && Lists() == old(Lists())
        && mk == old(mk)[o := old(mk)[o].(age := if old(mk)[o].age.Touched2? then Old else old(mk)[o].age)]
    {
      if mk[o].age.Touched1? {
        LinkGcList(o, GrayAgainHead);
      } else if mk[o].age.Touched2? {
        mk := mk[o := mk[o].(age := Old)];
      } else {
        assert mk == mk[o := mk[o]];
      }
    }

    /** clearkey: a collectable key of an empty entry becomes dead. */
    method ClearKey(h: Id, i: nat, ghost c: set<Id>)
      requires MarkReady(c) && h in hp && hp[h].Table? && i < |hp[h].hash| && hp[h].hash[i].val == Nil
      modifies this`hp
      ensures MarkReady(c) && HeapShrunk(old(hp), hp)
      ensures hp == old(hp)[h := hp[h]] && hp[h].Table? && DeadKeysOnly(old(hp)[h], hp[h])
      ensures hp[h] == old(hp)[h].(hash := hp[h].hash) && |hp[h].hash| == |old(hp)[h].hash|
      ensures hp[h].hash[i].val == Nil && !hp[h].hash[i].key.Ref?
      ensures forall j :: 0 <= j < |hp[h].hash| && j != i ==> hp[h].hash[j] == old(hp)[h].hash[j]
    {
      if hp[h].hash[i].key.Ref? {
        hp := hp[h := hp[h].(hash := hp[h].hash[i := Entry(Nil, Nil)])];
      }
      ShrunkReady(old(hp), hp, c);
    }

    /** traversearray: true if some object was marked. */
    method TraverseArray(h: Id, ghost c: set<Id>) returns (marked: bool)
      requires MarkReady(c) && h in hp && hp[h].Table? && AllIn(hp[h].arr, c)
      modifies this`mk, this`gray
      ensures MarkReady(c)
      ensures Marking(hp, old(mk), old(gray), mk, gray)
      ensures AllIn(hp[h].arr, Marked(mk))
      ensures if marked then |Whites(mk)| < |Whites(old(mk))| else mk == old(mk) && gray == old(gray)
    {
      hide HeapReady, Marking;
      marked := false;
      MarkingNothing(hp, mk, gray);
      for i := 0 to |hp[h].arr|
        invariant MarkReady(c)
        invariant Marking(hp, old(mk), old(gray), mk, gray)
        invariant AllIn(hp[h].arr[..i], Marked(mk))
        invariant if marked then |Whites(mk)| < |Whites(old(mk))| else mk == old(mk) && gray == old(gray)
      {
        ghost var m1, g1 := mk, gray;
        MarkingGrows(hp, old(mk), old(gray), m1, g1);
        var v := hp[h].arr[i];
        if v.Ref? && mk[v.id].color.White? {
          marked := true;
          ReallyMarkObject(v.id, c);
          MarkingGrows(hp, m1, g1, mk, gray);
          MarkedLess(hp, m1, g1, mk, gray, v.id);
          MarkingTrans(hp, old(mk), old(gray), m1, g1, mk, gray);
        }
        assert hp[h].arr[..i + 1] == hp[h].arr[..i] + [v];
      }
      assert hp[h].arr[..|hp[h].arr|] == hp[h].arr;
    }

    /** Hash part of traversestrongtable: dead keys for empty entries, marks for the rest. */
    method TraverseStrongHash(h: Id, ghost c: set<Id>)
      requires MarkReady(c) && h in c && h in hp && hp[h].Table? && hp[h].mode.Strong?
      modifies this`hp, this`mk, this`gray
      ensures MarkReady(c)
      ensures Walk(h, old(hp), old(mk), old(gray), hp, mk, gray)
      ensures hp[h].Table? && KeysIn(hp[h].hash, Marked(mk)) && ValsIn(hp[h].hash, Marked(mk))
    {
      hide HeapReady, Marking, HeapShrunk, Walk, DeadKeysOnly, Marked, RefsIn, OnlyStrings, KeyAlive, IsStr;
      WalkStart(h, hp, mk, gray);
      for i := 0 to |hp[h].hash|
        invariant MarkReady(c)
        invariant Walk(h, old(hp), old(mk), old(gray), hp, mk, gray)
        invariant h in hp && hp[h].Table? && hp[h].mode.Strong? && |hp[h].hash| == |old(hp)[h].hash|
        invariant KeysIn(hp[h].hash[..i], Marked(mk)) && ValsIn(hp[h].hash[..i], Marked(mk))
      {
        ghost var h1, m1, g1 := hp, mk, gray;
        FollowEntry(hp, c, h, i);
        var n := hp[h].hash[i];
        if n.val == Nil {
          ClearKey(h, i, c);
          WalkClear(h, old(hp), old(mk), old(gray), h1, m1, g1, hp);
          assert hp[h].hash[..i] == h1[h].hash[..i];
        } else {
          MarkValue(n.key, c);
          WalkMark(h, old(hp), old(mk), old(gray), hp, m1, g1, mk, gray);
          ghost var m2, g2 := mk, gray;
          MarkValue(n.val, c);
          WalkMark(h, old(hp), old(mk), old(gray), hp, m2, g2, mk, gray);
        }
        assert hp[h].hash[..i + 1] == hp[h].hash[..i] + [hp[h].hash[i]];
      }
      assert hp[h].hash[..|hp[h].hash|] == hp[h].hash;
    }

    /** iscleared: strings are values, so they are marked and never cleared. */
    method IsCleared(v: Value, ghost c: set<Id>) returns (b: bool)
      requires MarkReady(c) && In(v, hp.Keys) && (IsStr(hp, v) ==> v.id in c)
      modifies this`mk
      ensures MarkReady(c)
      ensures Marking(hp, old(mk), gray, mk, gray)
      ensures b == !KeyAlive(hp, v, Marked(mk)) == !KeyAlive(hp, v, Marked(old(mk)))
      ensures !b ==> In(v, Marked(mk))
      ensures OnlyStrings(hp, old(mk), mk)
    {
      hide HeapReady, Marking;
      MarkingNothing(hp, mk, gray);
      if !v.Ref? {
        b := false;
      } else if hp[v.id].Str? {
        if mk[v.id].color.White? {
          ghost var m0 := mk;
          mk := mk[v.id := mk[v.id].(color := Black)];
          MarkingSelf(hp, m0, gray, v.id, Black, mk);
        }
        b := false;
      } else {
        b := mk[v.id].color.White?;
      }
    }

    /** Hash part of traverseweakvalue: keys are strong; reports whether some value has
        to be cleared later. */
    method TraverseWeakHash(h: Id, ghost c: set<Id>, start: bool) returns (hasclears: bool)
      requires MarkReady(c) && h in c && h in hp && hp[h].Table? && hp[h].mode.WeakValues?
      modifies this`hp, this`mk, this`gray
      ensures MarkReady(c)
      ensures Walk(h, old(hp), old(mk), old(gray), hp, mk, gray)
      ensures hp[h].Table? && KeysIn(hp[h].hash, Marked(mk))
      ensures !hasclears ==> !start && ValsIn(hp[h].hash, Marked(mk))
    {
      hide HeapReady, Marking, HeapShrunk, Walk, DeadKeysOnly, Marked, RefsIn, OnlyStrings, KeyAlive, IsStr;
      WalkStart(h, hp, mk, gray);
      hasclears := start;
      for i := 0 to |hp[h].hash|
        invariant MarkReady(c)
        invariant Walk(h, old(hp), old(mk), old(gray), hp, mk, gray)
        invariant h in hp && hp[h].Table? && hp[h].mode.WeakValues? && |hp[h].hash| == |old(hp)[h].hash|
        invariant KeysIn(hp[h].hash[..i], Marked(mk))
        invariant !hasclears ==> !start && ValsIn(hp[h].hash[..i], Marked(mk))
      {
        ghost var h1, m1, g1 := hp, mk, gray;
        FollowEntry(hp, c, h, i);
        var n := hp[h].hash[i];
        if n.val == Nil {
          ClearKey(h, i, c);
          WalkClear(h, old(hp), old(mk), old(gray), h1, m1, g1, hp);
          assert hp[h].hash[..i] == h1[h].hash[..i];
        } else {
          MarkValue(n.key, c);
          WalkMark(h, old(hp), old(mk), old(gray), hp, m1, g1, mk, gray);
          if !hasclears {
            ghost var m2, g2 := mk, gray;
            hasclears := IsCleared(n.val, c);
            WalkMark(h, old(hp), old(mk), old(gray), hp, m2, g2, mk, gray);
          }
        }
        assert hp[h].hash[..i + 1] == hp[h].hash[..i] + [hp[h].hash[i]];
      }
      assert hp[h].hash[..|hp[h].hash|] == hp[h].hash;
    }

    /** One node of traverseephemeron. `white`: the key is not marked (yet); `ww`: nor is
        the value; `marked`: the value was marked now. */
    method VisitEphemeronEntry(h: Id, k: nat, ghost c: set<Id>) returns (white: bool, ww: bool, marked: bool)
      requires MarkReady(c) && h in c && h in hp && hp[h].Table? && hp[h].mode.Ephemeron? && k < |hp[h].hash|
      modifies this`hp, this`mk, this`gray
      ensures MarkReady(c)
      ensures Walk(h, old(hp), old(mk), old(gray), hp, mk, gray)
      ensures hp[h].Table? && hp[h].mode.Ephemeron? && |hp[h].hash| == |old(hp)[h].hash|
      ensures forall j :: 0 <= j < |hp[h].hash| && j != k ==> hp[h].hash[j] == old(hp)[h].hash[j]
      ensures EntryPassed(hp, hp[h].hash[k], Marked(old(mk)), Marked(mk), white, ww)
      ensures ww ==> white
      ensures if marked then |Whites(mk)| < |Whites(old(mk))| else OnlyStrings(hp, old(mk), mk) && gray == old(gray)
    {
      hide HeapReady, Marking, HeapShrunk, Walk, DeadKeysOnly, RefsIn, IsStr, Whites;
      WalkStart(h, hp, mk, gray);
      white, ww, marked := false, false, false;
      FollowEntry(hp, c, h, k);
      var n := hp[h].hash[k];
      if n.val == Nil {
        ClearKey(h, k, c);
        WalkClear(h, old(hp), mk, gray, old(hp), mk, gray, hp);
      } else {
        white := IsCleared(n.key, c);
        ghost var m1 := mk;
        WalkMark(h, hp, old(mk), old(gray), hp, old(mk), old(gray), mk, gray);
        MarkingGrows(hp, old(mk), old(gray), mk, gray);
        if n.val.Ref? && mk[n.val.id].color.White? {
          if white {
            ww := true;
          } else {
            marked := true;
            ReallyMarkObject(n.val.id, c);
            WalkMark(h, hp, old(mk), old(gray), hp, m1, old(gray), mk, gray);
            MarkedLess(hp, m1, old(gray), mk, gray, n.val.id);
          }
        }
      }
    }

    /** Hash part of traverseephemeron, in either direction. */
    method TraverseEphemeronHash(h: Id, inv: bool, ghost c: set<Id>)
      returns (hasclears: bool, hasww: bool, marked: bool)
      requires MarkReady(c) && h in c && h in hp && hp[h].Table? && hp[h].mode.Ephemeron?
      modifies this`hp, this`mk, this`gray
      ensures MarkReady(c)
      ensures Walk(h, old(hp), old(mk), old(gray), hp, mk, gray)
      ensures hp[h].Table? && hp[h].mode.Ephemeron?
      ensures !hasclears ==> KeysIn(hp[h].hash, Marked(mk))
      ensures !hasww ==> ValsIn(hp[h].hash, Marked(mk))
      ensures hasww ==> hasclears
      ensures Converged(hp, h, Marked(old(mk)), Marked(mk))
      ensures if marked then |Whites(mk)| < |Whites(old(mk))| else OnlyStrings(hp, old(mk), mk) && gray == old(gray)
    {
      hide HeapReady, Marking, HeapShrunk, Walk, DeadKeysOnly, Marked, RefsIn, OnlyStrings, IsStr, Whites, KeyAlive;
      WalkStart(h, hp, mk, gray);
      OnlyStringsNone(hp, mk);
      hasclears, hasww, marked := false, false, false;
      ghost var s0 := Marked(mk);
      var nsize := |hp[h].hash|;
      for i := 0 to nsize
        invariant MarkReady(c)
        invariant Walk(h, old(hp), old(mk), old(gray), hp, mk, gray)
        invariant h in hp && hp[h].Table? && hp[h].mode.Ephemeron? && |hp[h].hash| == nsize
        invariant s0 <= Marked(mk)
        invariant forall j :: 0 <= j < nsize && Passed(j, i, nsize, inv) ==>
                    EntryPassed(hp, hp[h].hash[j], s0, Marked(mk), hasclears, hasww)
        invariant hasww ==> hasclears
        invariant if marked then |Whites(mk)| < |Whites(old(mk))| else OnlyStrings(hp, old(mk), mk) && gray == old(gray)
      {
        ghost var h1, m1, g1, c1, w1 := hp, mk, gray, hasclears, hasww;
        var k := if inv then nsize - 1 - i else i;
        var white, ww, m := VisitEphemeronEntry(h, k, c);
        WalkTrans(h, old(hp), old(mk), old(gray), h1, m1, g1, hp, mk, gray);
        WalkStrings(h, old(hp), old(mk), old(gray), h1, m1, g1, hp, mk, gray);
        hasclears, hasww, marked := hasclears || white, hasww || ww, marked || m;
        forall j | 0 <= j < nsize && Passed(j, i + 1, nsize, inv)
          ensures EntryPassed(hp, hp[h].hash[j], s0, Marked(mk), hasclears, hasww)
        {
          if j == k {
            EntryPassedMonotone(h1, hp, hp[h].hash[j], s0, Marked(m1), Marked(mk), Marked(mk), white, ww, hasclears,
              hasww);
          } else {
            EntryPassedMonotone(h1, hp, hp[h].hash[j], s0, s0, Marked(m1), Marked(mk), c1, w1, hasclears, hasww);
          }
        }
      }
    }

    /** The last act of every traverse function: link `h` into a list, or leave it black
        subject to genlink. */
    method Relink(h: Id, head: ListHead)
      requires h in mk && mk[h].color.Black?
      modifies this`mk, this`gray, this`grayagain, this`weak, this`allweak, this`ephemeron
      ensures gray == old(gray)
      ensures h in mk && mk == old(mk)[h := mk[h]] && mk[h].fin == old(mk)[h].fin
      ensures Relinked(h, old(Lists()), Lists())
      ensures mk[h].color == (if Lists() == old(Lists()) then Black else Gray)
      ensures mk[h].age == old(mk)[h].age || (old(mk)[h].age.Touched2? && mk[h].age.Old?)
      ensures Lists() == old(Lists()) ==> head.GrayHead? && !mk[h].age.Touched1? && !mk[h].age.Touched2?
      ensures head.GrayAgainHead? || (head.GrayHead? && Lists() != old(Lists())) ==>
        Lists() == old(Lists()).(grayagain := [h] + old(grayagain))
      ensures head.WeakHead? ==> weak == [h] + old(weak)
      ensures head.AllWeakHead? ==> allweak == [h] + old(allweak)
      ensures head.EphemeronHead? ==> ephemeron == [h] + old(ephemeron)
    {
      if head.GrayHead? {
        GenLink(h);
      } else {
        LinkGcList(h, head);
      }
    }

    /** Closing a visit that started with `o` black: link it and state what was reached. */
    method FinishVisit(o: Id, head: ListHead, ghost h0: Heap, ghost m0: Marks, ghost g0: seq<Id>)
      requires Walk(o, h0, m0, g0, hp, mk, gray) && o in m0 && m0[o].color.Black?
      requires hp[o].Table? || hp[o].Udata?
      requires Fits(gcstate.Atomic?, hp, o, Marked(mk), head)
      modifies this`mk, this`gray, this`grayagain, this`weak, this`allweak, this`ephemeron
      ensures Visit(gcstate.Atomic?, o, h0, m0, g0, old(Lists()), hp, mk, gray, Lists())
      ensures gray == old(gray) && mk.Keys == old(mk).Keys && Marked(mk) == Marked(old(mk))
        && Whites(mk) == Whites(old(mk))
      ensures o in mk && mk == old(mk)[o := mk[o]] && !mk[o].color.White?
    {
      hide Marking, HeapShrunk, DeadKeysOnly, Walk, Visit;
      ghost var m1 := mk;
      WalkColor(o, h0, m0, g0, hp, mk, gray);
      Relink(o, head);
      MarkedSame(m1, mk, o);
      VisitEnd(gcstate.Atomic?, o, h0, m0, g0, old(Lists()), hp, m1, gray, mk, Lists());
    }

    /** traverseephemeron: true iff some object was marked, which means convergence has
        to continue. */
    method TraverseEphemeron(h: Id, inv: bool, ghost c: set<Id>) returns (marked: bool)
      requires MarkReady(c) && h in c && h in hp && hp[h].Table? && hp[h].mode.Ephemeron?
      requires mk[h].color.Black? && In(hp[h].meta, Marked(mk)) && (gcstate.Propagate? || gcstate.Atomic?)
      modifies this`hp, this`mk, this`gray, this`grayagain, this`weak, this`allweak, this`ephemeron
      ensures MarkReady(c)
      ensures Visit(gcstate.Atomic?, h, old(hp), old(mk), old(gray), old(Lists()), hp, mk, gray, Lists())
      ensures Converged(hp, h, Marked(old(mk)), Marked(mk))
      ensures if marked then |Whites(mk)| < |Whites(old(mk))| else OnlyStrings(hp, old(mk), mk) && gray == old(gray)
    {
      hide HeapReady, Marking, HeapShrunk, DeadKeysOnly, OnlyStrings, IsStr, KeyAlive, Converged, Whites, Walk, Visit,
        Settled, Marked;
      var hasclears, hasww;
      hasclears, hasww, marked := MarkEphemeron(h, inv, c);
      ghost var m2 := mk;
      WalkColor(h, old(hp), old(mk), old(gray), hp, mk, gray);
      FinishVisit(h, if gcstate.Propagate? then GrayAgainHead else if hasww then EphemeronHead
                     else if hasclears then AllWeakHead else GrayHead, old(hp), old(mk), old(gray));
      OnlyStringsSame(hp, old(mk), m2, mk, h);
    }

    /** Both parts of an ephemeron table, before it is linked anywhere. */
    method MarkEphemeron(h: Id, inv: bool, ghost c: set<Id>) returns (hasclears: bool, hasww: bool, marked: bool)
      requires MarkReady(c) && h in c && h in hp && hp[h].Table? && hp[h].mode.Ephemeron?
      modifies this`hp, this`mk, this`gray
      ensures MarkReady(c)
      ensures Walk(h, old(hp), old(mk), old(gray), hp, mk, gray)
      ensures hp[h].Table? && hp[h].mode.Ephemeron? && hp[h].meta == old(hp)[h].meta
      ensures AllIn(hp[h].arr, Marked(mk))
      ensures !hasclears ==> KeysIn(hp[h].hash, Marked(mk))
      ensures !hasww ==> ValsIn(hp[h].hash, Marked(mk))
      ensures hasww ==> hasclears
      ensures Converged(hp, h, Marked(old(mk)), Marked(mk))
      ensures if marked then |Whites(mk)| < |Whites(old(mk))| else OnlyStrings(hp, old(mk), mk) && gray == old(gray)
    {
      hide HeapReady, Marking, HeapShrunk, OnlyStrings, IsStr, KeyAlive, Converged, Marked, Whites;
      FollowArray(hp, c, h);
      WalkStart(h, hp, mk, gray);
      marked := TraverseArray(h, c);
      ghost var m1, g1 := mk, gray;
      WalkMark(h, hp, old(mk), old(gray), hp, old(mk), old(gray), m1, g1);
      OnlyStringsNone(hp, m1);
      var m;
      hasclears, hasww, m := TraverseEphemeronHash(h, inv, c);
      WalkTrans(h, old(hp), old(mk), old(gray), old(hp), m1, g1, hp, mk, gray);
      WalkStrings(h, old(hp), old(mk), old(gray), old(hp), m1, g1, hp, mk, gray);
      ConvergedLess(hp, h, Marked(old(mk)), Marked(m1), Marked(mk));
      marked := marked || m;
    }

    method TraverseStrongTable(h: Id, ghost c: set<Id>)
      requires MarkReady(c) && h in c && h in hp && hp[h].Table? && hp[h].mode.Strong?
      requires mk[h].color.Black? && In(hp[h].meta, Marked(mk)) && (gcstate.Propagate? || gcstate.Atomic?)
      modifies this`hp, this`mk, this`gray, this`grayagain, this`weak, this`allweak, this`ephemeron
      ensures MarkReady(c)
      ensures Visit(gcstate.Atomic?, h, old(hp), old(mk), old(gray), old(Lists()), hp, mk, gray, Lists())
    {
      hide HeapReady, Marking, HeapShrunk, DeadKeysOnly, Walk, Visit, Marked, Whites;
      FollowArray(hp, c, h);
      WalkStart(h, hp, mk, gray);
      var _ := TraverseArray(h, c);
      ghost var m1, g1 := mk, gray;
      WalkMark(h, hp, old(mk), old(gray), hp, old(mk), old(gray), m1, g1);
      TraverseStrongHash(h, c);
      WalkSubset(h, old(hp), m1, g1, hp, mk, gray);
      WalkTrans(h, old(hp), old(mk), old(gray), old(hp), m1, g1, hp, mk, gray);
      FinishVisit(h, GrayHead, old(hp), old(mk), old(gray));
    }

    /** traverseweakvalue: an array part is assumed to hold something to clear. */
    method TraverseWeakValue(h: Id, ghost c: set<Id>)
      requires MarkReady(c) && h in c && h in hp && hp[h].Table? && hp[h].mode.WeakValues?
      requires mk[h].color.Black? && In(hp[h].meta, Marked(mk)) && (gcstate.Propagate? || gcstate.Atomic?)
      modifies this`hp, this`mk, this`gray, this`grayagain, this`weak, this`allweak, this`ephemeron
      ensures MarkReady(c)
      ensures Visit(gcstate.Atomic?, h, old(hp), old(mk), old(gray), old(Lists()), hp, mk, gray, Lists())
    {
      hide HeapReady, Marking, HeapShrunk, DeadKeysOnly, Walk, Visit, Marked, Whites;
      var hasclears := TraverseWeakHash(h, c, hp[h].arr != []);
      WalkSubset(h, old(hp), old(mk), old(gray), hp, mk, gray);
      FinishVisit(h, if gcstate.Propagate? then GrayAgainHead else if hasclears then WeakHead else GrayHead,
                  old(hp), old(mk), old(gray));
    }

    method TraverseTable(h: Id, ghost c: set<Id>)
      requires MarkReady(c) && h in c && h in hp && hp[h].Table?
      requires mk[h].color.Black? && (gcstate.Propagate? || gcstate.Atomic?)
      modifies this`hp, this`mk, this`gray, this`grayagain, this`weak, this`allweak, this`ephemeron
      ensures MarkReady(c)
      ensures Visit(gcstate.Atomic?, h, old(hp), old(mk), old(gray), old(Lists()), hp, mk, gray, Lists())
    {
      hide HeapReady, Marking, HeapShrunk, DeadKeysOnly, Walk, Visit, Marked, Whites, Fits;
      FollowIn(hp, c, h);
      MarkValue(hp[h].meta, c);
      MarkingGrows(hp, old(mk), old(gray), mk, gray);
      ghost var m1, g1 := mk, gray;
      MarkedKeeps(old(mk), m1, h);
      match hp[h].mode {
        case Strong => TraverseStrongTable(h, c);
        case WeakValues => TraverseWeakValue(h, c);
        case Ephemeron => var _ := TraverseEphemeron(h, false, c);
        case AllWeak =>
          WalkStart(h, hp, m1, g1);
          assert Fits(gcstate.Atomic?, hp, h, Marked(mk),
            if gcstate.Propagate? then GrayAgainHead
            else AllWeakHead) by { FitsAllWeak(gcstate.Atomic?, hp, h, Marked(mk)); }
          FinishVisit(h, if gcstate.Propagate? then GrayAgainHead else AllWeakHead, hp, m1, g1);
      }
      VisitAfter(gcstate.Atomic?, h, old(hp), old(mk), old(gray), m1, g1, old(Lists()), hp, mk, gray, Lists());
    }

    method TraverseUdata(u: Id, ghost c: set<Id>)
      requires MarkReady(c) && u in c && u in hp && hp[u].Udata?
      requires mk[u].color.Black? && (gcstate.Propagate? || gcstate.Atomic?)
      modifies this`hp, this`mk, this`gray, this`grayagain, this`weak, this`allweak, this`ephemeron
      ensures MarkReady(c)
      ensures Visit(gcstate.Atomic?, u, old(hp), old(mk), old(gray), old(Lists()), hp, mk, gray, Lists())
    {
      hide HeapReady, Marking, HeapShrunk, DeadKeysOnly, Walk, Visit, Marked, Whites;
      FollowIn(hp, c, u);
      FollowSlots(hp, c, u);
      MarkValue(hp[u].meta, c);
      ghost var m1, g1 := mk, gray;
      MarkSlots(hp[u].uvs, c);
      MarkingGrows(hp, m1, g1, mk, gray);
      MarkingTrans(hp, old(mk), old(gray), m1, g1, mk, gray);
      WalkStart(u, hp, old(mk), old(gray));
      WalkMark(u, hp, old(mk), old(gray), hp, old(mk), old(gray), mk, gray);
      FinishVisit(u, GrayHead, hp, old(mk), old(gray));
    }

    /** traverseLclosure, traverseCclosure and traverseproto: never linked back. */
    method TraverseClosure(o: Id, ghost c: set<Id>)
      requires MarkReady(c) && o in c && o in hp && hp[o].Closure?
      requires mk[o].color.Black? && (gcstate.Propagate? || gcstate.Atomic?)
      modifies this`mk, this`gray
      ensures MarkReady(c)
      ensures Visit(gcstate.Atomic?, o, old(hp), old(mk), old(gray), old(Lists()), hp, mk, gray, Lists())
    {
      hide HeapReady, Marking, HeapShrunk, DeadKeysOnly, Walk, Visit, Marked, Whites;
      FollowSlots(hp, c, o);
      MarkSlots(hp[o].refs, c);
      MarkingGrows(hp, old(mk), old(gray), mk, gray);
      MarkedKeeps(old(mk), mk, o);
      WalkStart(o, hp, old(mk), old(gray));
      WalkMark(o, hp, old(mk), old(gray), hp, old(mk), old(gray), mk, gray);
      assert mk == mk[o := mk[o]];
      VisitEnd(gcstate.Atomic?, o, hp, old(mk), old(gray), Lists(), hp, mk, gray, mk, Lists());
    }

    /** Marks every value of an array of slots. */
    method MarkSlots(vs: seq<Value>, ghost c: set<Id>)
      requires MarkReady(c) && AllIn(vs, c)
      modifies this`mk, this`gray
      ensures MarkReady(c)
      ensures Marking(hp, old(mk), old(gray), mk, gray)
      ensures AllIn(vs, Marked(mk))
    {
      hide HeapReady, Marking, Marked, Whites;
      MarkingNothing(hp, mk, gray);
      for i := 0 to |vs|
        invariant MarkReady(c)
        invariant Marking(hp, old(mk), old(gray), mk, gray)
        invariant AllIn(vs[..i], Marked(mk))
      {
        ghost var m1, g1 := mk, gray;
        MarkValue(vs[i], c);
        MarkingGrows(hp, m1, g1, mk, gray);
        MarkingTrans(hp, old(mk), old(gray), m1, g1, mk, gray);
        assert vs[..i + 1] == vs[..i] + [vs[i]];
      }
      assert vs[..|vs|] == vs;
    }

    /** traversethread: a thread that is not new, or is visited before the atomic phase,
        goes back to `grayagain`; the atomic visit puts it back in `twups` if it has
        open upvalues. */
    method TraverseThread(th: Id, ghost c: set<Id>)
      requires MarkReady(c) && th in c && th in hp && hp[th].Thread?
      requires mk[th].color.Black? && (gcstate.Propagate? || gcstate.Atomic?)
      modifies this`mk, this`gray, this`grayagain, this`weak, this`allweak, this`ephemeron, this`twups
      ensures MarkReady(c)
      ensures Visit(gcstate.Atomic?, th, old(hp), old(mk), old(gray), old(Lists()), hp, mk, gray, Lists())
      ensures twups == if gcstate.Atomic? && th !in old(twups)
        && hp[th].upvals != [] then [th] + old(twups) else old(twups)
    {
      hide HeapReady, Marking, HeapShrunk, DeadKeysOnly, Walk, Visit, Whites, Marked;
      FollowSlots(hp, c, th);
      if mk[th].age.IsOld() || gcstate.Propagate? {
        LinkGcList(th, GrayAgainHead);
      }
      ghost var m1, g1 := mk, gray;
      assert m1 == old(mk)[th := m1[th]];
      MarkedSame(old(mk), m1, th);
      MarkSlots(hp[th].stack, c);
      ghost var m2, g2 := mk, gray;
      MarkUpvals(hp[th].upvals, c);
      MarkingGrows(hp, m1, g1, m2, g2);
      MarkingGrows(hp, m2, g2, mk, gray);
      MarkingTrans(hp, m1, g1, m2, g2, mk, gray);
      MarkingAside(hp, th, old(mk), m1, old(gray), mk, gray);
      ThreadVisit(gcstate.Atomic?, th, hp, old(mk), old(gray), old(Lists()), m1, mk, gray, Lists());
      if gcstate.Atomic? && th !in twups && hp[th].upvals != [] {
        twups := [th] + twups;
      }
    }

    /** The list of open upvalues of a thread. */
    method MarkUpvals(us: seq<Id>, ghost c: set<Id>)
      requires MarkReady(c) && forall i :: 0 <= i < |us| ==> us[i] in c
      modifies this`mk, this`gray
      ensures MarkReady(c)
      ensures Marking(hp, old(mk), old(gray), mk, gray)
      ensures forall i :: 0 <= i < |us| ==> us[i] in Marked(mk)
    {
      hide HeapReady, Marking, Marked, Whites;
      MarkingNothing(hp, mk, gray);
      for i := 0 to |us|
        invariant MarkReady(c)
        invariant Marking(hp, old(mk), old(gray), mk, gray)
        invariant forall j :: 0 <= j < i ==> us[j] in Marked(mk)
      {
        ghost var m1, g1 := mk, gray;
        MarkValue(Ref(us[i]), c);
        MarkingGrows(hp, m1, g1, mk, gray);
        MarkingTrans(hp, old(mk), old(gray), m1, g1, mk, gray);
      }
    }

    /** propagatemark: visit the first gray object. */
    method PropagateMark(ghost c: set<Id>)
      requires MarkReady(c) && gray != [] && gray[0] in Marked(mk) && NeedsVisit(hp[gray[0]])
      requires gcstate.Propagate? || gcstate.Atomic?
      modifies this`hp, this`mk, this`gray, this`grayagain, this`weak, this`allweak, this`ephemeron, this`twups
      ensures MarkReady(c)
      ensures var o := old(gray)[0];
        && Visit(gcstate.Atomic?, o, old(hp), Blackened(old(mk), o), old(gray)[1..], old(Lists()), hp, mk, gray,
          Lists())
        && twups == if gcstate.Atomic? && old(hp)[o].Thread? && o !in old(twups)
          && old(hp)[o].upvals != [] then [o] + old(twups) else old(twups)
    {
      hide HeapReady, Marking, HeapShrunk, Walk, Visit, Whites;
      var o := gray[0];
      mk := mk[o := mk[o].(color := Black)];
      MarkedSame(old(mk), mk, o);
      gray := gray[1..];
      match hp[o] {
        case Table(_, _, _, _) => TraverseTable(o, c);
        case Udata(_, _) => TraverseUdata(o, c);
        case Closure(_) => TraverseClosure(o, c);
        case Thread(_, _) => TraverseThread(o, c);
        case _ => assert false;
      }
    }

    /** The atomic phase so far: everything marked has been visited or waits in `gray` or
        among `saved`; threads in `unchecked` may still hide values of open upvalues. */
    ghost predicate Atomically(c: set<Id>, saved: set<Id>, unchecked: set<Id>)
      reads this
    {
      && MarkReady(c) && gcstate.Atomic?
      && AtomicInv(hp, mk, gray, saved, Lists(), unchecked)
      && TwupsInv(hp, mk, gray, saved, twups)
    }

    method PropagateAll(ghost c: set<Id>, ghost saved: set<Id>, ghost unchecked: set<Id>)
      requires Atomically(c, saved, unchecked)
      modifies this`hp, this`mk, this`gray, this`grayagain, this`weak, this`allweak, this`ephemeron, this`twups
      ensures Atomically(c, saved, unchecked) && gray == []
      ensures Progress(old(hp), old(mk), hp, mk)
      ensures old(gray) == [] ==> mk == old(mk) && hp == old(hp) && Lists() == old(Lists()) && twups == old(twups)
      ensures ListsGrow(old(Lists()), Lists()) && TwupsFrom(old(twups), twups, mk)
    {
      hide HeapReady, Marking, HeapShrunk, Visit, Whites, Marked, AtomicInv, TwupsInv, Progress, ListsGrow, TwupsFrom;
      ProgressNone(hp, mk);
      ListsGrowSelf(Lists(), Lists());
      TwupsFromVisit(0, twups, twups, mk);
      while gray != []
        invariant Atomically(c, saved, unchecked)
        invariant Progress(old(hp), old(mk), hp, mk)
        invariant old(gray) == [] ==>
          mk == old(mk) && hp == old(hp) && Lists() == old(Lists()) && twups == old(twups) && gray == []
        invariant ListsGrow(old(Lists()), Lists()) && TwupsFrom(old(twups), twups, mk)
        decreases |Whites(mk)|, |gray|
      {
        ghost var o, h0, mb, g0, k0, t0 := gray[0], hp, mk, gray[1..], Lists(), twups;
        assert gray == [o] + g0;
        AtomicHead(hp, mk, o, g0, saved, Lists(), unchecked, twups);
        ghost var m0 := Blackened(mk, o);
        ReadyWellFormed(hp, c);
        PropagateMark(c);
        AtomicVisit(o, h0, m0, g0, k0, hp, mk, gray, Lists(), saved, unchecked);
        TwupsVisit(o, h0, m0, g0, k0, hp, mk, gray, Lists(), saved, t0, twups);
        VisitProgress(o, h0, mb, g0, k0, hp, mk, gray, Lists());
        ProgressTrans(old(hp), old(mk), h0, mb, hp, mk);
        VisitLists(o, h0, m0, g0, k0, hp, mk, gray, Lists());
        ListsGrowTrans(old(Lists()), k0, Lists());
        VisitMarked(o, h0, mb, g0, k0, hp, mk, gray, Lists());
        TwupsFromVisit(o, t0, twups, mk);
        TwupsFromTrans(old(twups), t0, mb, twups, mk);
      }
    }

    /** Marks since `mr` were strings only, and every table put back in `ephemeron` has
        converged for the marks of `mr`. */
    ghost predicate Quiet(mr: Marks)
      reads this
    {
      && mr.Keys == mk.Keys && Marked(mr) <= Marked(mk) && OnlyStrings(hp, mr, mk)
      && forall x :: x in ephemeron ==> Converged(hp, x, Marked(mr), Marked(mk))
    }

    /** One table of a pass: taken off its list, painted black and traversed. */
    method VisitWaiting(next: seq<Id>, dir: bool, ghost c: set<Id>, ghost mr: Marks, ghost quiet: bool)
      returns (marked: bool)
      requires next != [] && Atomically(c, Elements(next), {}) && gray == [] && EphemeronsWait(hp, mk, next)
        && NoneTwice(next)
      requires quiet ==> Quiet(mr)
      modifies this`hp, this`mk, this`gray, this`grayagain, this`weak, this`allweak, this`ephemeron
      ensures Atomically(c, Elements(next[1..]), {}) && EphemeronsWait(hp, mk, next[1..]) && NoneTwice(next[1..])
      ensures Progress(old(hp), old(mk), hp, mk)
      ensures if marked then |Whites(mk)| < |Whites(old(mk))| else gray == [] && (quiet ==> Quiet(mr))
      ensures ListsGrow(old(Lists()), Lists())
    {
      hide HeapReady, Marking, HeapShrunk, Visit, Whites, Marked, AtomicInv, TwupsInv, Progress, Converged, Settled,
        OnlyStrings, RefsIn;
      var w := next[0];
      PassNext(hp, mk, next, Lists(), twups);
      ReadyWellFormed(hp, c);
      mk := mk[w := mk[w].(color := Black)];
      ghost var m0 := mk;
      MarkedSame(old(mk), m0, w);
      marked := TraverseEphemeron(w, dir, c);
      AtomicVisit(w, old(hp), m0, [], old(Lists()), hp, mk, gray, Lists(), Elements(next[1..]), {});
      TwupsVisit(w, old(hp), m0, [], old(Lists()), hp, mk, gray, Lists(), Elements(next[1..]), twups, twups);
      VisitProgress(w, old(hp), old(mk), [], old(Lists()), hp, mk, gray, Lists());
      WaitKept(old(hp), old(mk), hp, mk, next);
      ProgressWhites(old(hp), old(mk), hp, mk);
      VisitLists(w, old(hp), m0, [], old(Lists()), hp, mk, gray, Lists());
      if quiet && !marked {
        PassConverged(w, old(hp), mr, old(mk), old(Lists()), hp, mk, gray, Lists());
      }
    }

    /** One pass of convergeephemerons over the tables waiting in `ephemeron`. */
    method EphemeronPass(dir: bool, ghost c: set<Id>) returns (changed: bool)
      requires Atomically(c, {}, {}) && gray == []
      modifies this`hp, this`mk, this`gray, this`grayagain, this`weak, this`allweak, this`ephemeron, this`twups
      ensures Atomically(c, {}, {}) && gray == []
      ensures Progress(old(hp), old(mk), hp, mk)
      ensures changed ==> |Whites(mk)| < |Whites(old(mk))|
      ensures |Whites(mk)| <= |Whites(old(mk))|
      ensures ListsGrow(old(Lists()), Lists()) && TwupsFrom(old(twups), twups, mk)
      ensures !changed ==> forall x :: x in ephemeron ==> Converged(hp, x, Marked(mk), Marked(mk))
    {
      hide HeapReady, Marking, HeapShrunk, Visit, Whites, Marked, AtomicInv, TwupsInv, Progress, Converged, Settled,
        OnlyStrings, RefsIn, EphemeronsWait, ListsGrow, TwupsFrom;
      var next := ephemeron;
      ephemeron := [];
      changed := false;
      ListsGrowSelf(old(Lists()), Lists());
      TwupsFromVisit(0, twups, twups, mk);
      PassStart(hp, mk, next, Links(grayagain, weak, allweak, next), twups);
      ProgressNone(hp, mk);
      OnlyStringsNone(hp, mk);
      while next != []
        invariant Atomically(c, Elements(next), {}) && gray == []
        invariant Progress(old(hp), old(mk), hp, mk)
        invariant EphemeronsWait(hp, mk, next) && NoneTwice(next)
        invariant ListsGrow(old(Lists()), Lists()) && TwupsFrom(old(twups), twups, mk)
        invariant |Whites(mk)| <= |Whites(old(mk))|
        invariant if changed then |Whites(mk)| < |Whites(old(mk))| else Quiet(old(mk))
        decreases |next|
      {
        ghost var h0, m0, k0 := hp, mk, Lists();
        var m := VisitWaiting(next, dir, c, old(mk), !changed);
        ListsGrowTrans(old(Lists()), k0, Lists());
        ProgressWhites(h0, m0, hp, mk);
        TwupsFromVisit(0, twups, twups, mk);
        TwupsFromTrans(old(twups), twups, m0, twups, mk);
        ProgressTrans(old(hp), old(mk), h0, m0, hp, mk);
        ProgressWhites(h0, m0, hp, mk);
        next := next[1..];
        if m {
          changed := true;
          ghost var h1, m1, k1, t1 := hp, mk, Lists(), twups;
          PropagateAll(c, Elements(next), {});
          ListsGrowTrans(old(Lists()), k1, Lists());
          ProgressWhites(h1, m1, hp, mk);
          TwupsFromTrans(old(twups), t1, m1, twups, mk);
          ProgressTrans(old(hp), old(mk), h1, m1, hp, mk);
          ProgressWhites(h1, m1, hp, mk);
          WaitKept(h1, m1, hp, mk, next);
        }
      }
      assert Elements(next) == {};
      if !changed {
        forall x | x in ephemeron ensures Converged(hp, x, Marked(mk), Marked(mk)) {
          ConvergedByStrings(hp, old(mk), mk, x);
        }
      }
    }

    /** convergeephemerons: passes in alternating direction until one marks nothing. */
    method ConvergeEphemerons(ghost c: set<Id>)
      requires Atomically(c, {}, {}) && gray == []
      modifies this`hp, this`mk, this`gray, this`grayagain, this`weak, this`allweak, this`ephemeron, this`twups
      ensures Atomically(c, {}, {}) && gray == []
      ensures Progress(old(hp), old(mk), hp, mk)
      ensures ListsGrow(old(Lists()), Lists()) && TwupsFrom(old(twups), twups, mk)
      ensures forall x :: x in ephemeron ==> Converged(hp, x, Marked(mk), Marked(mk))
      ensures StrongClosed(hp, Marked(mk))
    {
      hide HeapReady, Marking, HeapShrunk, Visit, Whites, Marked, AtomicInv, TwupsInv, Progress, Converged, ListsGrow,
        TwupsFrom;
      var changed, dir := true, false;
      ProgressNone(hp, mk);
      ListsGrowSelf(Lists(), Lists());
      TwupsFromVisit(0, twups, twups, mk);
      while changed
        invariant Atomically(c, {}, {}) && gray == []
        invariant Progress(old(hp), old(mk), hp, mk)
        invariant ListsGrow(old(Lists()), Lists()) && TwupsFrom(old(twups), twups, mk)
        invariant !changed ==> forall x :: x in ephemeron ==> Converged(hp, x, Marked(mk), Marked(mk))
        decreases |Whites(mk)|, changed
      {
        ghost var h1, m1, k1, t1 := hp, mk, Lists(), twups;
        changed := EphemeronPass(dir, c);
        ListsGrowTrans(old(Lists()), k1, Lists());
        ProgressWhites(h1, m1, hp, mk);
        TwupsFromTrans(old(twups), t1, m1, twups, mk);
        ProgressTrans(old(hp), old(mk), h1, m1, hp, mk);
        dir := !dir;
      }
      ReadyWellFormed(hp, c);
      AtomicStrongClosed(hp, mk, Lists());
    }

    /** Marks `v` within the atomic phase. */
    method AtomicMarkValue(v: Value, ghost c: set<Id>, ghost saved: set<Id>, ghost unchecked: set<Id>)
      requires Atomically(c, saved, unchecked) && In(v, c)
      modifies this`mk, this`gray
      ensures Atomically(c, saved, unchecked) && In(v, Marked(mk))
      ensures Marking(hp, old(mk), old(gray), mk, gray)
      ensures Progress(hp, old(mk), hp, mk)
    {
      hide HeapReady, Marked, AtomicInv, TwupsInv;
      ReadyWellFormed(hp, c);
      MarkValue(v, c);
      AtomicMark(hp, old(mk), old(gray), mk, gray, saved, Lists(), unchecked);
      TwupsMark(hp, old(mk), old(gray), mk, gray, saved, twups);
      MarkingProgress(hp, old(mk), old(gray), mk, gray);
    }

    /** The open upvalues of a thread that is not marked: those already visited get their
        values marked, as the thread will not do it. */
    method RemarkThread(t: Id, ghost c: set<Id>, ghost saved: set<Id>, ghost unchecked: set<Id>)
      requires Atomically(c, saved, unchecked) && t in hp && hp[t].Thread?
      modifies this`mk, this`gray
      ensures Atomically(c, saved, unchecked - {t})
      ensures Progress(hp, old(mk), hp, mk)
      ensures t in Marked(mk) ==> t in Marked(old(mk)) || t in gray
    {
      hide HeapReady, AtomicInv, TwupsInv, Progress, RefsIn, Marking, UpvalFine;
      ProgressNone(hp, mk);
      ReadyWellFormed(hp, c);
      for i := 0 to |hp[t].upvals|
        invariant Atomically(c, saved, unchecked)
        invariant Progress(hp, old(mk), hp, mk)
        invariant t in Marked(mk) ==> t in Marked(old(mk)) || t in gray
        invariant forall j ::
          0 <= j < i && hp[t].upvals[j] in Marked(mk) && hp[t].upvals[j] in hp && hp[hp[t].upvals[j]].OpenUpval? ==>
                    UpvalFine(hp, hp[t].upvals[j], Marked(mk), gray, saved, unchecked - {t})
      {
        var uv := hp[t].upvals[i];
        ghost var m1, g1 := mk, gray;
        if !mk[uv].color.White? {
          FollowIn(hp, c, uv);
          AtomicMarkValue(SlotValue(hp, hp[uv].th, hp[uv].slot), c, saved, unchecked);
          ProgressTrans(hp, old(mk), hp, m1, hp, mk);
          SlotMarked(hp, uv, Marked(mk), gray, saved, unchecked - {t});
          ThreadGray(hp, m1, g1, mk, gray, t);
          forall j | 0 <= j < i && hp[t].upvals[j] in Marked(mk) && hp[t].upvals[j] in hp
            && hp[hp[t].upvals[j]].OpenUpval?
            ensures UpvalFine(hp, hp[t].upvals[j], Marked(mk), gray, saved, unchecked - {t})
          {
            UpvalFineMark(hp, m1, g1, mk, gray, hp[t].upvals[j], saved, unchecked - {t});
          }
        }
      }
      AtomicChecked(hp, mk, gray, saved, Lists(), unchecked, t);
    }

    /** remarkupvals: keeps marked threads with open upvalues in `twups`; the others are
        removed, after a barrier between each visited upvalue and its value. */
    method RemarkUpvals(ghost c: set<Id>, ghost saved: set<Id>)
      requires Atomically(c, saved, Elements(twups))
      modifies this`mk, this`gray, this`twups
      ensures Atomically(c, saved, {})
      ensures Progress(hp, old(mk), hp, mk)
      ensures forall t :: t in twups ==> t in Marked(mk)
    {
      hide HeapReady, AtomicInv, TwupsInv, Progress, RefsIn, Marking, UpvalFine;
      ProgressNone(hp, mk);
      var i := 0;
      while i < |twups|
        invariant 0 <= i <= |twups|
        invariant Atomically(c, saved, Elements(twups[i..]))
        invariant Progress(hp, old(mk), hp, mk)
        invariant forall j :: 0 <= j < i ==> twups[j] in Marked(mk)
        decreases |twups| - i
      {
        var t := twups[i];
        TwupsMember(hp, mk, gray, saved, twups, t);
        ghost var m1, tail := mk, twups[i + 1..];
        assert Elements(twups[i..]) - {t} <= Elements(tail) && twups[i..] == [t] + tail;
        assert twups == twups[..i] + [t] + tail;
        if !mk[t].color.White? && hp[t].upvals != [] {
          AtomicMarked(hp, mk, gray, saved, Lists(), Elements(twups[i..]), Elements(tail), t);
          i := i + 1;
        } else {
          RemarkThread(t, c, saved, Elements(twups[i..]));
          ProgressTrans(hp, old(mk), hp, m1, hp, mk);
          AtomicUnchecked(hp, mk, gray, saved, Lists(), Elements(twups[i..]) - {t}, Elements(tail));
          TwupsRemoved(hp, mk, gray, saved, twups, twups[..i], tail, t);
          twups := twups[..i] + twups[i + 1..];
          assert twups[i..] == tail;
        }
        ProgressWhites(hp, m1, hp, mk);
      }
      assert Elements(twups[i..]) == {};
    }

    /** One node of clearbykeys or clearbyvalues. */
    method ClearEntry(h: Id, i: nat, byKey: bool, ghost c: set<Id>, ghost s: set<Id>)
      requires MarkReady(c) && h in c && h in hp && hp[h].Table? && !hp[h].mode.Strong? && i < |hp[h].hash|
      requires s <= Marked(mk)
      modifies this`hp, this`mk
      ensures MarkReady(c) && Clearing(h, s, old(hp), old(mk), hp, mk, gray)
      ensures hp[h].Table? && |hp[h].hash| == |old(hp)[h].hash|
      ensures forall j :: 0 <= j < |hp[h].hash| && j != i ==> hp[h].hash[j] == old(hp)[h].hash[j]
      ensures In(if byKey then hp[h].hash[i].key else hp[h].hash[i].val, Marked(mk))
    {
      hide HeapReady, Marking, HeapShrunk, RefsIn, OnlyStrings, WeakLoss, Clearing, KeyAlive, IsStr, DeadKeysOnly;
      FollowEntry(hp, c, h, i);
      var n := hp[h].hash[i];
      var cleared := IsCleared(if byKey then n.key else n.val, c);
      MarkingGrows(hp, old(mk), gray, mk, gray);
      AliveLess(hp, if byKey then n.key else n.val, s, Marked(mk));
      if cleared {
        hp := hp[h := hp[h].(hash := hp[h].hash[i := Entry(n.key, Nil)])];
        ClearOne(h, i, s, old(hp), hp);
        MarkingShrunk(old(hp), hp, old(mk), gray, mk, gray);
        ShrunkReady(old(hp), hp, c);
      } else {
        ClearNone(h, s, hp);
      }
      ghost var h1 := hp;
      if hp[h].hash[i].val == Nil {
        ClearKey(h, i, c);
        ClearTrans(h, s, old(hp), h1, hp);
        MarkingShrunk(h1, hp, old(mk), gray, mk, gray);
      }
      ClearingStep(h, s, old(hp), old(mk), hp, mk, gray);
    }

    /** clearbykeys on one table. */
    method ClearKeysOf(h: Id, ghost c: set<Id>, ghost s: set<Id>)
      requires MarkReady(c) && h in c && h in hp && hp[h].Table? && !hp[h].mode.Strong? && s <= Marked(mk)
      modifies this`hp, this`mk
      ensures MarkReady(c) && Clearing(h, s, old(hp), old(mk), hp, mk, gray)
      ensures KeysDone(hp, h, Marked(mk))
    {
      hide HeapReady, Marking, HeapShrunk, RefsIn, Clearing, Marked;
      ClearingStart(h, s, hp, mk, gray);
      for i := 0 to |hp[h].hash|
        invariant MarkReady(c) && Clearing(h, s, old(hp), old(mk), hp, mk, gray)
        invariant h in hp && hp[h].Table? && !hp[h].mode.Strong? && |hp[h].hash| == |old(hp)[h].hash|
        invariant s <= Marked(mk)
        invariant KeysIn(hp[h].hash[..i], Marked(mk))
      {
        ghost var h1, m1 := hp, mk;
        ClearEntry(h, i, true, c, s);
        ClearingTrans(h, s, old(hp), old(mk), h1, m1, hp, mk, gray);
        assert hp[h].hash[..i] == h1[h].hash[..i];
        assert hp[h].hash[..i + 1] == hp[h].hash[..i] + [hp[h].hash[i]];
      }
      assert hp[h].hash[..|hp[h].hash|] == hp[h].hash;
    }

    /** clearbyvalues on one table: array part, then hash part. */
    method ClearValuesOf(h: Id, ghost c: set<Id>, ghost s: set<Id>)
      requires MarkReady(c) && h in c && h in hp && hp[h].Table? && !hp[h].mode.Strong? && s <= Marked(mk)
      modifies this`hp, this`mk
      ensures MarkReady(c) && Clearing(h, s, old(hp), old(mk), hp, mk, gray)
      ensures ValuesDone(hp, h, Marked(mk))
    {
      hide HeapReady, Marking, HeapShrunk, RefsIn, Clearing, Marked;
      ClearArrayOf(h, c, s);
      ClearingFacts(h, s, old(hp), old(mk), hp, mk, gray);
      for i := 0 to |hp[h].hash|
        invariant MarkReady(c) && Clearing(h, s, old(hp), old(mk), hp, mk, gray)
        invariant h in hp && hp[h].Table? && !hp[h].mode.Strong? && |hp[h].hash| == |old(hp)[h].hash|
        invariant s <= Marked(mk)
        invariant AllIn(hp[h].arr, Marked(mk)) && ValsIn(hp[h].hash[..i], Marked(mk))
      {
        ghost var h1, m1 := hp, mk;
        ClearEntry(h, i, false, c, s);
        ClearingTrans(h, s, old(hp), old(mk), h1, m1, hp, mk, gray);
        assert hp[h].hash[..i] == h1[h].hash[..i];
        assert hp[h].hash[..i + 1] == hp[h].hash[..i] + [hp[h].hash[i]];
      }
      assert hp[h].hash[..|hp[h].hash|] == hp[h].hash;
    }

    method ClearArrayOf(h: Id, ghost c: set<Id>, ghost s: set<Id>)
      requires MarkReady(c) && h in c && h in hp && hp[h].Table? && !hp[h].mode.Strong? && s <= Marked(mk)
      modifies this`hp, this`mk
      ensures MarkReady(c) && Clearing(h, s, old(hp), old(mk), hp, mk, gray)
      ensures hp[h].Table? && AllIn(hp[h].arr, Marked(mk))
    {
      hide HeapReady, Marking, HeapShrunk, RefsIn, Clearing, Marked, OnlyStrings;
      ClearingStart(h, s, hp, mk, gray);
      for i := 0 to |hp[h].arr|
        invariant MarkReady(c) && Clearing(h, s, old(hp), old(mk), hp, mk, gray)
        invariant h in hp && hp[h].Table? && !hp[h].mode.Strong? && |hp[h].arr| == |old(hp)[h].arr|
        invariant s <= Marked(mk)
        invariant AllIn(hp[h].arr[..i], Marked(mk))
      {
        ghost var h1, m1 := hp, mk;
        FollowArray(hp, c, h);
        var v := hp[h].arr[i];
        var cleared := IsCleared(v, c);
        MarkingGrows(hp, m1, gray, mk, gray);
        if cleared {
          AliveLess(hp, v, s, Marked(mk));
          hp := hp[h := hp[h].(arr := hp[h].arr[i := Nil])];
          ClearSlot(h, i, s, h1, hp);
          MarkingShrunk(h1, hp, m1, gray, mk, gray);
          ShrunkReady(h1, hp, c);
        } else {
          ClearNone(h, s, hp);
        }
        ClearingStep(h, s, h1, m1, hp, mk, gray);
        ClearingTrans(h, s, old(hp), old(mk), h1, m1, hp, mk, gray);
        assert hp[h].arr[..i + 1] == h1[h].arr[..i] + [hp[h].arr[i]];
      }
      assert hp[h].arr[..|hp[h].arr|] == hp[h].arr;
    }

    /** One weak table cleared within the atomic phase. */
    method AtomicClear(h: Id, byKey: bool, ghost c: set<Id>, ghost s: set<Id>)
      requires Atomically(c, {}, {}) && s <= Marked(mk) && h in Marked(mk) && hp[h].Table? && !hp[h].mode.Strong?
      modifies this`hp, this`mk
      ensures Atomically(c, {}, {}) && Cleared(s, old(hp), old(mk), hp, mk)
      ensures if byKey then KeysDone(hp, h, Marked(mk)) else ValuesDone(hp, h, Marked(mk))
      ensures HeapShrunk(old(hp), hp) && OnlyStrings(hp, old(mk), mk)
      ensures forall x ::
        Converged(old(hp), x, Marked(old(mk)), Marked(old(mk))) ==> Converged(hp, x, Marked(mk), Marked(mk))
    {
      hide HeapReady, HeapShrunk, AtomicInv, TwupsInv, Marked, Clearing, Cleared, KeysDone, ValuesDone, Converged,
        OnlyStrings;
      if byKey {
        ClearKeysOf(h, c, s);
      } else {
        ClearValuesOf(h, c, s);
      }
      ReadyWellFormed(hp, c);
      AtomicClearing(h, s, old(hp), old(mk), hp, mk, gray, Lists(), twups);
      ClearingCleared(h, s, old(hp), old(mk), hp, mk, gray);
      ClearingConverged(h, s, old(hp), old(mk), hp, mk, gray);
      ClearingStrings(h, s, old(hp), old(mk), hp, mk, gray);
    }

    /** clearbykeys over a list of weak tables. */
    method ClearByKeys(l: seq<Id>, ghost c: set<Id>, ghost s: set<Id>)
      requires Atomically(c, {}, {}) && s <= Marked(mk) && WeakTables(hp, Marked(mk), l)
      modifies this`hp, this`mk
      ensures Atomically(c, {}, {}) && Cleared(s, old(hp), old(mk), hp, mk)
      ensures forall x :: x in l ==> KeysDone(hp, x, Marked(mk))
      ensures forall x ::
        Converged(old(hp), x, Marked(old(mk)), Marked(old(mk))) ==> Converged(hp, x, Marked(mk), Marked(mk))
    {
      hide HeapReady, HeapShrunk, AtomicInv, TwupsInv, Marked, Cleared, Progress, KeysDone, ValuesDone, Converged;
      ProgressNone(hp, mk);
      ProgressCleared(s, hp, mk, hp, mk);
      for i := 0 to |l|
        invariant Atomically(c, {}, {}) && Cleared(s, old(hp), old(mk), hp, mk)
        invariant s <= Marked(mk) && WeakTables(hp, Marked(mk), l)
        invariant forall j :: 0 <= j < i ==> KeysDone(hp, l[j], Marked(mk))
        invariant forall x ::
          Converged(old(hp), x, Marked(old(mk)), Marked(old(mk))) ==> Converged(hp, x, Marked(mk), Marked(mk))
      {
        ghost var h1, m1 := hp, mk;
        AtomicClear(l[i], true, c, s);
        ClearedFacts(s, h1, m1, hp, mk);
        ClearedTrans(s, old(hp), old(mk), h1, m1, hp, mk);
      }
    }

    /** clearbyvalues over a list of weak tables. */
    method ClearByValues(l: seq<Id>, ghost c: set<Id>, ghost s: set<Id>)
      requires Atomically(c, {}, {}) && s <= Marked(mk) && WeakTables(hp, Marked(mk), l)
      modifies this`hp, this`mk
      ensures Atomically(c, {}, {}) && Cleared(s, old(hp), old(mk), hp, mk)
      ensures forall x :: x in l ==> ValuesDone(hp, x, Marked(mk))
      ensures OnlyStrings(hp, old(mk), mk)
      ensures forall x ::
        Converged(old(hp), x, Marked(old(mk)), Marked(old(mk))) ==> Converged(hp, x, Marked(mk), Marked(mk))
    {
      hide HeapReady, HeapShrunk, AtomicInv, TwupsInv, Marked, Cleared, Progress, KeysDone, ValuesDone, Converged,
        OnlyStrings;
      ProgressNone(hp, mk);
      ProgressCleared(s, hp, mk, hp, mk);
      OnlyStringsNone(hp, mk);
      for i := 0 to |l|
        invariant Atomically(c, {}, {}) && Cleared(s, old(hp), old(mk), hp, mk)
        invariant s <= Marked(mk) && WeakTables(hp, Marked(mk), l) && OnlyStrings(hp, old(mk), mk)
        invariant forall j :: 0 <= j < i ==> ValuesDone(hp, l[j], Marked(mk))
        invariant forall x ::
          Converged(old(hp), x, Marked(old(mk)), Marked(old(mk))) ==> Converged(hp, x, Marked(mk), Marked(mk))
      {
        ghost var h1, m1 := hp, mk;
        AtomicClear(l[i], false, c, s);
        ClearedFacts(s, h1, m1, hp, mk);
        ClearedFacts(s, old(hp), old(mk), h1, m1);
        ClearedTrans(s, old(hp), old(mk), h1, m1, hp, mk);
        OnlyStringsShrunk(h1, hp, old(mk), m1);
        OnlyStringsTrans(hp, old(mk), m1, mk);
      }
    }

    /** separatetobefnz: unmarked objects (or all) before `finobjold1` leave `finobj` and
        are appended to `tobefnz`; `k` objects are looked at. */
    method SeparateToBeFnz(all: bool) returns (ghost k: nat)
      requires forall x :: x in ls.finobj ==> x in mk
      modifies this`ls, this`ptr
      ensures Separated(Marked(mk), all, old(ls.finobj), k, ls.finobj, old(ls.tobefnz), ls.tobefnz)
      ensures ls == old(ls).(finobj := ls.finobj, tobefnz := ls.tobefnz) && ptr == old(ptr).(finobjsur := ptr.finobjsur)
      ensures k == |old(ls.finobj)| || ptr.finobjold1 == To(old(ls.finobj)[k])
      ensures forall j :: 0 <= j < k ==> ptr.finobjold1 != To(old(ls.finobj)[j])
      ensures SurMoved(Marked(mk), all, old(ls.finobj), k, old(ptr).finobjsur, ls.finobj, ptr.finobjsur)
    {
      hide Separated, Stay, Leave, SurMoved;
      ghost var fin0, tob0 := ls.finobj, ls.tobefnz;
      SeparatedStart(Marked(mk), all, fin0, tob0);
      SurStart(Marked(mk), all, fin0, ptr.finobjsur);
      var i := 0;
      k := 0;
      while i < |ls.finobj| && ptr.finobjold1 != To(ls.finobj[i])
        invariant 0 <= k <= |fin0| && i == |Stay(Marked(mk), all, fin0[..k])| && i <= |ls.finobj|
          && (i < |ls.finobj| <==> k < |fin0|)
        invariant Separated(Marked(mk), all, fin0, k, ls.finobj, tob0, ls.tobefnz)
        invariant ls == old(ls).(finobj := ls.finobj, tobefnz := ls.tobefnz)
          && ptr == old(ptr).(finobjsur := ptr.finobjsur)
        invariant forall j :: 0 <= j < k ==> ptr.finobjold1 != To(fin0[j])
        invariant SurMoved(Marked(mk), all, fin0, k, old(ptr).finobjsur, ls.finobj, ptr.finobjsur)
        decreases |fin0| - k
      {
        SeparatedStep(Marked(mk), all, fin0, k, ls.finobj, tob0, ls.tobefnz);
        i := SeparateOne(all, i, k, fin0, tob0, old(ptr).finobjsur);
        k := k + 1;
        SeparatedStep(Marked(mk), all, fin0, k, ls.finobj, tob0, ls.tobefnz);
      }
      SeparatedStep(Marked(mk), all, fin0, k, ls.finobj, tob0, ls.tobefnz);
    }

    /** The object at position `i` of `finobj` stays there, or joins those to be finalized. */
    method SeparateOne(all: bool, i: nat, ghost k: nat, ghost fin0: seq<Id>, ghost tob0: seq<Id>, ghost sur0: Pointer)
      returns (n: nat)
      requires Separated(Marked(mk), all, fin0, k, ls.finobj, tob0, ls.tobefnz)
      requires SurMoved(Marked(mk), all, fin0, k, sur0, ls.finobj, ptr.finobjsur)
      requires k < |fin0| && i == |Stay(Marked(mk), all, fin0[..k])| && fin0[k] in mk
      modifies this`ls, this`ptr
      ensures n == |Stay(Marked(mk), all, fin0[..k + 1])|
      ensures Separated(Marked(mk), all, fin0, k + 1, ls.finobj, tob0, ls.tobefnz)
      ensures SurMoved(Marked(mk), all, fin0, k + 1, sur0, ls.finobj, ptr.finobjsur)
      ensures ls == old(ls).(finobj := ls.finobj, tobefnz := ls.tobefnz) && ptr == old(ptr).(finobjsur := ptr.finobjsur)
    {
      hide Separated, Stay, Leave, SurMoved;
      n := i;
      SurStep(Marked(mk), all, fin0, k, ls.finobj, tob0, ls.tobefnz, sur0, ptr.finobjsur);
      SeparatedStep(Marked(mk), all, fin0, k, ls.finobj, tob0, ls.tobefnz);
      var curr := ls.finobj[i];
      if !(mk[curr].color.White? || all) {
        n := n + 1;
      } else {
        if ptr.finobjsur == To(curr) {
          ptr := ptr.(finobjsur := if i + 1 < |ls.finobj| then To(ls.finobj[i + 1]) else Null);
        }
        ls := ls.(finobj := ls.finobj[..i] + ls.finobj[i + 1..], tobefnz := ls.tobefnz + [curr]);
      }
    }

    /** Marking within the atomic phase keeps what holds in it. */
    lemma StillAtomic(c: set<Id>, saved: set<Id>, unchecked: set<Id>, m0: Marks, g0: seq<Id>)
      requires MarkReady(c) && gcstate.Atomic?
      requires AtomicInv(hp, m0, g0, saved, Lists(), unchecked) && TwupsInv(hp, m0, g0, saved, twups)
      requires Marking(hp, m0, g0, mk, gray)
      ensures Atomically(c, saved, unchecked) && Progress(hp, m0, hp, mk)
    {
      hide HeapReady, Marked, AtomicInv, TwupsInv;
      ReadyWellFormed(hp, c);
      AtomicMark(hp, m0, g0, mk, gray, saved, Lists(), unchecked);
      TwupsMark(hp, m0, g0, mk, gray, saved, twups);
      MarkingProgress(hp, m0, g0, mk, gray);
    }

    /** markbeingfnz: objects to be finalized are marked. */
    method MarkBeingFnz(ghost c: set<Id>)
      requires MarkReady(c) && forall x :: x in ls.tobefnz ==> x in c
      modifies this`mk, this`gray
      ensures MarkReady(c) && Marking(hp, old(mk), old(gray), mk, gray)
      ensures forall x :: x in ls.tobefnz ==> x in Marked(mk)
    {
      hide HeapReady, Marked, Marking;
      MarkingNothing(hp, mk, gray);
      for i := 0 to |ls.tobefnz|
        invariant MarkReady(c) && Marking(hp, old(mk), old(gray), mk, gray)
        invariant forall j :: 0 <= j < i ==> ls.tobefnz[j] in Marked(mk)
      {
        ghost var m1, g1 := mk, gray;
        MarkValue(Ref(ls.tobefnz[i]), c);
        MarkingTrans(hp, old(mk), old(gray), m1, g1, mk, gray);
        MarkingGrows(hp, m1, g1, mk, gray);
      }
    }

    /** markmt: metatables of basic types. */
    method MarkMt(ghost c: set<Id>)
      requires MarkReady(c) && AllIn(an.mt, c)
      modifies this`mk, this`gray
      ensures MarkReady(c) && Marking(hp, old(mk), old(gray), mk, gray)
      ensures AllIn(an.mt, Marked(mk))
    {
      hide HeapReady, Marked, Marking;
      MarkingNothing(hp, mk, gray);
      for i := 0 to |an.mt|
        invariant MarkReady(c) && Marking(hp, old(mk), old(gray), mk, gray)
        invariant AllIn(an.mt[..i], Marked(mk))
      {
        ghost var m1, g1 := mk, gray;
        MarkValue(an.mt[i], c);
        MarkingTrans(hp, old(mk), old(gray), m1, g1, mk, gray);
        MarkingGrows(hp, m1, g1, mk, gray);
        assert an.mt[..i + 1] == an.mt[..i] + [an.mt[i]];
      }
      assert an.mt[..|an.mt|] == an.mt;
    }

    /** The roots the atomic phase marks directly are in `c`. */
    ghost predicate RootsIn(c: set<Id>)
      reads this
    {
      an.running in c && In(an.registry, c) && AllIn(an.mt, c)
    }

    /** What the atomic phase relies on when it starts. */
    ghost predicate AtomicReady(c: set<Id>)
      reads this
    {
      && MarkReady(c) && RootsIn(c)
      && weak == [] && allweak == [] && ephemeron == [] && NoneTwice(grayagain)
      && AtomicInv(hp, mk, gray, Elements(grayagain), Links([], [], [], []), Elements(twups))
      && TwupsInv(hp, mk, gray, Elements(grayagain), twups)
    }

    /** First half of atomic: marks everything strongly reachable and nothing else. */
    method AtomicMarkPhase(ghost c: set<Id>)
      requires AtomicReady(c)
      modifies this`hp, this`mk, this`gray, this`grayagain, this`weak, this`allweak, this`ephemeron, this`twups,
        this`gcstate
      ensures Atomically(c, {}, {}) && gray == []
      ensures Progress(old(hp), old(mk), hp, mk)
      ensures forall x :: x in ephemeron ==> Converged(hp, x, Marked(mk), Marked(mk))
      ensures StrongClosed(hp, Marked(mk)) && RootsIn(Marked(mk))
      ensures forall t :: t in twups ==> t in Marked(mk)
    {
      hide HeapReady, HeapShrunk, AtomicInv, TwupsInv, Progress, Converged, StrongClosed, ListsGrow, Marked, Marking;
      var saved := grayagain;
      ghost var ss, u0 := Elements(saved), Elements(twups);
      grayagain := [];
      gcstate := Atomic;
      AtomicMarkValue(Ref(an.running), c, ss, u0);
      ghost var m1 := mk;
      AtomicMarkValue(an.registry, c, ss, u0);
      ghost var m2 := mk;
      ghost var g2 := gray;
      MarkMt(c);
      StillAtomic(c, ss, u0, m2, g2);
      Progress3(hp, old(mk), hp, m1, hp, m2, hp, mk);
      RootsAfter(c, ss, u0, old(hp), old(mk));
      AtomicGrayAgain(saved, c, old(hp), old(mk));
    }

    /** Roots are marked: propagate, then look at threads for upvalues, then propagate. */
    method RootsAfter(ghost c: set<Id>, ghost ss: set<Id>, ghost u0: set<Id>, ghost h0: Heap, ghost m0: Marks)
      requires Atomically(c, ss, u0) && u0 == Elements(twups) && Progress(h0, m0, hp, mk) && RootsIn(Marked(mk))
      modifies this`hp, this`mk, this`gray, this`grayagain, this`weak, this`allweak, this`ephemeron, this`twups
      ensures Atomically(c, ss, {}) && gray == [] && Progress(h0, m0, hp, mk) && RootsIn(Marked(mk))
      ensures forall t :: t in twups ==> t in Marked(mk)
    {
      hide HeapReady, HeapShrunk, AtomicInv, TwupsInv, Progress, ListsGrow, Marked;
      ghost var h1, m1 := hp, mk;
      PropagateAll(c, ss, u0);
      ProgressTrans(h0, m0, h1, m1, hp, mk);
      ProgressWhites(h1, m1, hp, mk);
      AtomicUnchecked(hp, mk, gray, ss, Lists(), u0, Elements(twups));
      ghost var h2, m2 := hp, mk;
      RemarkUpvals(c, ss);
      ProgressTrans(h0, m0, h2, m2, hp, mk);
      ProgressWhites(h2, m2, hp, mk);
      ghost var h3, m3 := hp, mk;
      PropagateAll(c, ss, {});
      ProgressTrans(h0, m0, h3, m3, hp, mk);
      ProgressWhites(h3, m3, hp, mk);
    }

    /** The saved `grayagain` list becomes the gray list; then ephemerons converge. */
    method AtomicGrayAgain(saved: seq<Id>, ghost c: set<Id>, ghost h0: Heap, ghost m0: Marks)
      requires Atomically(c, Elements(saved), {}) && gray == [] && Progress(h0, m0, hp, mk) && RootsIn(Marked(mk))
        && NoneTwice(saved)
      requires forall t :: t in twups ==> t in Marked(mk)
      modifies this`hp, this`mk, this`gray, this`grayagain, this`weak, this`allweak, this`ephemeron, this`twups
      ensures Atomically(c, {}, {}) && gray == [] && Progress(h0, m0, hp, mk) && RootsIn(Marked(mk))
      ensures forall x :: x in ephemeron ==> Converged(hp, x, Marked(mk), Marked(mk))
      ensures StrongClosed(hp, Marked(mk))
      ensures forall t :: t in twups ==> t in Marked(mk)
    {
      hide HeapReady, HeapShrunk, AtomicInv, TwupsInv, Progress, Converged, StrongClosed, ListsGrow, Marked;
      AtomicUnsave(hp, mk, saved, Elements(saved), Lists(), {}, twups);
      gray := saved;
      ghost var h1, m1 := hp, mk;
      PropagateAll(c, {}, {});
      ProgressTrans(h0, m0, h1, m1, hp, mk);
      ProgressWhites(h1, m1, hp, mk);
      ghost var h2, m2 := hp, mk;
      ConvergeEphemerons(c);
      ProgressTrans(h0, m0, h2, m2, hp, mk);
      ProgressWhites(h2, m2, hp, mk);
    }

    /** First clearing of values, before objects are set aside for finalization. */
    method ClearWeakValues(ghost c: set<Id>, ghost s: set<Id>)
      requires Atomically(c, {}, {}) && s == Marked(mk)
      modifies this`hp, this`mk
      ensures Atomically(c, {}, {}) && Cleared(s, old(hp), old(mk), hp, mk)
      ensures forall x :: x in weak || x in allweak ==> ValuesDone(hp, x, Marked(mk))
      ensures OnlyStrings(hp, old(mk), mk)
    {
      hide HeapReady, HeapShrunk, AtomicInv, TwupsInv, Marked, Cleared, ValuesDone, KeysDone, WeakTables, Converged,
        OnlyStrings;
      ListedTables(hp, mk, gray, Lists());
      ClearByValues(weak, c, s);
      ghost var h1, m1 := hp, mk;
      ClearedFacts(s, old(hp), old(mk), h1, m1);
      ClearByValues(allweak, c, s);
      ClearedFacts(s, h1, m1, hp, mk);
      ClearedTrans(s, old(hp), old(mk), h1, m1, hp, mk);
      OnlyStringsShrunk(h1, hp, old(mk), m1);
      OnlyStringsTrans(hp, old(mk), m1, mk);
    }

    /** Second half of atomic: objects to be finalized are resurrected, and entries of
        weak tables with dead objects are removed. */
    method AtomicResurrect(ghost c: set<Id>, ghost s: set<Id>, ghost h0: Heap, ghost m0: Marks)
      requires Atomically(c, {}, {}) && gray == [] && s <= Marked(mk) && Cleared(s, h0, m0, hp, mk)
      requires forall x :: x in weak || x in allweak ==> ValuesDone(hp, x, Marked(mk))
      requires forall x :: x in ls.tobefnz ==> x in c
      requires forall t :: t in twups ==> t in Marked(mk)
      modifies this`hp, this`mk, this`gray, this`grayagain, this`weak, this`allweak, this`ephemeron, this`twups
      ensures Atomically(c, {}, {}) && gray == [] && s <= Marked(mk) && Cleared(s, h0, m0, hp, mk)
      ensures forall x :: x in ls.tobefnz ==> x in Marked(mk)
      ensures forall t :: t in twups ==> t in Marked(mk)
      ensures forall o :: o in Marked(mk) ==> o in hp && RefsIn(hp, hp[o], Marked(mk))
    {
      hide HeapReady, HeapShrunk, AtomicInv, TwupsInv, Progress, Marked, Cleared, ValuesDone, KeysDone, WeakTables,
        Converged, RefsIn, ListsGrow, StrongClosed;
      var origweak, origall := weak, allweak;
      ghost var k0 := Lists();
      MarkResurrected(c, s, h0, m0);
      ClearResurrected(|origweak|, |origall|, c, s, h0, m0, k0);
    }

    /** Objects to be finalized and all they reach. */
    method MarkResurrected(ghost c: set<Id>, ghost s: set<Id>, ghost h0: Heap, ghost m0: Marks)
      requires Atomically(c, {}, {}) && gray == [] && s <= Marked(mk) && Cleared(s, h0, m0, hp, mk)
      requires forall x :: x in weak || x in allweak ==> ValuesDone(hp, x, Marked(mk))
      requires forall x :: x in ls.tobefnz ==> x in c
      requires forall t :: t in twups ==> t in Marked(mk)
      modifies this`hp, this`mk, this`gray, this`grayagain, this`weak, this`allweak, this`ephemeron, this`twups
      ensures Atomically(c, {}, {}) && gray == [] && s <= Marked(mk) && Cleared(s, h0, m0, hp, mk)
      ensures ListsGrow(old(Lists()), Lists())
      ensures forall x :: x in old(weak) || x in old(allweak) ==> ValuesDone(hp, x, Marked(mk))
      ensures forall x :: x in ephemeron ==> Converged(hp, x, Marked(mk), Marked(mk))
      ensures forall x :: x in ls.tobefnz ==> x in Marked(mk)
      ensures forall t :: t in twups ==> t in Marked(mk)
    {
      hide HeapReady, HeapShrunk, AtomicInv, TwupsInv, Progress, Marked, Cleared, ValuesDone, KeysDone, WeakTables,
        Converged, ListsGrow, StrongClosed;
      MarkBeingFnz(c);
      StillAtomic(c, {}, {}, old(mk), old(gray));
      ProgressWhites(hp, old(mk), hp, mk);
      ghost var h1, m1, k1 := hp, mk, Lists();
      PropagateAll(c, {}, {});
      ProgressWhites(h1, m1, hp, mk);
      ghost var h2, m2, k2 := hp, mk, Lists();
      ConvergeEphemerons(c);
      ProgressWhites(h2, m2, hp, mk);
      Progress3(old(hp), old(mk), h1, m1, h2, m2, hp, mk);
      ListsGrowTrans(k1, k2, Lists());
      ProgressCleared(s, old(hp), old(mk), hp, mk);
      ClearedFacts(s, old(hp), old(mk), hp, mk);
      ClearedTrans(s, h0, m0, old(hp), old(mk), hp, mk);
    }

    /** Last clearing: keys everywhere, values of the tables listed since the first one. */
    method ClearResurrected(oldweak: nat, oldall: nat, ghost c: set<Id>, ghost s: set<Id>, ghost h0: Heap,
            ghost m0: Marks, ghost k0: Links)
      requires Atomically(c, {}, {}) && gray == [] && s <= Marked(mk) && Cleared(s, h0, m0, hp, mk)
      requires ListsGrow(k0, Lists()) && oldweak == |k0.weak| && oldall == |k0.allweak|
      requires forall x :: x in k0.weak || x in k0.allweak ==> ValuesDone(hp, x, Marked(mk))
      requires forall x :: x in ephemeron ==> Converged(hp, x, Marked(mk), Marked(mk))
      modifies this`hp, this`mk
      ensures Atomically(c, {}, {}) && s <= Marked(mk) && Cleared(s, h0, m0, hp, mk) && Marked(old(mk)) <= Marked(mk)
      ensures forall o :: o in Marked(mk) ==> o in hp && RefsIn(hp, hp[o], Marked(mk))
    {
      hide HeapReady, HeapShrunk, AtomicInv, TwupsInv, Marked, Cleared, ValuesDone, KeysDone, WeakTables, Converged,
        RefsIn, ListsGrow;
      GrowTails(k0, Lists());
      var newweak, newall := |weak| - oldweak, |allweak| - oldall;
      ListedTables(hp, mk, gray, Lists());
      ClearByKeys(ephemeron, c, s);
      ghost var h1, m1 := hp, mk;
      ClearedFacts(s, old(hp), old(mk), h1, m1);
      ClearByKeys(allweak, c, s);
      ghost var h2, m2 := hp, mk;
      ClearedFacts(s, h1, m1, h2, m2);
      ClearedTrans(s, h0, m0, old(hp), old(mk), h1, m1);
      ClearedTrans(s, h0, m0, h1, m1, h2, m2);
      PrefixTables(h2, m2, weak, newweak);
      ClearByValues(weak[..newweak], c, s);
      ghost var h3, m3 := hp, mk;
      ClearedFacts(s, h2, m2, h3, m3);
      ClearedTrans(s, h0, m0, h2, m2, h3, m3);
      PrefixTables(h3, m3, allweak, newall);
      ClearByValues(allweak[..newall], c, s);
      ClearedFacts(s, h3, m3, hp, mk);
      ClearedTrans(s, h0, m0, h3, m3, hp, mk);
      assert weak == weak[..newweak] + k0.weak && allweak == allweak[..newall] + k0.allweak;
      ReadyWellFormed(hp, c);
      AllLive(hp, mk, Lists());
    }

    /** atomic, up to the separation of the objects to be finalized. */
    method AtomicSeparate(ghost c: set<Id>, ghost c2: set<Id>) returns (ghost strong: set<Id>, ghost k: nat)
      requires AtomicReady(c)
      requires Enclosed(hp, c2) && c <= c2 <= hp.Keys && (forall x :: x in ls.finobj || x in ls.tobefnz ==> x in c2)
      requires forall x :: x in ls.finobj ==> !hp[x].Str?
      modifies this`hp, this`mk, this`gray, this`grayagain, this`weak, this`allweak, this`ephemeron, this`twups
      modifies this`gcstate, this`ls, this`ptr
      ensures Atomically(c2, {}, {}) && gray == []
      ensures StrongClosed(old(hp), strong) && RootsIn(strong) && Marked(old(mk)) <= strong <= c
      ensures Cleared(strong, old(hp), old(mk), hp, mk) && strong <= Marked(mk)
      ensures Separated(strong, false, old(ls.finobj), k, ls.finobj, old(ls.tobefnz), ls.tobefnz)
      ensures ls == old(ls).(finobj := ls.finobj, tobefnz := ls.tobefnz) && ptr == old(ptr).(finobjsur := ptr.finobjsur)
      ensures k == |old(ls.finobj)| || ptr.finobjold1 == To(old(ls.finobj)[k])
      ensures forall j :: 0 <= j < k ==> ptr.finobjold1 != To(old(ls.finobj)[j])
      ensures SurMoved(strong, false, old(ls.finobj), k, old(ptr).finobjsur, ls.finobj, ptr.finobjsur)
      ensures forall x :: x in ls.tobefnz ==> x in c2
      ensures forall x :: x in weak || x in allweak ==> ValuesDone(hp, x, Marked(mk))
      ensures forall t :: t in twups ==> t in Marked(mk)
    {
      hide HeapReady, HeapShrunk, AtomicInv, TwupsInv, Progress, Converged, StrongClosed, ListsGrow, Marked, Cleared,
        KeysDone, ValuesDone, RefsIn, Enclosed, Separated, WeakTables, OnlyStrings, AtomicReady, SurMoved;
      ReadyKeys(c);
      AtomicMarkPhase(c);
      strong := Marked(mk);
      ghost var h1, m1 := hp, mk;
      AfterMarkPhase(old(hp), old(mk), h1, m1);
      ClearWeakValues(c, strong);
      ClearedTrans(strong, old(hp), old(mk), h1, m1, hp, mk);
      ClearedFacts(strong, h1, m1, hp, mk);
      ClearedFacts(strong, old(hp), old(mk), hp, mk);
      ReadyLarger(old(hp), hp, mk, c, c2);
      k := SeparateToBeFnz(false);
      ShapesKept(old(hp), hp);
      SeparatedByStrong(hp, m1, mk, old(ls.finobj), k, ls.finobj, old(ls.tobefnz), ls.tobefnz);
      SurByStrong(hp, m1, mk, old(ls.finobj), k, old(ptr).finobjsur, ls.finobj, ptr.finobjsur);
    }

    lemma ReadyKeys(c: set<Id>)
      requires AtomicReady(c)
      ensures hp.Keys == mk.Keys && Marked(mk) <= c
    {
    }

    /** atomic: marks everything strongly reachable (`strong`), clears values of weak
        tables, resurrects the objects to be finalized with all they reach, removes dead
        objects from weak tables, and flips the current white. */
    method AtomicStep(ghost c: set<Id>, ghost c2: set<Id>) returns (ghost strong: set<Id>, ghost k: nat)
      requires AtomicReady(c)
      requires Enclosed(hp, c2) && c <= c2 <= hp.Keys && (forall x :: x in ls.finobj || x in ls.tobefnz ==> x in c2)
      requires forall x :: x in ls.finobj ==> !hp[x].Str?
      modifies this`hp, this`mk, this`gray, this`grayagain, this`weak, this`allweak, this`ephemeron, this`twups
      modifies this`gcstate, this`ls, this`ptr, this`currentwhite
      ensures gcstate.Atomic? && gray == [] && currentwhite == !old(currentwhite) && MarkReady(c2)
      // what `strong` is
      ensures StrongClosed(old(hp), strong) && RootsIn(strong) && Marked(old(mk)) <= strong <= c
      // entries leave weak tables only for mentioning an object outside `strong`
      ensures Cleared(strong, old(hp), old(mk), hp, mk) && strong <= Marked(mk)
      // finalizable objects outside `strong` are set aside and resurrected
      ensures Separated(strong, false, old(ls.finobj), k, ls.finobj, old(ls.tobefnz), ls.tobefnz)
      ensures ls == old(ls).(finobj := ls.finobj, tobefnz := ls.tobefnz) && ptr == old(ptr).(finobjsur := ptr.finobjsur)
      ensures k == |old(ls.finobj)| || ptr.finobjold1 == To(old(ls.finobj)[k])
      ensures forall j :: 0 <= j < k ==> ptr.finobjold1 != To(old(ls.finobj)[j])
      ensures SurMoved(strong, false, old(ls.finobj), k, old(ptr).finobjsur, ls.finobj, ptr.finobjsur)
      ensures forall x :: x in ls.tobefnz ==> x in Marked(mk)
      // everything marked refers to marked objects only
      ensures forall o :: o in Marked(mk) ==> o in hp && RefsIn(hp, hp[o], Marked(mk))
      ensures TwupsInv(hp, mk, [], {}, twups) && forall t :: t in twups ==> t in Marked(mk)
      // what still has to be looked at is in a list, once
      ensures Listed(hp, mk, [], {}, Lists())
    {
      hide HeapReady, AtomicInv, StrongClosed, Marked, Cleared, ValuesDone, RefsIn, Enclosed, Separated, AtomicReady,
        TwupsInv, SurMoved, Listed;
      strong, k := AtomicSeparate(c, c2);
      AtomicResurrect(c2, strong, old(hp), old(mk));
      StillListed(hp, mk, Lists());
      currentwhite := !currentwhite;
    }
  }
}
