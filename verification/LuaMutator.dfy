/** What a running program does to the heap between steps of the collector: allocation,
    stores with their barriers, stack writes without one, and upvalues. */
module LuaMutator {
  import opened LuaHeap
  import opened LuaMarks
  import opened LuaLists
  import opened LuaTricolor
  import opened LuaGc
  import opened LuaState
  import opened LuaGen
  import opened LuaSweep

  /** The objects that the fields of `ob` refer to; an open upvalue has its value in the
      stack of its thread. */
  function RefSet(ob: Object): set<Id> {
    match ob
    case Str => {}
    case OpenUpval(_, _) => {}
    case ClosedUpval(v) => ValueSet([v])
    case Udata(meta, uvs) => ValueSet([meta]) + ValueSet(uvs)
    case Table(meta, _, arr, hash) =>
      ValueSet([meta]) + ValueSet(arr)
      + (set i | 0 <= i < |hash| && hash[i].key.Ref? :: hash[i].key.id)
      + (set i | 0 <= i < |hash| && hash[i].val.Ref? :: hash[i].val.id)
    case Closure(refs) => ValueSet(refs)
    case Thread(stack, upvals) => ValueSet(stack) + Elements(upvals)
  }

  lemma RefSetIn(hp: Heap, ob: Object, s: set<Id>)
    requires !ob.OpenUpval?
    ensures RefsIn(hp, ob, s) <==> RefSet(ob) <= s
  {
    match ob
    case ClosedUpval(v) => ValueSetIn([v], s);
    case Udata(meta, uvs) => ValueSetIn([meta], s); ValueSetIn(uvs, s);
    case Table(meta, _, arr, hash) =>
      ValueSetIn([meta], s);
      ValueSetIn(arr, s);
      assert KeysIn(hash, s) <==> (set i | 0 <= i < |hash| && hash[i].key.Ref? :: hash[i].key.id) <= s;
      assert ValsIn(hash, s) <==> (set i | 0 <= i < |hash| && hash[i].val.Ref? :: hash[i].val.id) <= s;
    case Closure(refs) => ValueSetIn(refs, s);
    case Thread(stack, upvals) => ValueSetIn(stack, s);
    case _ =>
  }

  lemma ValueSetIn(vs: seq<Value>, s: set<Id>)
    ensures AllIn(vs, s) <==> ValueSet(vs) <= s
    ensures |vs| == 1 ==> (In(vs[0], s) <==> ValueSet(vs) <= s)
  {
    if ValueSet(vs) <= s {
      forall i | 0 <= i < |vs| ensures In(vs[i], s) {
        if vs[i].Ref? { assert vs[i].id in ValueSet(vs); }
      }
    }
  }

  /** `b` may replace `a`: the same type of object, with the same number of user values
      and the same open upvalues, all of them still inside the stack. */
  predicate Replaces(hp: Heap, a: Object, b: Object) {
    match a
    case ClosedUpval(_) => b.ClosedUpval?
    case Udata(_, uvs) => b.Udata? && |b.uvs| == |uvs|
    case Table(_, _, _, _) => b.Table?
    case Closure(_) => b.Closure?
    case Thread(_, upvals) =>
      b.Thread? && b.upvals == upvals
      && forall i :: 0 <= i < |upvals| ==> upvals[i] in hp && hp[upvals[i]].OpenUpval? && hp[upvals[i]].slot < |b.stack|
    case _ => false
  }

  predicate MetaIsTable(hp: Heap, ob: Object) {
    (ob.Table? || ob.Udata?) && ob.meta.Ref? ==> ob.meta.id in hp && hp[ob.meta.id].Table?
  }

  /** New contents for a live object, made of live objects, keep the base invariant. */
  lemma BaseStore(s: State, o: Id, ob: Object)
    requires Base(s) && o in Live(s) && o in s.hp && Replaces(s.hp, s.hp[o], ob)
    requires RefSet(ob) <= Live(s) && MetaIsTable(s.hp, ob)
    ensures Base(s.(hp := s.hp[o := ob])) && Live(s.(hp := s.hp[o := ob])) == Live(s)
  {
    hide UpvalsOk, MetasOk, LiveClosed, Partition, TwupsOk, KindsOk, RefSet, Roots;
    var h1 := s.hp[o := ob];
    PartitionKeys(s.hp, h1, s.ls);
    StoreUpvals(s.hp, o, ob);
    StoreClosed(s.hp, o, ob, Live(s));
    StoreKinds(s, o, ob);
    assert Live(s.(hp := h1)) == Live(s);
    assert Roots(s.(hp := h1)) == Roots(s) by { RootsSame(s, s.(hp := h1)); }
  }

  lemma RootsSame(s: State, t: State)
    requires t.ls == s.ls && t.an == s.an
    ensures Roots(t) == Roots(s)
  {
  }

  lemma StoreUpvals(hp: Heap, o: Id, ob: Object)
    requires UpvalsOk(hp) && o in hp && Replaces(hp, hp[o], ob)
    ensures UpvalsOk(hp[o := ob])
  {
    var h1 := hp[o := ob];
    forall u | u in h1 && h1[u].OpenUpval?
      ensures h1[u].th in h1 && h1[h1[u].th].Thread? && h1[u].slot < |h1[h1[u].th].stack| && u in h1[h1[u].th].upvals
    {
      assert u in hp[hp[u].th].upvals;
    }
  }

  lemma StoreClosed(hp: Heap, o: Id, ob: Object, live: set<Id>)
    requires o in hp && Replaces(hp, hp[o], ob) && RefSet(ob) <= live && MetaIsTable(hp, ob)
    requires LiveClosed(hp, live) && MetasOk(hp, live) && UpvalsOk(hp)
    ensures LiveClosed(hp[o := ob], live) && MetasOk(hp[o := ob], live)
  {
    hide RefSet;
    var h1 := hp[o := ob];
    RefSetIn(h1, ob, live);
    forall x | x in live ensures x in h1 && RefsIn(h1, h1[x], live) {
      if x != o {
        assert RefsIn(hp, hp[x], live);
        if hp[x].OpenUpval? && hp[x].th == o { assert AllIn(ob.stack, live); }
        if !hp[x].OpenUpval? { RefsInSame(hp, h1, hp[x], live); }
      }
    }
  }

  lemma StoreKinds(s: State, o: Id, ob: Object)
    requires o in s.hp && Replaces(s.hp, s.hp[o], ob)
    ensures TwupsOk(s.hp, Live(s), s.twups) ==> TwupsOk(s.hp[o := ob], Live(s), s.twups)
    ensures KindsOk(s.hp, s.mk, s.ls, s.an) ==> KindsOk(s.hp[o := ob], s.mk, s.ls, s.an)
  {
    hide Live;
  }

  /** A state in which nothing is dead: the collector may follow any reference. */
  lemma NoneDead(s: State)
    requires Base(s) && forall o :: o in s.mk ==> s.mk[o].color != White(!s.white)
    ensures Live(s) == s.hp.Keys == s.mk.Keys && HeapReady(s.hp, s.hp.Keys) && Marked(s.mk) <= s.hp.Keys
  {
    hide UpvalsOk, MetasOk;
    assert Live(s) == s.hp.Keys;
    AllIsEnclosed(s.hp);
  }

  /** What was marked on behalf of others does not depend on the contents of `o`. */
  lemma MarkingElsewhere(hp: Heap, o: Id, ob: Object, m0: Marks, g0: seq<Id>, m1: Marks, g1: seq<Id>)
    requires o in hp && Replaces(hp, hp[o], ob) && !ob.Thread? && o in Marked(m0)
    requires Marking(hp[o := ob], m0, g0, m1, g1)
    ensures Marking(hp, m0, g0, m1, g1)
  {
    var h1 := hp[o := ob];
    assert NewlyGray(hp, m0, m1) == NewlyGray(h1, m0, m1);
    forall x | x in NewlyMarked(m0, m1) ensures JustMarked(hp, m1, x) {
      assert x != o && JustMarked(h1, m1, x) && h1[x] == hp[x];
      if hp[x].OpenUpval? {
        assert SlotValue(h1, hp[x].th, hp[x].slot) == SlotValue(hp, hp[x].th, hp[x].slot);
      } else {
        RefsInSame(hp, h1, hp[x], Marked(m1));
      }
    }
  }

  /** The value that needed a forward barrier, or none. */
  predicate NeedsBarrier(mk: Marks, o: Id, v: Value)
    requires o in mk && In(v, mk.Keys)
  {
    v.Ref? && mk[o].color.Black? && mk[v.id].color.White?
  }

  /** A store into `o` followed by a forward barrier, while marking. */
  lemma ForwardMarking(s: State, o: Id, ob: Object, v: Value, m1: Marks, g1: seq<Id>)
    requires Base(s) && MarkPhase(s) && o in s.hp && Replaces(s.hp, s.hp[o], ob) && !ob.Thread?
    requires RefSet(ob) <= RefSet(s.hp[o]) + ValueSet([v]) && RefSet(ob) <= Live(s) && MetaIsTable(s.hp, ob)
      && In(v, Live(s))
    requires o in s.mk && (s.mk[o].color.Black? ==> In(v, Marked(m1)))
    requires Marking(s.hp[o := ob], s.mk, s.gray, m1, g1)
    requires m1 != s.mk ==> s.mk[o].color.Black?
    ensures Base(s.(hp := s.hp[o := ob], mk := m1, gray := g1))
      && MarkPhase(s.(hp := s.hp[o := ob], mk := m1, gray := g1))
  {
    hide Tricolor, Base, UpvalsOk, HeapReady, RefsIn, Marking, RefSet, JustMarked;
    var h1, t := s.hp[o := ob], s.(hp := s.hp[o := ob]);
    MarkingFacts(s);
    BaseStore(s, o, ob);
    MarkingGrows(h1, s.mk, s.gray, m1, g1);
    MarkingAlive(h1, s.mk, s.gray, m1, g1, s.white);
    FixedUntouched(t, m1, g1);
    BaseRecolor(t, m1);
    BaseAside(t.(mk := m1), t.(mk := m1, gray := g1));
    ForwardTricolor(s.hp, o, ob, v, s.mk, s.gray, m1, g1, s.links.grayagain, s.ls.fixedgc);
  }

  lemma ForwardTricolor(hp: Heap, o: Id, ob: Object, v: Value, mk: Marks, gray: seq<Id>, m1: Marks, g1: seq<Id>,
          again: seq<Id>, fixedgc: seq<Id>)
    requires o in hp && Replaces(hp, hp[o], ob) && !ob.Thread? && o in mk && mk.Keys == hp.Keys
    requires Tricolor(hp, mk, gray, again, fixedgc) && RefSet(ob) <= RefSet(hp[o]) + ValueSet([v])
    requires mk[o].color.Black? ==> In(v, Marked(m1))
    requires Marking(hp[o := ob], mk, gray, m1, g1)
    requires m1 != mk ==> mk[o].color.Black?
    ensures Tricolor(hp[o := ob], m1, g1, again, fixedgc)
  {
    hide RefsIn, RefSet, Once;
    var h1 := hp[o := ob];
    if mk[o].color.Black? {
      hide Tricolor, Marking;
      MarkingElsewhere(hp, o, ob, mk, gray, m1, g1);
      MarkingGrows(h1, mk, gray, m1, g1);
      TricolorMark(hp, mk, gray, m1, g1, again, fixedgc);
      BlackRefs(hp, m1, g1, again, fixedgc, o);
      BlackRefs(hp, mk, gray, again, fixedgc, o);
      RefSetIn(hp, hp[o], Marked(m1));
      RefSetIn(h1, ob, Marked(m1));
      ValueSetIn([v], Marked(m1));
      TricolorStore(hp, h1, m1, g1, again, fixedgc, o);
    } else {
      SameMarking(h1, mk, gray, g1);
      TricolorStore(hp, h1, mk, gray, again, fixedgc, o);
      TricolorPermuted(h1, mk, gray, g1, again, fixedgc);
    }
  }

  lemma BlackRefs(hp: Heap, mk: Marks, gray: seq<Id>, again: seq<Id>, fixedgc: seq<Id>, o: Id)
    requires Tricolor(hp, mk, gray, again, fixedgc) && o in mk
    ensures mk[o].color.Black? ==> RefsIn(hp, hp[o], Marked(mk)) && !hp[o].Thread? && !hp[o].OpenUpval?
    ensures o in gray || o in again ==> mk[o].color.Gray?
  {
    if mk[o].color.Black? { assert Colored(hp, mk, gray, again, fixedgc, o); }
  }

  lemma SameMarking(hp: Heap, mk: Marks, g0: seq<Id>, g1: seq<Id>)
    requires Marking(hp, mk, g0, mk, g1)
    ensures multiset(g1) == multiset(g0)
  {
    assert NewlyGray(hp, mk, mk) == {};
  }

  lemma TricolorPermuted(hp: Heap, mk: Marks, g0: seq<Id>, g1: seq<Id>, again: seq<Id>, fixedgc: seq<Id>)
    requires Tricolor(hp, mk, g0, again, fixedgc) && multiset(g1) == multiset(g0)
    ensures Tricolor(hp, mk, g1, again, fixedgc)
  {
    assert forall o :: o in g1 <==> o in multiset(g1);
    assert forall o :: o in g0 <==> o in multiset(g0);
    forall o | o in mk && !mk[o].color.White? ensures Colored(hp, mk, g1, again, fixedgc, o) {
      assert Colored(hp, mk, g0, again, fixedgc, o);
    }
  }

  /** Stores the program may do: new contents for a live object, with references it had
      already or references in `vs`, which are live. */
  predicate StoreOk(s: State, o: Id, ob: Object, vs: seq<Value>) {
    && o in s.hp && o in Live(s) && Replaces(s.hp, s.hp[o], ob) && MetaIsTable(s.hp, ob)
    && RefSet(ob) <= RefSet(s.hp[o]) + ValueSet(vs) && ValueSet(vs) <= Live(s)
  }

  lemma StoreOkFacts(s: State, o: Id, ob: Object, vs: seq<Value>)
    requires Base(s) && StoreOk(s, o, ob, vs)
    ensures o in s.mk && RefSet(ob) <= Live(s) && Live(s) <= s.hp.Keys && AllIn(vs, Live(s)) && s.hp.Keys == s.mk.Keys
  {
    RefSetIn(s.hp, s.hp[o], Live(s));
    ValueSetIn(vs, Live(s));
  }

  /** The sweep stays where it is when barriers recolour objects. */
  lemma PhaseRecolored(s: State, t: State)
    requires Phase(s) && !KeepInvariant(s.at) && t.at == s.at && t.sweep == s.sweep && t.white == s.white
      && t.ls == s.ls
    requires t.mk.Keys == s.mk.Keys && MarksSwept(s.mk, t.mk, s.white)
    ensures Phase(t)
  {
  }

  /** A store of `v` into `o` would break the generational invariant. */
  predicate Breaks(s: State, gen: bool, o: Id, v: Value) {
    gen && o in s.mk && v.Ref? && v.id in s.mk && v.id in s.hp && NeedsBarrier(s.mk, o, v) && OldPast(s.hp, s.mk, v.id)
  }

  /** A store with a forward barrier: luaC_objbarrier after writing `v` into `o`. In the
      generational mode the invariant is kept exactly when the barrier marks nothing past `v`. */
  method StoreForward(g: GlobalState, o: Id, ob: Object, v: Value)
    requires Ok(g) && StoreOk(Snap(g), o, ob, [v]) && !ob.Thread?
    modifies g`hp, g`mk, g`gray
    ensures Ok(g) <==> !Breaks(old(Snap(g)), g.gckind.GenMinor?, o, v)
    ensures g.hp == old(g.hp)[o := ob]
    ensures Ok(g) ==> Live(Snap(g)) == Live(old(Snap(g)))
    ensures g.gckind.GenMinor? ==> Forwarded(old(Snap(g)), Snap(g), o, v)
  {
    hide Base, Phase, GenInv, Live, StoreOk, Valid, Forwarded;
    if g.gckind.GenMinor? {
      ForwardInGen(g, o, ob, v);
    } else if KeepInvariant(g.gcstate) {
      ForwardWhileMarking(g, o, ob, v);
    } else {
      ForwardWhileSweeping(g, o, ob, v);
    }
  }

  /** What the forward barrier does in generational mode, whether or not that keeps the
      invariant: nothing, or `v` is marked. */
  ghost predicate Forwarded(s: State, t: State, o: Id, v: Value) {
    && t == s.(hp := t.hp, mk := t.mk, gray := t.gray)
    && (o in s.mk && In(v, s.mk.Keys) && NeedsBarrier(s.mk, o, v) ==> Barriered(t, s.mk, s.gray, o, v.id))
  }

  /** The forward barrier for `v`, referred to by `u` from now on, has marked it. */
  ghost predicate Barriered(t: State, m1: Marks, g1: seq<Id>, u: Id, v: Id) {
    && u in m1 && v in m1 && v in t.mk && v in t.hp && v in Marked(t.mk)
    && t.mk[v].age == (if m1[u].age.IsOld() then Old0 else m1[v].age)
    && Marking(t.hp, m1, g1, t.mk[v := t.mk[v].(age := m1[v].age)], t.gray)
    && (!MarksPast(t.hp, m1, v) ==> t.mk == m1[v := t.mk[v]] && t.gray == if NeedsVisit(t.hp[v]) then [v] + g1 else g1)
  }

  method ForwardInGen(g: GlobalState, o: Id, ob: Object, v: Value)
    requires GenInv(Snap(g), g.ptr) && StoreOk(Snap(g), o, ob, [v]) && !ob.Thread?
    modifies g`hp, g`mk, g`gray
    ensures GenInv(Snap(g), g.ptr) <==> !Breaks(old(Snap(g)), true, o, v)
    ensures g.hp == old(g.hp)[o := ob]
    ensures GenInv(Snap(g), g.ptr) ==> Live(Snap(g)) == Live(old(Snap(g)))
    ensures Forwarded(old(Snap(g)), Snap(g), o, v)
  {
    hide Base, GenInv, Live, Marked, Marking, HeapReady, RefSet, Replaces, ValueSet, MetaIsTable, StoreOk, MarksPast,
      OldPast, MadeOld, JustMarked;
    ghost var s := Snap(g);
    GenFacts(s, g.ptr);
    GenBase(s, g.ptr);
    StoreOkFacts(s, o, ob, [v]);
    StoreOkMeans(s, o, ob, v);
    g.hp := g.hp[o := ob];
    GenReady(s, g.ptr, o, ob);
    if NeedsBarrier(g.mk, o, v) {
      LuaCBarrier(g, o, v.id);
      BlackIsOld(s, g.ptr, o);
      OldPastElsewhere(s.hp, o, ob, s.mk, v.id);
      BarrierMakesOld(g.hp, s.mk, s.gray, g.mk, g.gray, v.id);
      if OldPast(s.hp, s.mk, v.id) {
        UpvalNotThread(s, o, ob, v.id);
        SnapMarks(g, s);
        WhitesYoung(s, g.ptr);
        ForwardBreaks(s.mk, s.gray, g.ptr, Snap(g), v.id);
      } else {
        NotPast(s.hp, s.mk, v.id);
        MadeOldElsewhere(s.hp, o, ob, s.mk, s.gray, g.mk, g.gray, v.id);
        ForwardGen(s, g.ptr, o, ob, v, g.mk, g.gray);
        SnapMarks(g, s);
      }
    } else {
      ForwardGen(s, g.ptr, o, ob, v, g.mk, g.gray);
      SnapMarks(g, s);
    }
    if GenInv(Snap(g), g.ptr) { GenFacts(Snap(g), g.ptr); }
  }

  lemma GenBase(s: State, p: Pointers)
    requires GenInv(s, p)
    ensures Base(s) && s.at.Propagate?
  {
  }

  /** Nothing is dead before and after the store. */
  lemma GenReady(s: State, p: Pointers, o: Id, ob: Object)
    requires GenInv(s, p) && o in Live(s) && o in s.hp && Replaces(s.hp, s.hp[o], ob) && RefSet(ob) <= Live(s)
      && MetaIsTable(s.hp, ob)
    ensures HeapReady(s.hp[o := ob], s.hp.Keys) && s.hp[o := ob].Keys == s.hp.Keys == s.mk.Keys
      && Marked(s.mk) <= s.hp.Keys
  {
    hide GenInv, Base, Replaces, RefSet, HeapReady, Marked;
    GenBase(s, p);
    GenFacts(s, p);
    BaseStore(s, o, ob);
    NoneDead(s.(hp := s.hp[o := ob]));
    assert s.hp[o := ob].Keys == s.hp.Keys;
  }

  lemma BlackIsOld(s: State, p: Pointers, o: Id)
    requires GenInv(s, p) && o in s.mk && s.mk[o].color.Black?
    ensures s.mk[o].age.IsOld()
  {
    assert Aged(s.hp, s.mk, s.gray, s.links.grayagain, s.white, o);
  }

  lemma UpvalNotThread(s: State, o: Id, ob: Object, v: Id)
    requires Base(s) && o in s.hp && Replaces(s.hp, s.hp[o], ob) && v in s.hp && v != o
    ensures s.hp[o := ob][v].OpenUpval? ==> s.hp[o := ob][v].th != v
  {
    hide MetasOk, LiveClosed, Partition, TwupsOk, KindsOk, FinOk, Roots, Live;
  }

  lemma NotPast(hp: Heap, mk: Marks, v: Id)
    requires v in hp && !OldPast(hp, mk, v)
    ensures !MarksPast(hp, mk, v)
  {
  }

  lemma MadeOldElsewhere(hp: Heap, o: Id, ob: Object, m0: Marks, g0: seq<Id>, m1: Marks, g1: seq<Id>, v: Id)
    requires o in hp && v in hp && v != o && MadeOld(hp[o := ob], m0, g0, m1, g1, v)
    ensures MadeOld(hp, m0, g0, m1, g1, v)
  {
  }

  method ForwardWhileMarking(g: GlobalState, o: Id, ob: Object, v: Value)
    requires Valid(Snap(g)) && KeepInvariant(g.gcstate)
    requires StoreOk(Snap(g), o, ob, [v]) && !ob.Thread?
    modifies g`hp, g`mk, g`gray
    ensures Valid(Snap(g)) && g.hp == old(g.hp)[o := ob]
    ensures Live(Snap(g)) == Live(old(Snap(g)))
  {
    hide Base, MarkPhase, Live, Marked, Marking, HeapReady, RefSet, Replaces, ValueSet, MetaIsTable, StoreOk;
    ghost var s := Snap(g);
    StoreOkFacts(s, o, ob, [v]);
    StoreOkMeans(s, o, ob, v);
    MarkingFacts(s);
    g.hp := g.hp[o := ob];
    ForwardReady(s, o, ob);
    MarkingNothing(g.hp, g.mk, g.gray);
    if NeedsBarrier(g.mk, o, v) {
      MarkingNew(s, o);
      LuaCBarrier(g, o, v.id);
    } else if v.Ref? && !g.mk[v.id].color.White? {
      MarkedKeeps(g.mk, g.mk, v.id);
    }
    ForwardMarking(s, o, ob, v, g.mk, g.gray);
    SnapMarks(g, s);
    MarkingFacts(Snap(g));
  }

  lemma StoreOkMeans(s: State, o: Id, ob: Object, v: Value)
    requires StoreOk(s, o, ob, [v])
    ensures o in s.hp && o in Live(s) && Replaces(s.hp, s.hp[o], ob) && MetaIsTable(s.hp, ob)
      && RefSet(ob) <= RefSet(s.hp[o]) + ValueSet([v])
    ensures In(v, Live(s))
  {
    ValueSetIn([v], Live(s));
  }

  /** Nothing is dead before and after the store. */
  lemma ForwardReady(s: State, o: Id, ob: Object)
    requires Base(s) && MarkPhase(s) && o in Live(s) && o in s.hp && Replaces(s.hp, s.hp[o], ob)
      && RefSet(ob) <= Live(s) && MetaIsTable(s.hp, ob)
    ensures HeapReady(s.hp[o := ob], s.hp.Keys) && s.hp[o := ob].Keys == s.hp.Keys == s.mk.Keys
      && Marked(s.mk) <= s.hp.Keys
  {
    hide Tricolor, Base, Replaces, RefSet, HeapReady, Marked;
    BaseStore(s, o, ob);
    NoneDead(s.(hp := s.hp[o := ob]));
    BaseFacts(s);
    assert s.hp[o := ob].Keys == s.hp.Keys;
  }

  lemma MarkingNew(s: State, o: Id)
    requires Base(s) && MarkPhase(s) && o in s.hp && Replaces(s.hp, s.hp[o], s.hp[o])
    ensures o in s.mk && s.mk[o].age.New?
  {
  }

  method ForwardWhileSweeping(g: GlobalState, o: Id, ob: Object, v: Value)
    requires Valid(Snap(g)) && !KeepInvariant(g.gcstate) && !g.gckind.GenMinor?
    requires StoreOk(Snap(g), o, ob, [v]) && !ob.Thread?
    modifies g`hp, g`mk, g`gray
    ensures Valid(Snap(g)) && g.hp == old(g.hp)[o := ob]
    ensures Live(Snap(g)) == Live(old(Snap(g)))
  {
    hide Base, MarkPhase, Live, Marked, RefSet, Replaces, ValueSet, MetaIsTable, StoreOk, Phase, Swept, AllSwept;
    ghost var s := Snap(g);
    StoreOkFacts(s, o, ob, [v]);
    StoreOkMeans(s, o, ob, v);
    BaseStore(s, o, ob);
    g.hp := g.hp[o := ob];
    ghost var t := s.(hp := g.hp);
    if NeedsBarrier(g.mk, o, v) {
      LuaCBarrier(g, o, v.id);
    }
    ReplacedNotFixed(s, o, ob);
    BaseRecolor(t, g.mk);
    PhaseRecolored(s, t.(mk := g.mk));
    SnapMarks(g, s);
  }

  lemma ReplacedNotFixed(s: State, o: Id, ob: Object)
    requires Base(s) && o in s.hp && Replaces(s.hp, s.hp[o], ob)
    ensures o !in s.ls.fixedgc
  {
  }

  /** luaC_barrierback_: the black object `o` turns gray again, to be visited once more. */
  method LuaCBarrierBack(g: GlobalState, o: Id)
    requires o in g.mk && g.mk[o].color.Black?
    modifies g`mk, g`grayagain
    ensures g.grayagain == if old(g.mk)[o].age.Touched2? then old(g.grayagain) else [o] + old(g.grayagain)
    ensures g.mk == old(g.mk)[o :=
      old(g.mk)[o].(color := Gray, age := if old(g.mk)[o].age.IsOld() then Touched1 else old(g.mk)[o].age)]
  {
    if !g.mk[o].age.Touched2? {
      g.grayagain := [o] + g.grayagain;
    }
    g.mk := g.mk[o := g.mk[o].(color := Gray)];
    if g.mk[o].age.IsOld() {
      g.mk := g.mk[o := g.mk[o].(age := Touched1)];
    }
  }

  /** A store into a table or userdata with a backward barrier for each of `vs`: entries
      of a table, keys included, reallocation of its parts, user values, weakness. */
  method StoreBack(g: GlobalState, o: Id, ob: Object, vs: seq<Value>)
    requires Ok(g) && StoreOk(Snap(g), o, ob, vs) && NeedsVisit(ob) && (ob.Table? || ob.Udata?)
    modifies g`hp, g`mk, g`grayagain
    ensures Ok(g) && g.hp == old(g.hp)[o := ob]
    ensures Live(Snap(g)) == Live(old(Snap(g)))
  {
    hide Base, MarkPhase, Phase, GenInv, Live, Marked, RefSet, Replaces, ValueSet, MetaIsTable, StoreOk;
    ghost var s := Snap(g);
    OkBase(g);
    StoreOkFacts(s, o, ob, vs);
    g.hp := g.hp[o := ob];
    var i := 0;
    while i < |vs|
      modifies g`mk, g`grayagain
      invariant 0 <= i <= |vs| && o in g.mk && AllIn(vs, g.mk.Keys)
      invariant (g.mk == s.mk && g.grayagain == s.links.grayagain)
             || (Turned(s.mk, g.mk, o) && g.grayagain == Relink(s, o))
      invariant g.mk[o].color.Black? ==> g.mk == s.mk && AllIn(vs[..i], Marked(g.mk))
    {
      if NeedsBarrier(g.mk, o, vs[i]) {
        LuaCBarrierBack(g, o);
      } else if g.mk[o].color.Black? {
        if vs[i].Ref? { MarkedKeeps(g.mk, g.mk, vs[i].id); }
        AllInSnoc(vs, i + 1, Marked(g.mk));
      }
      i := i + 1;
    }
    assert vs[..|vs|] == vs;
    if g.gckind.GenMinor? {
      BackGen(s, g.ptr, o, ob, vs, g.mk, g.grayagain);
    } else {
      StoreBackKeeps(s, o, ob, vs, g.mk, g.grayagain);
    }
    SnapBack(g, s);
  }

  lemma AllInSnoc(vs: seq<Value>, i: nat, s: set<Id>)
    requires 0 < i <= |vs| && AllIn(vs[..i - 1], s) && In(vs[i - 1], s)
    ensures AllIn(vs[..i], s)
  {
    assert vs[..i] == vs[..i - 1] + [vs[i - 1]];
  }

  function Relink(s: State, o: Id): seq<Id>
    requires o in s.mk
  {
    if s.mk[o].age.Touched2? then s.links.grayagain else [o] + s.links.grayagain
  }

  predicate Turned(m0: Marks, m1: Marks, o: Id) {
    o in m0 && m0[o].color.Black?
    && m1 == m0[o := m0[o].(color := Gray, age := if m0[o].age.IsOld() then Touched1 else m0[o].age)]
  }

  lemma SnapBack(g: GlobalState, s: State)
    requires g.gray == s.gray && g.weak == s.links.weak && g.allweak == s.links.allweak && g.ephemeron == s.links.eph
    requires g.ls == s.ls && g.an == s.an && g.twups == s.twups && g.currentwhite == s.white && g.gcstate == s.at
      && g.sweepgc == s.sweep
    ensures Snap(g) == s.(hp := g.hp, mk := g.mk, links := s.links.(grayagain := g.grayagain))
  {
  }

  lemma StoreBackKeeps(s: State, o: Id, ob: Object, vs: seq<Value>, m1: Marks, again: seq<Id>)
    requires Valid(s) && StoreOk(s, o, ob, vs) && NeedsVisit(ob) && !ob.Thread? && o in s.mk
    requires || (m1 == s.mk && again == s.links.grayagain && (s.mk[o].color.Black? ==> AllIn(vs, Marked(s.mk))))
             || (Turned(s.mk, m1, o) && again == Relink(s, o))
    ensures var t := s.(hp := s.hp[o := ob], mk := m1, links := s.links.(grayagain := again));
      Valid(t) && Live(t) == Live(s)
  {
    hide Base, MarkPhase, Live, Marked, RefSet, ValueSet, MetaIsTable, StoreOk, Swept, AllSwept, SweptTo;
    var h1, t1 := s.hp[o := ob], s.(hp := s.hp[o := ob]);
    var t := t1.(mk := m1, links := s.links.(grayagain := again));
    StoreOkFacts(s, o, ob, vs);
    StoreOkBack(s, o, ob, vs);
    BaseStore(s, o, ob);
    ReplacedNotFixed(s, o, ob);
    BaseRecolor(t1, m1);
    BaseAside(t1.(mk := m1), t);
    if KeepInvariant(s.at) {
      MarkPhaseBack(s, o, ob, vs, m1, again);
    } else {
      PhaseRecolored(s, t) by { assert MarksSwept(s.mk, m1, s.white); }
    }
  }

  lemma StoreOkBack(s: State, o: Id, ob: Object, vs: seq<Value>)
    requires StoreOk(s, o, ob, vs)
    ensures o in s.hp && o in Live(s) && Replaces(s.hp, s.hp[o], ob) && MetaIsTable(s.hp, ob)
      && RefSet(ob) <= RefSet(s.hp[o]) + ValueSet(vs)
  {
  }

  lemma MarkPhaseBack(s: State, o: Id, ob: Object, vs: seq<Value>, m1: Marks, again: seq<Id>)
    requires Base(s) && MarkPhase(s) && o in s.hp && Replaces(s.hp, s.hp[o], ob)
      && RefSet(ob) <= RefSet(s.hp[o]) + ValueSet(vs) && NeedsVisit(ob) && !ob.Thread? && o in s.mk
    requires || (m1 == s.mk && again == s.links.grayagain && (s.mk[o].color.Black? ==> AllIn(vs, Marked(s.mk))))
             || (Turned(s.mk, m1, o) && again == Relink(s, o))
    ensures MarkPhase(s.(hp := s.hp[o := ob], mk := m1, links := s.links.(grayagain := again)))
  {
    hide Tricolor, Base, RefSet, ValueSet, UpvalsOk, Replaces;
    MarkingNewStore(s, o, ob);
    if m1 == s.mk {
      StoreMarkedTricolor(s.hp, o, ob, vs, s.mk, s.gray, s.links.grayagain, s.ls.fixedgc);
    } else {
      StoreGrayTricolor(s.hp, o, ob, s.mk, m1, s.gray, s.links.grayagain, s.ls.fixedgc);
    }
  }

  lemma MarkingNewStore(s: State, o: Id, ob: Object)
    requires Base(s) && MarkPhase(s) && o in s.hp && Replaces(s.hp, s.hp[o], ob)
    ensures o in s.mk && s.mk[o].age.New? && o !in s.ls.fixedgc && s.mk.Keys == s.hp.Keys
  {
  }

  lemma StoreMarkedTricolor(hp: Heap, o: Id, ob: Object, vs: seq<Value>, mk: Marks, gray: seq<Id>, again: seq<Id>,
          fixedgc: seq<Id>)
    requires o in hp && Replaces(hp, hp[o], ob) && o in mk && Tricolor(hp, mk, gray, again, fixedgc) && !ob.Thread?
    requires RefSet(ob) <= RefSet(hp[o]) + ValueSet(vs) && (mk[o].color.Black? ==> AllIn(vs, Marked(mk)))
    ensures Tricolor(hp[o := ob], mk, gray, again, fixedgc)
  {
    hide Tricolor, RefSet, RefsIn, Marked;
    if mk[o].color.Black? {
      BlackRefs(hp, mk, gray, again, fixedgc, o);
      RefSetIn(hp, hp[o], Marked(mk));
      RefSetIn(hp[o := ob], ob, Marked(mk));
      ValueSetIn(vs, Marked(mk));
    }
    TricolorStore(hp, hp[o := ob], mk, gray, again, fixedgc, o);
  }

  lemma StoreGrayTricolor(hp: Heap, o: Id, ob: Object, mk: Marks, m1: Marks, gray: seq<Id>, again: seq<Id>,
          fixedgc: seq<Id>)
    requires o in hp && Replaces(hp, hp[o], ob) && o in mk && Tricolor(hp, mk, gray, again, fixedgc) && !ob.Thread?
      && NeedsVisit(ob)
    requires mk[o].color.Black? && m1 == mk[o := mk[o].(color := Gray)]
    ensures Tricolor(hp[o := ob], m1, gray, [o] + again, fixedgc)
  {
    hide RefsIn, Once;
    var h1 := hp[o := ob];
    MarkedSame(mk, m1, o);
    BlackRefs(hp, mk, gray, again, fixedgc, o);
    OnceCons(gray, again, o);
    forall x | x in m1 && !m1[x].color.White? ensures Colored(h1, m1, gray, [o] + again, fixedgc, x) {
      if x != o {
        assert Colored(hp, mk, gray, again, fixedgc, x);
        if m1[x].color.Black? { RefsInSame(hp, h1, hp[x], Marked(mk)); }
      }
    }
  }

  lemma OnceCons(gray: seq<Id>, again: seq<Id>, o: Id)
    requires Once(gray, again) && o !in gray && o !in again
    ensures Once(gray, [o] + again)
  {
    forall x ensures multiset(gray)[x] + multiset([o] + again)[x] <= 1 {
      assert multiset([o] + again) == multiset{o} + multiset(again);
      assert multiset(gray)[x] + multiset(again)[x] <= 1;
      assert o !in multiset(gray) && o !in multiset(again);
    }
  }

  /** Writing or resizing a stack needs no barrier: a marked thread is never black. */
  method SetStack(g: GlobalState, th: Id, stack: seq<Value>)
    requires Ok(g) && th in g.hp && g.hp[th].Thread?
    requires StoreOk(Snap(g), th, Thread(stack, g.hp[th].upvals), stack)
    modifies g`hp
    ensures Ok(g) && g.hp == old(g.hp)[th := Thread(stack, old(g.hp)[th].upvals)]
    ensures Live(Snap(g)) == Live(old(Snap(g)))
  {
    hide Base, MarkPhase, GenInv, Live, Marked, RefSet, ValueSet, MetaIsTable, StoreOk, Swept, AllSwept, SweptTo;
    ghost var s, ob := Snap(g), Thread(stack, g.hp[th].upvals);
    OkBase(g);
    StoreOkFacts(s, th, ob, stack);
    StoreOkBack(s, th, ob, stack);
    BaseStore(s, th, ob);
    if g.gckind.GenMinor? {
      StackGen(s, g.ptr, th, ob);
    } else if KeepInvariant(s.at) {
      StackTricolor(s, th, ob);
    }
    g.hp := g.hp[th := Thread(stack, g.hp[th].upvals)];
    SnapMarks(g, s);
  }

  lemma StackTricolor(s: State, th: Id, ob: Object)
    requires Base(s) && MarkPhase(s) && th in s.hp && s.hp[th].Thread? && Replaces(s.hp, s.hp[th], ob)
    ensures MarkPhase(s.(hp := s.hp[th := ob]))
  {
    hide Tricolor, UpvalsOk, RefsIn;
    BlackRefs(s.hp, s.mk, s.gray, s.links.grayagain, s.ls.fixedgc, th);
    TricolorStore(s.hp, s.hp[th := ob], s.mk, s.gray, s.links.grayagain, s.ls.fixedgc, th);
  }

  /** In generational mode a forward barrier makes `v` old, and that is all it may do: it must
      not mark another object at once, which would be young and no longer white, nor make an
      open upvalue older than its thread. */
  predicate OldPast(hp: Heap, mk: Marks, v: Id)
    requires v in hp
  {
    MarksPast(hp, mk, v) || (hp[v].OpenUpval? && hp[v].th in mk && !mk[hp[v].th].age.IsOld())
  }

  /** What a forward barrier on the white object `v` does to the marks, if not OldPast. */
  ghost predicate MadeOld(hp: Heap, m0: Marks, g0: seq<Id>, m1: Marks, g1: seq<Id>, v: Id) {
    && v in hp && v in m0 && v in m1 && m0[v].color.White? && m1 == m0[v := m1[v]]
    && m1[v] == Mark(if NeedsVisit(hp[v]) || hp[v].OpenUpval? then Gray else Black, Old0, m0[v].fin)
    && g1 == if NeedsVisit(hp[v]) then [v] + g0 else g0
  }

  lemma BarrierMakesOld(hp: Heap, m0: Marks, g0: seq<Id>, m1: Marks, g1: seq<Id>, v: Id)
    requires v in m0 && m0[v].color.White? && v in m1 && v in Marked(m1) && m1[v].age.Old0?
    requires Marking(hp, m0, g0, m1[v := m1[v].(age := m0[v].age)], g1)
    requires !MarksPast(hp, m0, v) ==> m1 == m0[v := m1[v]] && g1 == if NeedsVisit(hp[v]) then [v] + g0 else g0
    ensures v in hp && (!MarksPast(hp, m0, v) ==> MadeOld(hp, m0, g0, m1, g1, v))
  {
    hide RefsIn;
    var m1' := m1[v := m1[v].(age := m0[v].age)];
    assert v in NewlyMarked(m0, m1');
    assert JustMarked(hp, m1', v);
  }

  /** Making `v` old where that keeps the generational invariant: all objects but `v` and those
      that have just got a reference to it are as they were. */
  lemma MadeOldAged(hp: Heap, m0: Marks, g0: seq<Id>, again: seq<Id>, white: bool, m1: Marks, g1: seq<Id>, v: Id)
    requires AllAged(hp, m0, g0, again, white) && Queued(hp, m0, g0, again) && MadeOld(hp, m0, g0, m1, g1, v)
      && !MarksPast(hp, m0, v)
    requires RefsIn(hp, hp[v], hp.Keys)
    ensures AllAged(hp, m1, g1, again, white) && Queued(hp, m1, g1, again)
    ensures Olds(m1) == Olds(m0) + {v} && NotNew(m0) <= NotNew(m1)
  {
    assert Aged(hp, m0, g0, again, white, v);
    forall x | x in m1 ensures Aged(hp, m1, g1, again, white, x) {
      assert Aged(hp, m0, g0, again, white, x);
      if x != v {
        AgedFrame(hp, m0, g0, again, hp, m1, g1, again, white, x);
      } else {
        MadeOldEdges(hp, m0, g0, again, white, m1, v);
      }
    }
    if NeedsVisit(hp[v]) { OnceNew(g0, again, v); }
  }

  lemma MadeOldEdges(hp: Heap, m0: Marks, g0: seq<Id>, again: seq<Id>, white: bool, m1: Marks, v: Id)
    requires AllAged(hp, m0, g0, again, white) && v in m0 && v in m1 && m1 == m0[v := m1[v]] && m1[v].age.Old0?
      && !MarksPast(hp, m0, v)
    requires m1[v].color.Black? ==> !NeedsVisit(hp[v])
    requires RefsIn(hp, hp[v], hp.Keys)
    ensures Edges(hp, m1, v)
  {
    if m1[v].color.Black? && (hp[v].ClosedUpval? || hp[v].Udata?) {
      var w := if hp[v].ClosedUpval? then hp[v].v else hp[v].meta;
      if w.Ref? && w.id != v { assert Aged(hp, m0, g0, again, white, w.id); }
      assert In(w, Olds(m1));
    }
  }

  lemma OnceNew(gray: seq<Id>, again: seq<Id>, v: Id)
    requires Once(gray, again) && v !in gray && v !in again
    ensures Once([v] + gray, again)
  {
    ConsCount(v, gray);
    forall x ensures multiset([v] + gray)[x] + multiset(again)[x] <= 1 {
      assert multiset(gray)[x] + multiset(again)[x] <= 1;
      assert v !in multiset(gray) && v !in multiset(again);
    }
  }

  /** New contents for `o`: a black object may get references to old objects only. */
  lemma AgedStore(hp: Heap, o: Id, ob: Object, mk: Marks, gray: seq<Id>, again: seq<Id>, white: bool)
    requires AllAged(hp, mk, gray, again, white) && Queued(hp, mk, gray, again)
    requires o in hp && Replaces(hp, hp[o], ob)
      && (mk[o].color.Black? && !ob.Thread? ==> RefSet(ob) <= RefSet(hp[o]) + Olds(mk))
    ensures AllAged(hp[o := ob], mk, gray, again, white) && Queued(hp[o := ob], mk, gray, again)
  {
    hide RefsIn, RefSet, Once;
    var h1 := hp[o := ob];
    forall x | x in mk ensures Aged(h1, mk, gray, again, white, x) {
      assert Aged(hp, mk, gray, again, white, x);
      if x != o {
        AgedFrame(hp, mk, gray, again, h1, mk, gray, again, white, x);
      } else if mk[o].color.Black? && !ob.Thread? {
        var t := if mk[o].age.Old1? || mk[o].age.Touched2? then NotNew(mk) else Olds(mk);
        assert Olds(mk) <= t;
        RefSetIn(hp, hp[o], t);
        RefSetIn(h1, ob, t);
      }
    }
  }

  /** Whether marking goes past an object does not depend on the contents of another one. */
  lemma OldPastElsewhere(hp: Heap, o: Id, ob: Object, mk: Marks, v: Id)
    requires o in hp && Replaces(hp, hp[o], ob) && !ob.Thread? && v in hp && v != o
    ensures MarksPast(hp[o := ob], mk, v) == MarksPast(hp, mk, v) && OldPast(hp[o := ob], mk, v) == OldPast(hp, mk, v)
  {
    if hp[v].OpenUpval? {
      assert SlotValue(hp[o := ob], hp[v].th, hp[v].slot) == SlotValue(hp, hp[v].th, hp[v].slot);
    }
  }

  /** A store into `o` with a forward barrier for `v`, between two young collections. */
  lemma ForwardGen(s: State, p: Pointers, o: Id, ob: Object, v: Value, m1: Marks, g1: seq<Id>)
    requires GenInv(s, p) && o in s.hp && o in s.mk && Replaces(s.hp, s.hp[o], ob) && !ob.Thread?
    requires RefSet(ob) <= RefSet(s.hp[o]) + ValueSet([v]) && RefSet(ob) <= Live(s) && MetaIsTable(s.hp, ob)
      && In(v, Live(s)) && In(v, s.mk.Keys)
    requires if NeedsBarrier(s.mk, o, v) then v.id in s.hp && !OldPast(s.hp, s.mk, v.id)
      && MadeOld(s.hp, s.mk, s.gray, m1, g1, v.id)
             else m1 == s.mk && g1 == s.gray
    ensures GenInv(s.(hp := s.hp[o := ob], mk := m1, gray := g1), p)
  {
    hide Base, RefSet, Queued, Ranks, Chains, AllAged, RefsIn, OldPast, MadeOld;
    var again := s.links.grayagain;
    GenFacts(s, p);
    BaseStore(s, o, ob);
    if NeedsBarrier(s.mk, o, v) {
      ForwardOld(s, p, o, ob, v.id, m1, g1);
    } else {
      BaseAside(s.(hp := s.hp[o := ob]), s.(hp := s.hp[o := ob], gray := g1));
    }
    ForwardRefs(s, p, o, ob, v, m1);
    AgedStore(s.hp, o, ob, m1, g1, again, s.white);
    RanksStore(s.hp, o, ob, m1);
  }

  lemma RanksStore(hp: Heap, o: Id, ob: Object, mk: Marks)
    requires Ranks(hp, mk) && o in hp && Replaces(hp, hp[o], ob)
    ensures Ranks(hp[o := ob], mk)
  {
  }

  /** After the barrier the value stored is old, if `o` is black. */
  lemma ForwardRefs(s: State, p: Pointers, o: Id, ob: Object, v: Value, m1: Marks)
    requires GenInv(s, p) && o in s.hp && o in s.mk && In(v, s.mk.Keys) && RefSet(ob) <= RefSet(s.hp[o]) + ValueSet([v])
    requires if NeedsBarrier(s.mk, o, v) then v.id in m1 && m1 == s.mk[v.id := m1[v.id]]
      && m1[v.id].age.Old0? else m1 == s.mk
    ensures o in m1 && (m1[o].color.Black? ==> RefSet(ob) <= RefSet(s.hp[o]) + Olds(m1))
  {
    hide Base, RefSet, Queued, Ranks, Chains, RefsIn, Edges, Held;
    if s.mk[o].color.Black? && v.Ref? {
      assert Aged(s.hp, s.mk, s.gray, s.links.grayagain, s.white, v.id);
    }
    ValueSetIn([v], Olds(m1));
    if NeedsBarrier(s.mk, o, v) { assert v.id != o; }
  }

  /** The part of the barrier: the object stored becomes old. */
  lemma ForwardOld(s: State, p: Pointers, o: Id, ob: Object, v: Id, m1: Marks, g1: seq<Id>)
    requires GenInv(s, p) && v in s.hp && !OldPast(s.hp, s.mk, v) && MadeOld(s.hp, s.mk, s.gray, m1, g1, v)
    requires Base(s.(hp := s.hp[o := ob])) && Live(s.(hp := s.hp[o := ob])) == Live(s)
    ensures AllAged(s.hp, m1, g1, s.links.grayagain, s.white) && Queued(s.hp, m1, g1, s.links.grayagain)
    ensures Ranks(s.hp, m1) && Chains(m1, s.ls, p) && s.an.main in Marked(m1)
    ensures Base(s.(hp := s.hp[o := ob], mk := m1, gray := g1))
    ensures v in m1 && m1 == s.mk[v := m1[v]] && m1[v].age.Old0?
  {
    hide Base, Queued, Chains, AllAged, RefsIn, Ranks;
    GenFacts(s, p);
    YoungWhite(s, p, v);
    LiveRefsIn(s, v);
    MadeOldAged(s.hp, s.mk, s.gray, s.links.grayagain, s.white, m1, g1, v);
    RanksOld(s.hp, s.mk, m1, v);
    ChainsAges(s.mk, m1, s.ls, p);
    var t := s.(hp := s.hp[o := ob]);
    FixedNotWhite(t, v);
    BaseRecolor(t, m1);
    BaseAside(t.(mk := m1), t.(mk := m1, gray := g1));
  }

  lemma YoungWhite(s: State, p: Pointers, v: Id)
    requires GenInv(s, p) && v in s.mk && s.mk[v].color.White?
    ensures !s.mk[v].age.IsOld() && s.mk[v].color == White(s.white)
  {
    assert Aged(s.hp, s.mk, s.gray, s.links.grayagain, s.white, v);
  }

  lemma LiveRefsIn(s: State, o: Id)
    requires Base(s) && o in Live(s)
    ensures o in s.hp && RefsIn(s.hp, s.hp[o], Live(s))
  {
  }

  lemma FixedNotWhite(s: State, v: Id)
    requires Base(s) && v in s.mk && s.mk[v].color.White?
    ensures v !in s.ls.fixedgc
  {
  }

  lemma RanksOld(hp: Heap, m0: Marks, m1: Marks, v: Id)
    requires Ranks(hp, m0) && m0.Keys == hp.Keys && v in m0 && v in m1 && m1 == m0[v := m1[v]] && m1[v].age.Old0?
    requires v in hp && !OldPast(hp, m0, v)
    ensures Ranks(hp, m1)
  {
    hide MarksPast;
  }

  /** The exact condition: when marking goes past `v`, the invariant is gone. */
  lemma ForwardBreaks(m0: Marks, g0: seq<Id>, p: Pointers, t: State, v: Id)
    requires (forall x :: x in m0 && m0[x].color.White? ==> !m0[x].age.IsOld())
    requires v in m0 && m0[v].color.White? && v in t.hp && OldPast(t.hp, m0, v)
    requires t.hp.Keys == m0.Keys && v in t.mk && t.mk[v].age.Old0? && v in Marked(t.mk)
    requires t.hp[v].OpenUpval? ==> t.hp[v].th != v
    requires Marking(t.hp, m0, g0, t.mk[v := t.mk[v].(age := m0[v].age)], t.gray)
    ensures !GenInv(t, p)
  {
    hide Base, Queued, Chains, RefsIn, Edges, Held;
    var m := t.mk[v := t.mk[v].(age := m0[v].age)];
    assert v in NewlyMarked(m0, m);
    assert JustMarked(t.hp, m, v);
    if MarksPast(t.hp, m0, v) {
      var w := PastOf(t.hp, v);
      PastMarked(t.hp, m0, m, v);
      assert t.mk[w.id] == m[w.id];
      NotAged(t, p, w.id);
    } else {
      var th := t.hp[v].th;
      assert t.mk[th] == m[th] && m[th].age == m0[th].age;
    }
  }

  lemma WhitesYoung(s: State, p: Pointers)
    requires GenInv(s, p)
    ensures forall x :: x in s.mk && s.mk[x].color.White? ==> !s.mk[x].age.IsOld()
  {
    hide Base, Queued, Chains, Ranks, Edges, Held;
    forall x | x in s.mk && s.mk[x].color.White? ensures !s.mk[x].age.IsOld() { YoungWhite(s, p, x); }
  }

  lemma NotAged(s: State, p: Pointers, o: Id)
    requires o in s.mk && !AgeColor(s.mk[o], s.white)
    ensures !GenInv(s, p)
  {
    if GenInv(s, p) { GenColor(s, p, o); }
  }

  lemma GenColor(s: State, p: Pointers, o: Id)
    requires GenInv(s, p) && o in s.mk
    ensures AgeColor(s.mk[o], s.white)
  {
    assert Aged(s.hp, s.mk, s.gray, s.links.grayagain, s.white, o);
  }

  /** The object that marking `o` would go on to. */
  function PastOf(hp: Heap, o: Id): Value
    requires o in hp
  {
    match hp[o]
    case ClosedUpval(v) => v
    case OpenUpval(th, slot) => SlotValue(hp, th, slot)
    case Udata(meta, _) => meta
    case _ => Nil
  }

  lemma PastMarked(hp: Heap, m0: Marks, m: Marks, v: Id)
    requires v in hp && v in m && JustMarked(hp, m, v) && MarksPast(hp, m0, v)
    ensures var w := PastOf(hp, v); w.Ref? && w.id != v && w.id in m0 && m0[w.id].color.White? && w.id in Marked(m)
  {
  }

  /** A stack may change at any time: a thread is visited in every collection. */
  lemma StackGen(s: State, p: Pointers, th: Id, ob: Object)
    requires GenInv(s, p) && th in s.hp && s.hp[th].Thread? && Replaces(s.hp, s.hp[th], ob)
    requires Base(s.(hp := s.hp[th := ob]))
    ensures GenInv(s.(hp := s.hp[th := ob]), p)
  {
    hide Base, Queued, Ranks, Chains, AllAged, RefSet, RefsIn;
    ThreadHere(s, p, th);
    AgedStore(s.hp, th, ob, s.mk, s.gray, s.links.grayagain, s.white);
    RanksStore(s.hp, th, ob, s.mk);
  }

  lemma ThreadHere(s: State, p: Pointers, o: Id)
    requires GenInv(s, p) && o in s.hp
    ensures o in s.mk
  {
  }

  /** A store into `o` with a backward barrier: `o` is touched, or everything stored is old. */
  lemma BackGen(s: State, p: Pointers, o: Id, ob: Object, vs: seq<Value>, m1: Marks, again: seq<Id>)
    requires GenInv(s, p) && StoreOk(s, o, ob, vs) && NeedsVisit(ob) && (ob.Table? || ob.Udata?) && o in s.mk
    requires || (m1 == s.mk && again == s.links.grayagain && (s.mk[o].color.Black? ==> AllIn(vs, Marked(s.mk))))
             || (Turned(s.mk, m1, o) && again == Relink(s, o))
    ensures var t := s.(hp := s.hp[o := ob], mk := m1, links := s.links.(grayagain := again));
      GenInv(t, p) && Live(t) == Live(s)
  {
    hide Base, Queued, Ranks, Chains, AllAged, RefSet, RefsIn, Live, ValueSet, MetaIsTable, StoreOk, Edges, Held;
    var t1 := s.(hp := s.hp[o := ob]);
    var t := t1.(mk := m1, links := s.links.(grayagain := again));
    GenFacts(s, p);
    StoreOkFacts(s, o, ob, vs);
    StoreOkBack(s, o, ob, vs);
    BaseStore(s, o, ob);
    ReplacedNotFixed(s, o, ob);
    BaseRecolor(t1, m1);
    BaseAside(t1.(mk := m1), t);
    RanksStore(s.hp, o, ob, s.mk);
    if m1 == s.mk {
      ValueSetIn(vs, Olds(s.mk));
      AgedStore(s.hp, o, ob, s.mk, s.gray, again, s.white);
    } else {
      BlackIsOld(s, p, o);
      TurnedAged(s.hp, s.mk, s.gray, s.links.grayagain, s.white, o, m1, again);
      AgedStore(s.hp, o, ob, m1, s.gray, again, s.white);
      RanksTurned(s.hp[o := ob], s.mk, m1, o);
      ChainsTurned(s.mk, m1, o, s.ls, p);
    }
  }

  lemma ChainsTurned(m0: Marks, m1: Marks, o: Id, ls: Objects, p: Pointers)
    requires Chains(m0, ls, p) && Turned(m0, m1, o)
    ensures Chains(m1, ls, p)
  {
    hide Chains;
    ChainsAges(m0, m1, ls, p);
  }

  lemma RanksTurned(hp: Heap, m0: Marks, m1: Marks, o: Id)
    requires Ranks(hp, m0) && Turned(m0, m1, o) && m0[o].age.IsOld()
    ensures Ranks(hp, m1) && Marked(m1) == Marked(m0)
  {
  }

  lemma TurnedAged(hp: Heap, mk: Marks, gray: seq<Id>, again: seq<Id>, white: bool, o: Id, m1: Marks, again1: seq<Id>)
    requires AllAged(hp, mk, gray, again, white) && Queued(hp, mk, gray, again)
    requires Turned(mk, m1, o) && mk[o].age.IsOld() && o in hp && NeedsVisit(hp[o]) && (hp[o].Table? || hp[o].Udata?)
    requires again1 == if mk[o].age.Touched2? then again else [o] + again
    ensures AllAged(hp, m1, gray, again1, white) && Queued(hp, m1, gray, again1)
  {
    hide RefsIn;
    assert Olds(m1) == Olds(mk) && NotNew(m1) == NotNew(mk);
    assert Aged(hp, mk, gray, again, white, o);
    if !mk[o].age.Touched2? { OnceCons(gray, again, o); }
    forall x | x in m1 ensures Aged(hp, m1, gray, again1, white, x) {
      assert Aged(hp, mk, gray, again, white, x);
      if x != o { AgedFrame(hp, mk, gray, again, hp, m1, gray, again1, white, x); }
    }
  }
}
