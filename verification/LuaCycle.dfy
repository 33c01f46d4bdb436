/** Whole cycles: strongly reachable objects survive them, and a full collection leaves no
    garbage behind. */
module LuaCycle {
  import opened LuaHeap
  import opened LuaMarks
  import opened LuaTricolor
  import opened LuaGc
  import opened LuaState
  import opened LuaSweep
  import opened LuaMutator
  import opened LuaObjects
  import opened LuaStep

  /** A step other than the atomic one loses nothing of a live object. */
  ghost predicate SameOrClosed(h0: Heap, h1: Heap, o: Id)
    requires o in h0 && o in h1
  {
    SameContents(h0[o], h1[o]) || (h0[o].OpenUpval? && h1[o] == ClosedUpval(SlotValue(h0, h0[o].th, h0[o].slot)))
  }

  lemma NothingLostLive(h0: Heap, h1: Heap, o: Id, live: set<Id>)
    requires Keeps(h0, h1, o, live) && RefsIn(h0, h0[o], live)
    ensures SameOrClosed(h0, h1, o)
  {
  }

  lemma LiveRefs(s: State, o: Id)
    requires Base(s) && o in Live(s)
    ensures o in s.hp && RefsIn(s.hp, s.hp[o], Live(s))
  {
  }

  /** Outside the atomic step, whatever is closed after a step gives something closed
      before it; so what was strongly reachable still is. */
  lemma StrongSetBack(s: State, t: State, c: set<Id>)
    requires Base(s) && Collected(s, t, Live(s)) && StrongSet(t, c)
    ensures StrongSet(s, c * Live(s))
  {
    hide Base, Phase, Live, UpvalsOk, StrongRefsIn, WeakLoss, Roots;
    forall o | o in c * Live(s) && o in s.hp ensures StrongRefsIn(s.hp, s.hp[o], c * Live(s)) {
      assert Keeps(s.hp, t.hp, o, Live(s));
      StrongRefsBack(s, t, c, o);
    }
  }

  lemma StillStronglyReachable(s: State, t: State, o: Id)
    requires Base(s) && Collected(s, t, Live(s)) && StronglyReachable(s, o)
    ensures StronglyReachable(t, o)
  {
    hide Base, StrongSet, Collected, Live;
    forall c: set<Id> | StrongSet(t, c) ensures o in c {
      StrongSetBack(s, t, c);
    }
  }

  lemma StrongRefsBack(s: State, t: State, c: set<Id>, o: Id)
    requires Base(s) && Base(t) && o in c && o in Live(s) && StrongClosed(t.hp, c)
    requires Keeps(s.hp, t.hp, o, Live(s)) && ShapesStay(s.hp, t.hp, Live(t)) && Live(s) <= Live(t)
    ensures StrongRefsIn(s.hp, s.hp[o], c * Live(s))
  {
    hide Base, Live, Keeps;
    LiveRefs(t, o);
    LiveRefs(s, o);
    assert StrongRefsIn(t.hp, t.hp[o], c);
    NothingLostLive(s.hp, t.hp, o, Live(s));
    if s.hp[o].Table? {
      TableRefsBack(s.hp, t.hp, s.hp[o], t.hp[o], c, Live(s), Live(t));
    } else if s.hp[o].OpenUpval? {
      SlotBack(s, t, o, c);
    } else {
      RefsInSame(s.hp, t.hp, s.hp[o], c);
      RefSetIn(s.hp, s.hp[o], c);
      RefSetIn(s.hp, s.hp[o], Live(s));
      RefSetIn(s.hp, s.hp[o], c * Live(s));
    }
  }

  lemma SlotBack(s: State, t: State, o: Id, c: set<Id>)
    requires Base(s) && Base(t) && o in s.hp && o in t.hp && s.hp[o].OpenUpval? && SameOrClosed(s.hp, t.hp, o)
      && ShapesStay(s.hp, t.hp, Live(t))
    requires RefsIn(s.hp, s.hp[o], Live(s)) && RefsIn(t.hp, t.hp[o], c)
    ensures RefsIn(s.hp, s.hp[o], c * Live(s))
  {
    hide Live, LiveClosed, MetasOk, TwupsOk, Partition, Roots, KindsOk, FinOk;
    if t.hp[o].OpenUpval? {
      assert t.hp[o] == s.hp[o];
      var th := s.hp[o].th;
      assert th in t.hp && th in s.hp;
    }
  }

  lemma TableRefsBack(h0: Heap, h1: Heap, a: Object, b: Object, c: set<Id>, live: set<Id>, live1: set<Id>)
    requires a.Table? && SameContents(a, b) && RefsIn(h0, a, live)
    requires StrongRefsIn(h1, b, c) && RefsIn(h1, b, live1) && ShapesStay(h0, h1, live1)
    ensures StrongRefsIn(h0, a, c * live)
  {
    if a.mode.Ephemeron? {
      forall i | 0 <= i < |a.hash| && KeyAlive(h0, a.hash[i].key, c * live) ensures In(a.hash[i].val, c * live) {
        if a.hash[i].val != Nil {
          assert b.hash[i] == a.hash[i];
          assert In(b.hash[i].key, live1);
          assert KeyAlive(h1, b.hash[i].key, c);
        }
      }
    } else {
      assert forall i :: 0 <= i < |a.hash| && a.hash[i].val != Nil ==> b.hash[i] == a.hash[i];
    }
  }

  /** The sweep keeps what encloses the live objects. */
  lemma EnclosedOn(s: State, t: State, c: set<Id>)
    requires Base(s) && Collected(s, t, Live(s)) && Live(t) == Live(s) && c <= Live(s) && Enclosed(s.hp, c)
    ensures Enclosed(t.hp, c)
  {
    hide Base, Phase, Live, UpvalsOk, StrongRefsIn, StringsIn, WeakLoss, Roots, Keeps;
    forall o | o in c && o in t.hp ensures StrongRefsIn(t.hp, t.hp[o], c) && StringsIn(t.hp, t.hp[o], c) {
      assert Keeps(s.hp, t.hp, o, Live(s));
      EnclosedObject(s, t, c, o);
    }
  }

  lemma EnclosedObject(s: State, t: State, c: set<Id>, o: Id)
    requires Base(s) && Base(t) && o in c && o in Live(s) && c <= Live(s) && Live(t) == Live(s) && o in s.hp
    requires StrongRefsIn(s.hp, s.hp[o], c) && StringsIn(s.hp, s.hp[o], c)
    requires Keeps(s.hp, t.hp, o, Live(s)) && ShapesStay(s.hp, t.hp, Live(t))
    ensures StrongRefsIn(t.hp, t.hp[o], c) && StringsIn(t.hp, t.hp[o], c)
  {
    hide Base, Live, Keeps;
    LiveRefs(s, o);
    LiveRefs(t, o);
    NothingLostLive(s.hp, t.hp, o, Live(s));
    if s.hp[o].Table? {
      EnclosedTable(s.hp, t.hp, s.hp[o], t.hp[o], c, Live(s));
    } else if s.hp[o].OpenUpval? {
      EnclosedSlot(s, t, o, c);
    } else {
      RefsInSame(s.hp, t.hp, s.hp[o], c);
    }
  }

  lemma EnclosedSlot(s: State, t: State, o: Id, c: set<Id>)
    requires Base(s) && Base(t) && o in s.hp && o in t.hp && s.hp[o].OpenUpval? && SameOrClosed(s.hp, t.hp, o)
      && ShapesStay(s.hp, t.hp, Live(t))
    requires RefsIn(s.hp, s.hp[o], c)
    ensures RefsIn(t.hp, t.hp[o], c) && !t.hp[o].Table?
  {
    hide Live, LiveClosed, MetasOk, TwupsOk, Partition, Roots, KindsOk, FinOk;
    if t.hp[o].OpenUpval? {
      assert t.hp[o] == s.hp[o];
      assert s.hp[o].th in t.hp && s.hp[o].th in s.hp;
    }
  }

  lemma EnclosedTable(h0: Heap, h1: Heap, a: Object, b: Object, c: set<Id>, live: set<Id>)
    requires a.Table? && SameContents(a, b) && RefsIn(h0, a, live) && RefsIn(h1, b, live) && c <= live
    requires StrongRefsIn(h0, a, c) && StringsIn(h0, a, c) && ShapesStay(h0, h1, live)
    ensures StrongRefsIn(h1, b, c) && StringsIn(h1, b, c)
  {
    assert forall v :: In(v, live) ==> (IsStr(h0, v) <==> IsStr(h1, v)) && (KeyAlive(h0, v, c) <==> KeyAlive(h1, v, c));
    if a.mode.Ephemeron? {
      forall i | 0 <= i < |b.hash| && KeyAlive(h1, b.hash[i].key, c) ensures In(b.hash[i].val, c) {
        if b.hash[i].val != Nil { assert b.hash[i] == a.hash[i]; }
      }
    }
  }

  /** States of the collector from the end of the atomic phase to the end of the cycle. */
  predicate AfterMarking(at: GcState) {
    !KeepInvariant(at) && !at.Pause?
  }

  /** What a whole sweep keeps: the live objects, what encloses them, what is strongly
      reachable. */
  ghost predicate CarriedOver(s: State, t: State, c: set<Id>) {
    && Live(t) == Live(s)
    && (Enclosed(s.hp, c) && c <= Live(s) ==> Enclosed(t.hp, c))
    && (forall o :: StronglyReachable(s, o) ==> StronglyReachable(t, o))
    && t.an == s.an && Roots(t) <= Roots(s)
  }

  lemma CarriedTrans(s: State, t: State, u: State, c: set<Id>)
    requires CarriedOver(s, t, c) && CarriedOver(t, u, c)
    ensures CarriedOver(s, u, c)
  {
    hide Live, Enclosed, StronglyReachable, Roots;
  }

  lemma CarriedByStep(s: State, t: State, c: set<Id>)
    requires Base(s) && Collected(s, t, Live(s)) && Live(t) == Live(s)
    ensures CarriedOver(s, t, c)
  {
    hide Base, Phase, Live, StrongSet, StronglyReachable, Enclosed, Keeps;
    if Enclosed(s.hp, c) && c <= Live(s) { EnclosedOn(s, t, c); }
    forall o | StronglyReachable(s, o) ensures StronglyReachable(t, o) { StillStronglyReachable(s, t, o); }
  }

  lemma CarriedAside(s: State, t: State, c: set<Id>)
    requires t == s.(at := t.at, sweep := t.sweep)
    ensures CarriedOver(s, t, c)
  {
    hide Enclosed, StrongSet;
    forall o | StronglyReachable(s, o) ensures StronglyReachable(t, o) {
      forall d: set<Id> | StrongSet(t, d) ensures o in d { StrongSetAside(s, t, d); }
    }
  }

  /** A live object is as it was, or is an upvalue with its own copy of its value now. */
  ghost predicate SameObject(h0: Heap, h1: Heap, o: Id) {
    && o in h0 && o in h1 && SameOrClosed(h0, h1, o)
    && (h1[o].OpenUpval? ==>
      h1[o] == h0[o] && SlotValue(h1, h1[o].th, h1[o].slot) == SlotValue(h0, h1[o].th, h1[o].slot))
  }

  /** Outside the atomic step contents stay, and what was strongly reachable is. */
  ghost predicate Quietly(s: State, t: State) {
    && Live(t) == Live(s)
    && (forall o :: o in Live(s) ==> SameObject(s.hp, t.hp, o))
    && (forall c: set<Id> :: StrongSet(t, c) ==> StrongSet(s, c * Live(s)))
  }

  lemma QuietTrans(s: State, t: State, u: State)
    requires Quietly(s, t) && Quietly(t, u)
    ensures Quietly(s, u)
  {
    hide Live, StrongSet, SameObject;
    forall o | o in Live(s) ensures SameObject(s.hp, u.hp, o) {
      SameTrans(s.hp, t.hp, u.hp, o);
    }
    forall c: set<Id> | StrongSet(u, c) ensures StrongSet(s, c * Live(s)) {
      assert (c * Live(t)) * Live(s) == c * Live(s);
    }
  }

  lemma SameTrans(h0: Heap, h1: Heap, h2: Heap, o: Id)
    requires SameObject(h0, h1, o) && SameObject(h1, h2, o)
    ensures SameObject(h0, h2, o)
  {
  }

  lemma QuietByStep(s: State, t: State)
    requires Base(s) && Collected(s, t, Live(s)) && Live(t) == Live(s)
    ensures Quietly(s, t)
  {
    hide Base, Phase, Live, StrongSet, Keeps, SameObject;
    forall o | o in Live(s) ensures SameObject(s.hp, t.hp, o) {
      QuietObject(s, t, o);
    }
    forall c: set<Id> | StrongSet(t, c) ensures StrongSet(s, c * Live(s)) { StrongSetBack(s, t, c); }
  }

  lemma QuietObject(s: State, t: State, o: Id)
    requires Base(s) && Base(t) && o in Live(s) && Keeps(s.hp, t.hp, o, Live(s)) && ShapesStay(s.hp, t.hp, Live(t))
    ensures SameObject(s.hp, t.hp, o)
  {
    hide Live, MetasOk, LiveClosed, TwupsOk, Partition, KindsOk, FinOk, Roots, SameContents, ShapesStay;
    LiveRefs(s, o);
    NothingLostLive(s.hp, t.hp, o, Live(s));
    if t.hp[o].OpenUpval? {
      SameUpval(s.hp[o], t.hp[o]);
      SlotStays(s.hp, t.hp, o, Live(t));
    }
  }

  lemma SameUpval(a: Object, b: Object)
    requires b.OpenUpval?
    ensures SameContents(a, b) ==> a == b
  {
  }

  lemma SlotStays(h0: Heap, h1: Heap, o: Id, live: set<Id>)
    requires UpvalsOk(h0) && UpvalsOk(h1) && ShapesStay(h0, h1, live) && o in h0 && o in h1 && h1[o].OpenUpval?
      && h1[o] == h0[o]
    ensures SlotValue(h1, h1[o].th, h1[o].slot) == SlotValue(h0, h1[o].th, h1[o].slot)
  {
  }

  lemma QuietAside(s: State, t: State)
    requires Base(s) && t == s.(at := t.at, sweep := t.sweep)
    ensures Quietly(s, t)
  {
    hide Base, StrongSet;
    LiveSubset(s);
    LiveIsStrong(s);
    forall c: set<Id> | StrongSet(t, c) ensures StrongSet(s, c * Live(s)) {
      StrongSetAside(s, t, c);
      StrongMeet(s, c, Live(s));
    }
  }

  /** What two sets closed under strong references have in common is closed, if one of them
      is the set of live objects. */
  lemma StrongMeet(s: State, c: set<Id>, live: set<Id>)
    requires Base(s) && StrongSet(s, c) && live == Live(s)
    ensures StrongSet(s, c * live)
  {
    hide Base, Live, StrongRefsIn;
    LiveIsStrong(s);
    forall o | o in c * live && o in s.hp ensures StrongRefsIn(s.hp, s.hp[o], c * live) {
      LiveRefs(s, o);
      assert StrongRefsIn(s.hp, s.hp[o], c);
      StrongBoth(s.hp, s.hp[o], c, live);
    }
  }

  lemma StrongBoth(hp: Heap, ob: Object, c: set<Id>, live: set<Id>)
    requires StrongRefsIn(hp, ob, c) && RefsIn(hp, ob, live)
    ensures StrongRefsIn(hp, ob, c * live)
  {
  }

  /** Contents kept by the atomic step, after and before steps that lose nothing. */
  lemma KeepsAfter(s: State, t: State, u: State, strong: set<Id>, o: Id)
    requires Base(s) && Quietly(s, t) && o in Live(s) && Keeps(t.hp, u.hp, o, strong)
    ensures Keeps(s.hp, u.hp, o, strong * Live(s))
  {
    hide Base, StrongSet, Live, SameObject, Keeps;
    LiveRefs(s, o);
    forall x | x in Live(s) ensures x in s.hp && x in t.hp && (s.hp[x].Str? <==> t.hp[x].Str?) {
      SameString(s.hp, t.hp, x);
    }
    KeepsJoin(s.hp, t.hp, u.hp, o, strong, Live(s));
  }

  lemma SameString(h0: Heap, h1: Heap, o: Id)
    requires SameObject(h0, h1, o)
    ensures o in h0 && o in h1 && (h0[o].Str? <==> h1[o].Str?)
  {
  }

  lemma KeepsJoin(h0: Heap, h1: Heap, h2: Heap, o: Id, strong: set<Id>, live: set<Id>)
    requires SameObject(h0, h1, o) && Keeps(h1, h2, o, strong) && RefsIn(h0, h0[o], live)
    requires forall x :: x in live ==> x in h0 && x in h1 && (h0[x].Str? <==> h1[x].Str?)
    ensures Keeps(h0, h2, o, strong * live)
  {
    assert forall v :: In(v, live) && !KeyAlive(h1, v, strong) ==> !KeyAlive(h0, v, strong * live);
    if !h1[o].OpenUpval? && WeakLoss(h1, h1[o], h2[o], strong) && SameContents(h0[o], h1[o]) {
      LossJoin(h0, h1, h0[o], h1[o], h2[o], strong, live);
    }
  }

  lemma LossJoin(h0: Heap, h1: Heap, a: Object, b: Object, c: Object, strong: set<Id>, live: set<Id>)
    requires SameContents(a, b) && WeakLoss(h1, b, c, strong) && RefsIn(h0, a, live)
    requires forall v :: In(v, live) && !KeyAlive(h1, v, strong) ==> !KeyAlive(h0, v, strong * live)
    ensures WeakLoss(h0, a, c, strong * live)
  {
    if a.Table? && !SameContents(b, c) {
      forall i | 0 <= i < |a.hash|
        ensures c.hash[i] == a.hash[i] || (Emptied(a.hash[i], c.hash[i]) &&
                  (a.hash[i].val == Nil || !KeyAlive(h0, a.hash[i].key, strong * live)
                    || !KeyAlive(h0, a.hash[i].val, strong * live)))
      {
        assert In(a.hash[i].key, live) && In(a.hash[i].val, live);
      }
      forall i | 0 <= i < |a.arr|
        ensures c.arr[i] == a.arr[i] || (c.arr[i] == Nil && !KeyAlive(h0, a.arr[i], strong * live))
      {
        assert In(a.arr[i], live);
      }
    }
  }

  lemma KeepsBefore(h0: Heap, h1: Heap, h2: Heap, o: Id, strong: set<Id>)
    requires Keeps(h0, h1, o, strong) && SameObject(h1, h2, o) && o in h0
    requires h1[o].OpenUpval? ==> SlotValue(h1, h1[o].th, h1[o].slot) == SlotValue(h0, h1[o].th, h1[o].slot)
    ensures Keeps(h0, h2, o, strong)
  {
    if WeakLoss(h0, h0[o], h1[o], strong) && SameContents(h1[o], h2[o]) { LossThen(h0, h0[o], h1[o], h2[o], strong); }
  }

  lemma LossThen(h0: Heap, a: Object, b: Object, c: Object, strong: set<Id>)
    requires WeakLoss(h0, a, b, strong) && SameContents(b, c)
    ensures WeakLoss(h0, a, c, strong)
  {
  }

  /** How far the end of the cycle is. */
  function Remaining(at: GcState): nat {
    match at
    case SwpAllGc => 5
    case SwpFinObj => 4
    case SwpToBeFnz => 3
    case SwpEnd => 2
    case CallFin => 1
    case _ => 0
  }

  /** One step of it. */
  method SweepStep(g: GlobalState, ghost c: set<Id>)
    requires Valid(Snap(g)) && g.gckind.Incremental? && g.ptr.finobjold1.Null? && AfterMarking(g.gcstate)
    modifies g`hp, g`mk, g`gray, g`grayagain, g`weak, g`allweak, g`ephemeron, g`twups
    modifies g`gcstate, g`ls, g`ptr, g`currentwhite, g`sweepgc
    ensures Valid(Snap(g)) && g.ptr.finobjold1.Null?
    ensures AfterMarking(g.gcstate) || (old(g.gcstate).CallFin? && g.gcstate.Pause?)
    ensures Remaining(g.gcstate) < Remaining(old(g.gcstate)) || (g.gcstate == old(g.gcstate)
      && old(g.sweepgc).From? && !g.sweepgc.From?)
    ensures CarriedOver(old(Snap(g)), Snap(g), c) && Quietly(old(Snap(g)), Snap(g))
  {
    hide Base, Phase, Live, CarriedOver, Quietly, Within, Collected;
    ghost var s := Snap(g);
    WithinSweep(s);
    ghost var strong := SingleStep(g, true, false, Nil, {}, {});
    if s.at.SwpEnd? || s.at.CallFin? {
      CarriedAside(s, Snap(g), c);
      QuietAside(s, Snap(g));
    } else {
      SteppedCollected(s, Snap(g), strong);
      CarriedByStep(s, Snap(g), c);
      QuietByStep(s, Snap(g));
    }
  }

  /** luaC_runtilstate, from the sweep on, in an emergency: no finalizer runs. */
  method RunSweep(g: GlobalState, target: GcState, ghost c: set<Id>)
    requires Valid(Snap(g)) && g.gckind.Incremental? && g.ptr.finobjold1.Null?
    requires target.CallFin? || target.Pause?
    requires AfterMarking(g.gcstate) || g.gcstate == target
    modifies g`hp, g`mk, g`gray, g`grayagain, g`weak, g`allweak, g`ephemeron, g`twups
    modifies g`gcstate, g`ls, g`ptr, g`currentwhite, g`sweepgc
    ensures Valid(Snap(g)) && g.gcstate == target && g.ptr.finobjold1.Null?
    ensures CarriedOver(old(Snap(g)), Snap(g), c) && Quietly(old(Snap(g)), Snap(g))
  {
    hide Base, Phase, Live, CarriedOver, Quietly, Within, Collected;
    CarriedAside(Snap(g), Snap(g), c);
    QuietAside(Snap(g), Snap(g));
    NeverAtomic(Snap(g));
    while g.gcstate != target
      invariant Valid(Snap(g)) && g.ptr.finobjold1.Null?
      invariant AfterMarking(g.gcstate) || g.gcstate == target
      invariant CarriedOver(old(Snap(g)), Snap(g), c) && Quietly(old(Snap(g)), Snap(g))
      decreases Remaining(g.gcstate), if g.sweepgc.From? then 1 else 0
    {
      ghost var s := Snap(g);
      SweepStep(g, c);
      CarriedTrans(old(Snap(g)), s, Snap(g), c);
      QuietTrans(old(Snap(g)), s, Snap(g));
    }
  }

  lemma WithinSweep(s: State)
    requires AfterMarking(s.at)
    ensures Within(s, {}, {})
  {
  }

  lemma SteppedCollected(s: State, t: State, strong: set<Id>)
    requires Stepped(s, t, strong) && !s.at.SwpEnd? && !s.at.CallFin?
    ensures Collected(s, t, strong)
  {
  }

  /** luaC_runtilstate, from a pause to the end of the atomic phase: a fast cycle skips
      the propagation and leaves all of it to the atomic phase. */
  method RunMark(g: GlobalState, ghost c: set<Id>) returns (ghost strong: set<Id>)
    requires Valid(Snap(g)) && g.gckind.Incremental? && g.ptr.finobjold1.Null? && g.gcstate.Pause?
    requires Enclosed(g.hp, c) && c <= g.hp.Keys && Roots(Snap(g)) <= c
    modifies g`hp, g`mk, g`gray, g`grayagain, g`weak, g`allweak, g`ephemeron, g`twups
    modifies g`gcstate, g`ls, g`ptr, g`currentwhite, g`sweepgc
    ensures Valid(Snap(g)) && g.gcstate.SwpAllGc? && g.ptr.finobjold1.Null?
    ensures Live(Snap(g)) <= c
    ensures StrongSet(old(Snap(g)), strong) && Marks3(old(Snap(g)), Snap(g), strong)
  {
    hide Base, Phase, Live, Within, Collected, Enclosed, Roots, Quietly, StrongSet, Marks3;
    ghost var s0 := Snap(g);
    RootsWithin(s0, c);
    NilIn(Live(s0));
    strong := SingleStep(g, true, false, Nil, c, c);
    ghost var s1 := Snap(g);
    SteppedCollected(s0, s1, strong);
    StartsQuietly(s0, s1);
    NilIn(Live(s1));
    strong := SingleStep(g, true, false, Nil, c, c);
    ghost var s2 := Snap(g);
    SteppedCollected(s1, s2, strong);
    StartsQuietly(s1, s2);
    QuietTrans(s0, s1, s2);
    NilIn(Live(s2));
    strong := SingleStep(g, true, false, Nil, c, c);
    SteppedCollected(s2, Snap(g), strong);
    MarkedKeeps(s0, s2, Snap(g), strong);
    strong := strong * Live(s0);
  }

  /** Everything of `strong` survives, with its contents. */
  ghost predicate Marks3(s: State, t: State, strong: set<Id>) {
    strong <= Live(s)
      && forall o :: o in strong ==> o in Live(t) && Keeps(s.hp, t.hp, o, strong) && UpvalSame(s.hp, t.hp, o)
  }

  predicate UpvalSame(h0: Heap, h1: Heap, o: Id) {
    o in h1 && (h1[o].OpenUpval? ==> SlotValue(h1, h1[o].th, h1[o].slot) == SlotValue(h0, h1[o].th, h1[o].slot))
  }

  /** The first two steps of a cycle lose nothing: nothing is dead before and after them. */
  lemma StartsQuietly(s: State, t: State)
    requires Base(s) && Phase(s) && (s.at.Pause? || s.at.Propagate?) && Collected(s, t, Live(s))
      && (t.at.Propagate? || t.at.EnterAtomic?)
    requires Live(s) == Live(t)
    ensures Quietly(s, t)
  {
    QuietByStep(s, t);
  }

  lemma MarkedKeeps(s: State, t: State, u: State, strong: set<Id>)
    requires Base(s) && Base(t) && Quietly(s, t) && Collected(t, u, strong)
    ensures StrongSet(s, strong * Live(s)) && Marks3(s, u, strong * Live(s))
  {
    hide Base, Phase, Live, StrongSet, Keeps, SameObject, UpvalsOk, Roots;
    forall o | o in strong * Live(s)
      ensures o in Live(u) && Keeps(s.hp, u.hp, o, strong * Live(s)) && UpvalSame(s.hp, u.hp, o)
    {
      KeepsAfter(s, t, u, strong, o);
      UpvalKept(s, t, u, strong, o);
    }
  }

  lemma UpvalKept(s: State, t: State, u: State, strong: set<Id>, o: Id)
    requires Base(s) && Base(t) && Base(u) && SameObject(s.hp, t.hp, o) && Keeps(t.hp, u.hp, o, strong)
      && ShapesStay(t.hp, u.hp, Live(u))
    ensures UpvalSame(s.hp, u.hp, o)
  {
    hide Live, MetasOk, LiveClosed, TwupsOk, Partition, KindsOk, FinOk, Roots, SameContents;
    if u.hp[o].OpenUpval? {
      LossUpval(t.hp, t.hp[o], u.hp[o], strong);
      SlotStays(t.hp, u.hp, o, Live(u));
    }
  }

  lemma LossUpval(hp: Heap, a: Object, b: Object, strong: set<Id>)
    requires b.OpenUpval?
    ensures WeakLoss(hp, a, b, strong) ==> a == b
  {
  }

  lemma NilIn(s: set<Id>)
    ensures In(Nil, s)
  {
  }

  lemma RootsWithin(s: State, c: set<Id>)
    requires s.at.Pause? && Enclosed(s.hp, c) && c <= s.hp.Keys && Roots(s) <= c
    ensures Within(s, c, c)
  {
    hide Enclosed;
    ValueSetIn([s.an.registry], c);
    ValueSetIn(s.an.mt, c);
    forall o | o in s.ls.tobefnz || o in s.ls.fixedgc || o in s.ls.finobj ensures o in c {
      assert o in Elements(s.ls.finobj) + Elements(s.ls.tobefnz) + Elements(s.ls.fixedgc);
      assert o in Roots(s);
    }
  }

  /** An emergency full collection, `fullinc`. Whatever is strongly reachable survives it,
      and nothing is left that the roots and the objects with finalizers do not lead to:
      the heap ends inside every set that encloses them. */
  method FullInc(g: GlobalState, ghost c: set<Id>) returns (ghost strong: set<Id>)
    requires Valid(Snap(g)) && g.gckind.Incremental? && g.ptr.finobjold1.Null?
    requires Enclosed(g.hp, c) && Roots(Snap(g)) <= c
    modifies g`hp, g`mk, g`gray, g`grayagain, g`weak, g`allweak, g`ephemeron, g`twups
    modifies g`gcstate, g`ls, g`ptr, g`currentwhite, g`sweepgc
    ensures Valid(Snap(g)) && g.gcstate.Pause? && g.ptr.finobjold1.Null?
    ensures g.hp.Keys <= c
    ensures StrongSet(old(Snap(g)), strong) && forall o :: o in strong ==> Keeps(old(g.hp), g.hp, o, strong)
  {
    hide Base, Phase, Live, CarriedOver, Quietly, Within, Collected, Enclosed, Roots, StrongSet, Marks3, Keeps;
    ghost var s0 := Snap(g);
    ghost var d := c * Live(s0);
    EnclosedLive(s0, c);
    if KeepInvariant(g.gcstate) {
      EnterSweep(g);
      CollectedQuietly(s0, Snap(g));
      CarriedByStep(s0, Snap(g), d);
      QuietByStep(s0, Snap(g));
    } else {
      CarriedAside(s0, s0, d);
      QuietAside(s0, s0);
    }
    ghost var s1 := Snap(g);
    RunSweep(g, Pause, d);
    ghost var s2 := Snap(g);
    CarriedTrans(s0, s1, s2, d);
    QuietTrans(s0, s1, s2);
    PauseClean(s0, s2, d);
    strong := RunMark(g, d);
    ghost var s3 := Snap(g);
    RunSweep(g, CallFin, d);
    ghost var s4 := Snap(g);
    CarriedMeans(s3, s4, d);
    RunSweep(g, Pause, d);
    CarriedMeans(s4, Snap(g), d);
    QuietTrans(s3, s4, Snap(g));
    AllSweptKeys(Snap(g));
    WholeKeeps(s0, s2, s3, Snap(g), strong);
    strong := strong * Live(s0);
  }

  /** A collection as a whole: quiet steps, the atomic step, and quiet steps again. */
  lemma WholeKeeps(s: State, s2: State, s3: State, t: State, strong: set<Id>)
    requires Base(s) && Quietly(s, s2) && StrongSet(s2, strong) && Marks3(s2, s3, strong) && Quietly(s3, t)
    ensures StrongSet(s, strong * Live(s))
    ensures forall o :: o in strong * Live(s) ==> Keeps(s.hp, t.hp, o, strong * Live(s))
  {
    hide Base, Live, StrongSet, Keeps, SameObject;
    forall o | o in strong * Live(s) ensures Keeps(s.hp, t.hp, o, strong * Live(s)) {
      assert UpvalSame(s2.hp, s3.hp, o);
      KeepsThere(s2.hp, s3.hp, o, strong);
      KeepsBefore(s2.hp, s3.hp, t.hp, o, strong);
      KeepsAfter(s, s2, t, strong, o);
    }
  }

  lemma KeepsThere(h0: Heap, h1: Heap, o: Id, strong: set<Id>)
    requires Keeps(h0, h1, o, strong)
    ensures o in h0 && o in h1
  {
  }

  lemma CarriedMeans(s: State, t: State, c: set<Id>)
    requires CarriedOver(s, t, c)
    ensures Live(t) == Live(s)
  {
  }

  lemma AllSweptKeys(s: State)
    requires Valid(s) && s.at.Pause?
    ensures s.hp.Keys == Live(s)
  {
    hide Base, Live, AllSwept;
    AllSweptFacts(s);
  }

  lemma EnclosedLive(s: State, c: set<Id>)
    requires Base(s) && Enclosed(s.hp, c) && Roots(s) <= c
    ensures Enclosed(s.hp, c * Live(s)) && Roots(s) <= c * Live(s)
  {
    hide UpvalsOk, MetasOk, TwupsOk, Partition, KindsOk, FinOk, Live, Roots;
    forall o | o in c * Live(s) && o in s.hp
      ensures StrongRefsIn(s.hp, s.hp[o], c * Live(s)) && StringsIn(s.hp, s.hp[o], c * Live(s))
    {
      assert RefsIn(s.hp, s.hp[o], Live(s));
      assert StrongRefsIn(s.hp, s.hp[o], c) && StringsIn(s.hp, s.hp[o], c);
      EnclosedBoth(s.hp, s.hp[o], c, Live(s));
    }
  }

  lemma EnclosedBoth(hp: Heap, ob: Object, c: set<Id>, live: set<Id>)
    requires StrongRefsIn(hp, ob, c) && StringsIn(hp, ob, c) && RefsIn(hp, ob, live)
    ensures StrongRefsIn(hp, ob, c * live) && StringsIn(hp, ob, c * live)
  {
  }

  lemma PauseClean(s: State, t: State, d: set<Id>)
    requires CarriedOver(s, t, d) && Valid(t) && t.at.Pause?
    requires Enclosed(s.hp, d) && d <= Live(s) && Roots(s) <= d
    ensures Enclosed(t.hp, d) && d <= t.hp.Keys && Roots(t) <= d
  {
    AllSweptKeys(t);
  }
}
