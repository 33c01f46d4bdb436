/** Every interleaving of a program with the collector, in both of its modes. */
module LuaRun {
  import opened LuaHeap
  import opened LuaMarks
  import opened LuaTricolor
  import opened LuaGc
  import opened LuaState
  import opened LuaGen
  import opened LuaSweep
  import opened LuaMutator
  import opened LuaObjects
  import opened LuaStep
  import opened LuaCycle
  import opened LuaYoung
  import opened LuaModes

  datatype Action =
    | New(o: Id, ob: Object)
    | StoreWithBarrier(o: Id, ob: Object, v: Value)
    | StoreWithBarrierBack(o: Id, ob: Object, vs: seq<Value>)
    | WriteStack(th: Id, stack: seq<Value>)
    | Capture(th: Id, slot: nat, o: Id)
    | CloseUpvals(th: Id, level: nat)
    | CloseFirstUpval(th: Id)
    | Intern(o: Id)
    | Anchor(an: Anchors)
    | SetFinalizer(o: Id)
    | Step(fast: bool, mayCall: bool, tm: Value)
    | FullCollection
    | Young
    | Finalize(tm: Value)
    | EnterGen
    | LeaveGen

  /** A state of a run, with the mode of the collector and the pointers of the minor mode. */
  datatype Point = Point(s: State, p: Pointers, kind: GcKind)

  ghost function Now(g: GlobalState): Point
    reads g
  {
    Point(Snap(g), g.ptr, g.gckind)
  }

  /** Valid for its mode. */
  ghost predicate Good(pt: Point) {
    if pt.kind.GenMinor? then GenInv(pt.s, pt.p) else pt.kind.Incremental? && Valid(pt.s) && pt.p.finobjold1.Null?
  }

  lemma GoodOk(g: GlobalState)
    requires Good(Now(g))
    ensures Ok(g) && (!g.gckind.GenMinor? ==> g.gckind.Incremental? && g.ptr.finobjold1.Null?)
  {
  }

  lemma OkGood(g: GlobalState)
    requires Ok(g) && (!g.gckind.GenMinor? ==> g.gckind.Incremental? && g.ptr.finobjold1.Null?)
    ensures Good(Now(g))
  {
  }

  lemma GoodBase(pt: Point)
    requires Good(pt)
    ensures Base(pt.s)
  {
  }

  /** What a program can do: it holds live objects only, and ids of new objects are fresh. */
  predicate Allowed(s: State, a: Action) {
    match a
    case New(o, ob) => FreshOk(s, o, ob)
    case StoreWithBarrier(o, ob, v) => StoreOk(s, o, ob, [v]) && !ob.Thread?
    case StoreWithBarrierBack(o, ob, vs) => StoreOk(s, o, ob, vs) && NeedsVisit(ob) && (ob.Table? || ob.Udata?)
    case WriteStack(th, stack) => th in s.hp && s.hp[th].Thread?
      && StoreOk(s, th, Thread(stack, s.hp[th].upvals), stack)
    case Capture(th, slot, o) => th in s.hp && s.hp[th].Thread? && th in Live(s) && slot < |s.hp[th].stack|
      && o !in s.hp && o !in s.mk
    case CloseUpvals(th, _) => th in s.hp && s.hp[th].Thread? && th in Live(s)
    case CloseFirstUpval(th) => th in s.hp && s.hp[th].Thread? && th in Live(s) && s.hp[th].upvals != []
    case Intern(o) => o in s.hp && o in s.mk && s.hp[o].Str?
    case Anchor(an) => AnchorsOk(s, an)
    case SetFinalizer(o) => o in s.hp && o in s.mk && o in Live(s) && (s.hp[o].Table? || s.hp[o].Udata?)
    case Step(_, _, tm) => In(tm, Live(s))
    case Finalize(tm) => s.ls.tobefnz != [] && In(tm, Live(s))
    case EnterGen => KeepInvariant(s.at)
    case _ => true
  }

  /** What belongs to one of the modes; in minor mode no forward barrier may mark past its
      object. */
  predicate InMode(s: State, gen: bool, a: Action)
    requires Allowed(s, a)
  {
    match a
    case StoreWithBarrier(o, _, v) => !Breaks(s, gen, o, v)
    case CloseUpvals(th, level) => gen ==> CanClose(s, th, level)
    case CloseFirstUpval(th) => !CloseBreaks(s, gen, th)
    case Step(_, _, _) => !gen
    case FullCollection => !gen
    case EnterGen => !gen
    case Young => gen
    case Finalize(_) => gen
    case LeaveGen => gen
    case _ => true
  }

  predicate Enabled(s: State, gen: bool, a: Action) {
    Allowed(s, a) && InMode(s, gen, a)
  }

  /** Safety of one action: nothing strongly reachable is gone, and nothing the program
      can reach afterwards is missing or about to be freed. */
  ghost predicate Safe(s: State, t: State) {
    && (forall o :: StronglyReachable(s, o) ==> o in t.hp)
    && (forall o :: Reachable(t.hp, Roots(t), o) ==> o in t.hp && o in Live(t))
  }

  /** The actions of the collector. */
  predicate Collects(a: Action) {
    a.Step? || a.FullCollection? || a.Young? || a.EnterGen? || a.LeaveGen?
  }

  /** The collector changes nothing of what is strongly reachable but for entries of weak
      tables that mention something that is not; the next finalizer to run is pushed on a stack. */
  ghost predicate KeepsContents(s: State, t: State) {
    exists strong: set<Id> :: StrongSet(s, strong) && KeepsSet(s, t, strong)
  }

  ghost predicate KeepsSet(s: State, t: State, strong: set<Id>) {
    forall o :: o in strong ==> Keeps(s.hp, t.hp, o, strong) || (s.at.CallFin? && o == s.an.running)
  }

  lemma SafeKept(s: State, t: State)
    requires Base(s) && Base(t) && forall o :: o in Live(s) ==> o in t.hp
    ensures Safe(s, t)
  {
    hide StrongSet, Live, Reachable, Base;
    LiveIsStrong(s);
    forall o | Reachable(t.hp, Roots(t), o) ensures o in t.hp && o in Live(t) {
      ReachableIsLive(t, o);
    }
  }

  lemma SafeStrong(s: State, t: State)
    requires Base(t) && forall o :: StronglyReachable(s, o) ==> o in t.hp
    ensures Safe(s, t)
  {
    hide StronglyReachable, Live, Reachable, Base;
    forall o | Reachable(t.hp, Roots(t), o) ensures o in t.hp && o in Live(t) {
      ReachableIsLive(t, o);
    }
  }

  lemma SafePreserved(s: State, t: State, strong: set<Id>)
    requires Base(s) && Base(t) && Preserved(s, t, strong)
    ensures Safe(s, t) && KeepsContents(s, t)
  {
    hide Live, Reachable, Base, StrongSet, Keeps, ShapesStay, Roots, Safe;
    assert KeepsSet(s, t, strong);
    forall o | StronglyReachable(s, o) ensures o in t.hp {
      assert o in strong;
      KeepsThere(s.hp, t.hp, o, strong);
    }
    SafeStrong(s, t);
  }

  lemma SafeWhole(s: State, t: State, strong: set<Id>)
    requires Base(t) && StrongSet(s, strong) && forall o :: o in strong ==> Keeps(s.hp, t.hp, o, strong)
    ensures Safe(s, t) && KeepsContents(s, t)
  {
    hide Live, Base, StrongSet, Keeps, Safe;
    assert KeepsSet(s, t, strong);
    forall o | StronglyReachable(s, o) ensures o in t.hp {
      assert o in strong;
      KeepsThere(s.hp, t.hp, o, strong);
    }
    SafeStrong(s, t);
  }

  lemma SafeStepped(s: State, t: State, strong: set<Id>)
    requires Base(s) && Base(t) && Stepped(s, t, strong)
    ensures Safe(s, t) && KeepsContents(s, t)
  {
    hide Live, Reachable, Base, Phase, StrongSet, Keeps, ShapesStay, Safe, Preserved;
    LiveSubset(s);
    if s.at.SwpEnd? || s.at.CallFin? {
      SafeKept(s, t);
      LiveIsStrong(s);
      SameKeeps(s, t);
    } else {
      SafePreserved(s, t, strong);
    }
  }

  lemma SameKeeps(s: State, t: State)
    requires Base(s) && StrongSet(s, Live(s)) && t.hp.Keys == s.hp.Keys
    requires forall o :: o in s.hp && (s.at.CallFin? ==> o != s.an.running) ==> t.hp[o] == s.hp[o]
    ensures KeepsContents(s, t)
  {
    hide Base, StrongSet, Live;
    LiveSubset(s);
    assert KeepsSet(s, t, Live(s));
  }

  method NewState(main: Id) returns (g: GlobalState)
    ensures fresh(g) && Good(Now(g)) && g.gckind.Incremental?
    ensures g.hp.Keys == {main} && g.an.main == main
  {
    g := new GlobalState(main);
    FirstState(main, Snap(g));
  }

  lemma FirstState(main: Id, s: State)
    requires s == State(map[main := Thread([], [])], map[main := Mark(White(false), Age.New, false)], [],
      Links([], [], [], []),
                        Objects([main], [], [], []), Anchors(main, main, Nil, []), [], false, Pause, NoSweep)
    ensures Valid(s)
  {
    assert Live(s) == {main};
    FirstBase(main, s);
  }

  lemma FirstBase(main: Id, s: State)
    requires s.hp == map[main := Thread([], [])] && s.mk == map[main := Mark(White(false), Age.New, false)]
      && !s.white && s.twups == []
    requires s.ls == Objects([main], [], [], []) && s.an == Anchors(main, main, Nil, []) && Live(s) == {main}
    ensures Base(s)
  {
    hide Live, Roots, Partition, UpvalsOk, LiveClosed, MetasOk, TwupsOk, KindsOk, FinOk;
    FirstLists(main, s);
    FirstGraph(main, s.hp, s.mk, s.ls, s.an);
  }

  lemma FirstLists(main: Id, s: State)
    requires s.hp == map[main := Thread([], [])] && s.ls == Objects([main], [], [], [])
      && s.an == Anchors(main, main, Nil, [])
    ensures Partition(s.hp, s.ls) && Roots(s) == {main}
  {
    assert multiset([main]) == multiset(s.hp.Keys);
    assert ValueSet([Nil]) == {} && ValueSet([]) == {};
    assert Elements<Id>([]) == {};
  }

  lemma FirstGraph(main: Id, hp: Heap, mk: Marks, ls: Objects, an: Anchors)
    requires hp == map[main := Thread([], [])] && mk == map[main := Mark(White(false), Age.New, false)]
    requires ls == Objects([main], [], [], []) && an == Anchors(main, main, Nil, [])
    ensures UpvalsOk(hp) && LiveClosed(hp, {main}) && MetasOk(hp, {main}) && TwupsOk(hp, {main}, [])
      && KindsOk(hp, mk, ls, an) && FinOk(mk, ls)
  {
  }

  /** One action of the program. */
  method Mutate(g: GlobalState, a: Action)
    requires Good(Now(g)) && Enabled(Snap(g), g.gckind.GenMinor?, a) && !Collects(a) && !a.Finalize?
    modifies g
    ensures Good(Now(g)) && g.gckind == old(g.gckind)
    ensures forall o :: o in old(Live(Snap(g))) ==> o in g.hp
  {
    hide Base, Phase, GenInv, Live, FreshOk, StoreOk, AnchorsOk, KeptLive, ClosedOnly, Good, Breaks, CanClose,
      CloseBreaks, CloseFirst, ClosedFirst;
    GoodOk(g);
    OkBase(g);
    LiveSubset(Snap(g));
    match a {
      case New(o, ob) => NewObject(g, o, ob);
      case StoreWithBarrier(o, ob, v) => StoreForward(g, o, ob, v);
      case StoreWithBarrierBack(o, ob, vs) => StoreBack(g, o, ob, vs);
      case WriteStack(th, stack) => SetStack(g, th, stack);
      case Capture(th, slot, o) => var u := FindUpval(g, th, slot, o);
      case CloseUpvals(th, level) =>
        ghost var h0 := g.hp;
        CloseUpval(g, th, level);
        ClosedKeys(h0, g.hp, th);
      case CloseFirstUpval(th) =>
        ghost var s := Snap(g);
        UpvalsShown(s, th);
        CloseOne(g, th);
        ClosedFirstKeys(s.hp, th);
      case Intern(o) => InternFound(g, o);
      case Anchor(an) => SetAnchors(g, an);
      case SetFinalizer(o) =>
        ghost var s := Snap(g);
        CheckFinalizer(g, o);
        KeptThere(s.hp, g.hp, Live(s));
      case _ => assert false;
    }
    OkGood(g);
  }

  lemma ClosedFirstKeys(hp: Heap, th: Id)
    requires th in hp && hp[th].Thread? && hp[th].upvals != [] && hp[th].upvals[0] in hp
    ensures CloseFirst(hp, th).Keys == hp.Keys
  {
  }

  lemma ClosedKeys(h0: Heap, h1: Heap, th: Id)
    requires ClosedOnly(h0, h1, th)
    ensures h0.Keys == h1.Keys
  {
  }

  lemma KeptThere(h0: Heap, h1: Heap, live: set<Id>)
    requires KeptLive(h0, h1, live)
    ensures live <= h1.Keys
  {
  }

  lemma LiveEnclosed(s: State)
    requires Base(s)
    ensures Enclosed(s.hp, Live(s)) && Roots(s) <= Live(s)
  {
    hide UpvalsOk, MetasOk, TwupsOk, Partition, KindsOk, FinOk, Live, Roots;
    forall o | o in Live(s) && o in s.hp
      ensures StrongRefsIn(s.hp, s.hp[o], Live(s)) && StringsIn(s.hp, s.hp[o], Live(s))
    {
      assert RefsIn(s.hp, s.hp[o], Live(s));
    }
  }

  /** One action of the collector. */
  method Collect(g: GlobalState, a: Action)
    requires Good(Now(g)) && Enabled(Snap(g), g.gckind.GenMinor?, a) && Collects(a)
    modifies g
    ensures Good(Now(g)) && Safe(old(Snap(g)), Snap(g)) && KeepsContents(old(Snap(g)), Snap(g))
  {
    hide Base, Phase, GenInv, Live, Within, Covers, CoversFin, Stepped, Safe, Good, Preserved, KeepsContents, Enclosed,
      StrongSet, Keeps;
    ghost var s := Snap(g);
    ghost var strong;
    GoodOk(g);
    OkBase(g);
    if a.Step? {
      WithinAll(s);
      strong := SingleStep(g, a.fast, a.mayCall, a.tm, Live(s), Live(s));
      OkBase(g);
      SafeStepped(s, Snap(g), strong);
    } else if a.FullCollection? {
      LiveEnclosed(s);
      strong := FullInc(g, Live(s));
      OkBase(g);
      SafeWhole(s, Snap(g), strong);
    } else {
      if a.Young? {
        GenCovers(s, g.ptr);
        strong := YoungCollection(g, Live(s), Live(s));
      } else if a.EnterGen? {
        WithinAll(s);
        WithinCovers(s);
        strong := AtomicToGen(g, Live(s), Live(s));
      } else {
        strong := Live(s);
        MinorToInc(g);
      }
      OkBase(g);
      SafePreserved(s, Snap(g), strong);
    }
    OkGood(g);
  }

  lemma WithinCovers(s: State)
    requires Within(s, Live(s), Live(s)) && KeepInvariant(s.at)
    ensures Covers(s, Live(s)) && CoversFin(s, Live(s), Live(s))
  {
  }

  /** Between young collections nothing is outside the set of all objects. */
  lemma GenCovers(s: State, p: Pointers)
    requires GenInv(s, p)
    ensures Covers(s, Live(s)) && CoversFin(s, Live(s), Live(s))
  {
    hide GenInv, Base, Live, HeapReady, Enclosed, Marked;
    GenFacts(s, p);
    GenBase(s, p);
    ReadyEnclosed(s.hp, s.hp.Keys);
    LiveIsStrong(s);
    ListedLive(s);
    MarkedLive(s);
  }

  lemma ListedLive(s: State)
    requires Base(s)
    ensures forall o :: o in s.ls.tobefnz || o in s.ls.fixedgc || o in s.ls.finobj ==> o in Live(s)
  {
    hide UpvalsOk, MetasOk, LiveClosed, TwupsOk, KindsOk, FinOk, Partition, Live;
    forall o | o in s.ls.tobefnz || o in s.ls.fixedgc || o in s.ls.finobj ensures o in Live(s) {
      assert o in Elements(s.ls.finobj) + Elements(s.ls.tobefnz) + Elements(s.ls.fixedgc);
      assert o in Roots(s);
    }
  }

  /** One action, of the program or of the collector. */
  method Perform(g: GlobalState, a: Action)
    requires Good(Now(g)) && Enabled(Snap(g), g.gckind.GenMinor?, a)
    modifies g
    ensures Good(Now(g)) && Safe(old(Snap(g)), Snap(g))
    ensures Collects(a) ==> KeepsContents(old(Snap(g)), Snap(g))
  {
    hide Base, Phase, GenInv, Live, Safe, Good, KeepsContents, Breaks, CanClose, CloseBreaks, Enclosed, Valid;
    ghost var s := Snap(g);
    if Collects(a) {
      Collect(g, a);
    } else {
      GoodBase(Now(g));
      LiveSubset(s);
      if a.Finalize? {
        GoodOk(g);
        var o := GCTM(g, a.tm);
        OkGood(g);
        GoodBase(Now(g));
        SafeKept(s, Snap(g));
      } else {
        Mutate(g, a);
        GoodBase(Now(g));
        SafeKept(s, Snap(g));
      }
    }
  }

  /** Any sequence of actions, those that are not possible skipped. Every state on the way is
      valid for its mode, every action safe, and the collector keeps the contents. */
  method Run(g: GlobalState, script: seq<Action>) returns (ghost trace: seq<Point>)
    requires Good(Now(g))
    modifies g
    ensures |trace| == |script| + 1 && trace[0] == old(Now(g)) && trace[|script|] == Now(g)
    ensures forall i :: 0 <= i <= |script| ==> Good(trace[i])
    ensures forall i :: 0 <= i < |script| ==> Safe(trace[i].s, trace[i + 1].s)
    ensures forall i :: 0 <= i < |script| && Collects(script[i]) ==> KeepsContents(trace[i].s, trace[i + 1].s)
  {
    hide Base, Phase, Live, Safe, Enabled, Good, KeepsContents, Snap;
    trace := [Now(g)];
    for n := 0 to |script|
      invariant |trace| == n + 1 && trace[0] == old(Now(g)) && trace[n] == Now(g)
      invariant forall i :: 0 <= i <= n ==> Good(trace[i])
      invariant forall i :: 0 <= i < n ==> Safe(trace[i].s, trace[i + 1].s)
      invariant forall i :: 0 <= i < n && Collects(script[i]) ==> KeepsContents(trace[i].s, trace[i + 1].s)
    {
      if Enabled(Current(g), g.gckind.GenMinor?, script[n]) {
        Perform(g, script[n]);
      } else {
        GoodBase(Now(g));
        Idle(Snap(g));
      }
      trace := trace + [Now(g)];
    }
  }

  /** The state, for the executable check of what is possible. */
  function Current(g: GlobalState): (s: State)
    reads g
    ensures s == Snap(g)
  {
    State(g.hp, g.mk, g.gray, Links(g.grayagain, g.weak, g.allweak, g.ephemeron), g.ls, g.an, g.twups, g.currentwhite,
      g.gcstate, g.sweepgc)
  }

  lemma Idle(s: State)
    requires Base(s)
    ensures Safe(s, s) && KeepsContents(s, s)
  {
    hide Base, Live, Safe;
    LiveSubset(s);
    SafeKept(s, s);
    LiveIsStrong(s);
    SameKeeps(s, s);
  }
}
