/** The object graph the collector works on: what an object refers to, what
    counts as a strong reference, and how clearing table entries shrinks it. */
module LuaHeap {

  type Id = nat

  /** A slot: empty, a non-collectable value, or a reference. */
  datatype Value = Nil | Scalar | Ref(id: Id)

  datatype Mode = Strong | WeakValues | Ephemeron | AllWeak

  /** A node of the hash part. An entry with an empty value is logically absent;
      its key is dead once cleared. */
  datatype Entry = Entry(key: Value, val: Value)

  /** Closure stands for Lua closures, C closures and prototypes: objects whose
      references are a plain array of slots. */
  datatype Object =
    | Str
    | OpenUpval(th: Id, slot: nat)
    | ClosedUpval(v: Value)
    | Udata(meta: Value, uvs: seq<Value>)
    | Table(meta: Value, mode: Mode, arr: seq<Value>, hash: seq<Entry>)
    | Closure(refs: seq<Value>)
    | Thread(stack: seq<Value>, upvals: seq<Id>)

  type Heap = map<Id, Object>

  predicate In(v: Value, s: set<Id>) {
    v.Ref? ==> v.id in s
  }

  predicate AllIn(vs: seq<Value>, s: set<Id>) {
    forall i :: 0 <= i < |vs| ==> In(vs[i], s)
  }

  /** Keys of empty entries included, unless they are dead. */
  predicate KeysIn(h: seq<Entry>, s: set<Id>) {
    forall i :: 0 <= i < |h| ==> In(h[i].key, s)
  }

  predicate LiveKeysIn(h: seq<Entry>, s: set<Id>) {
    forall i :: 0 <= i < |h| && h[i].val != Nil ==> In(h[i].key, s)
  }

  predicate ValsIn(h: seq<Entry>, s: set<Id>) {
    forall i :: 0 <= i < |h| ==> In(h[i].val, s)
  }

  /** The value an open upvalue shows: the stack slot it is attached to. */
  function SlotValue(hp: Heap, th: Id, slot: nat): Value {
    if th in hp && hp[th].Thread? && slot < |hp[th].stack| then hp[th].stack[slot] else Nil
  }

  /** Every reference held by `ob`, weak ones included, is in `s`. */
  predicate RefsIn(hp: Heap, ob: Object, s: set<Id>) {
    match ob
    case Str => true
    case OpenUpval(th, slot) => In(SlotValue(hp, th, slot), s)
    case ClosedUpval(v) => In(v, s)
    case Udata(meta, uvs) => In(meta, s) && AllIn(uvs, s)
    case Table(meta, _, arr, hash) => In(meta, s) && AllIn(arr, s) && KeysIn(hash, s) && ValsIn(hash, s)
    case Closure(refs) => AllIn(refs, s)
    case Thread(stack, upvals) => AllIn(stack, s) && forall i :: 0 <= i < |upvals| ==> upvals[i] in s
  }

  /** No dangling reference. */
  ghost predicate Closed(hp: Heap) {
    forall o :: o in hp ==> RefsIn(hp, hp[o], hp.Keys)
  }

  /** Open upvalues and their threads point at each other. */
  ghost predicate UpvalsOk(hp: Heap) {
    && (forall o :: o in hp && hp[o].OpenUpval? ==>
          && hp[o].th in hp && hp[hp[o].th].Thread?
          && hp[o].slot < |hp[hp[o].th].stack|
          && o in hp[hp[o].th].upvals)
    && (forall o, i :: o in hp && hp[o].Thread? && 0 <= i < |hp[o].upvals| ==>
          hp[o].upvals[i] in hp && hp[hp[o].upvals[i]].OpenUpval? && hp[hp[o].upvals[i]].th == o)
    && (forall o, i, j ::
      o in hp && hp[o].Thread? && 0 <= i < j < |hp[o].upvals| ==> hp[o].upvals[i] != hp[o].upvals[j])
  }

  /** Metatables of the objects of `s` are tables. */
  ghost predicate MetasOk(hp: Heap, s: set<Id>) {
    forall o :: o in s && o in hp && (hp[o].Udata? || hp[o].Table?) && hp[o].meta.Ref? ==>
      hp[o].meta.id in hp && hp[hp[o].meta.id].Table?
  }

  ghost predicate WellFormed(hp: Heap) {
    UpvalsOk(hp) && MetasOk(hp, hp.Keys)
  }

  predicate IsStr(hp: Heap, v: Value) {
    v.Ref? && v.id in hp && hp[v.id].Str?
  }

  /** A key that keeps its ephemeron entry: not collectable, a string (strings
      behave as values) or an object of `s`. */
  predicate KeyAlive(hp: Heap, k: Value, s: set<Id>) {
    k.Ref? ==> IsStr(hp, k) || k.id in s
  }

  /** The references the collector follows are in `s`: everything but weak keys and
      values, and an ephemeron value only when its key is alive. */
  predicate StrongRefsIn(hp: Heap, ob: Object, s: set<Id>) {
    if ob.Table? then
      && In(ob.meta, s)
      && match ob.mode
         case Strong => AllIn(ob.arr, s) && LiveKeysIn(ob.hash, s) && ValsIn(ob.hash, s)
         case WeakValues => LiveKeysIn(ob.hash, s)
         case Ephemeron =>
           && AllIn(ob.arr, s)
           && forall i :: 0 <= i < |ob.hash| && KeyAlive(hp, ob.hash[i].key, s) ==> In(ob.hash[i].val, s)
         case AllWeak => true
    else RefsIn(hp, ob, s)
  }

  /** The strings a table mentions are in `s`; no weak table ever drops a string. */
  predicate StringsIn(hp: Heap, ob: Object, s: set<Id>) {
    ob.Table? ==>
      && (forall i :: 0 <= i < |ob.arr| && IsStr(hp, ob.arr[i]) ==> ob.arr[i].id in s)
      && (forall i :: 0 <= i < |ob.hash| && IsStr(hp, ob.hash[i].key) ==> ob.hash[i].key.id in s)
      && (forall i :: 0 <= i < |ob.hash| && IsStr(hp, ob.hash[i].val) ==> ob.hash[i].val.id in s)
  }

  /** `c` is closed under the references the collector follows. */
  ghost predicate Enclosed(hp: Heap, c: set<Id>) {
    forall o :: o in c && o in hp ==> StrongRefsIn(hp, hp[o], c) && StringsIn(hp, hp[o], c)
  }

  lemma AllIsEnclosed(hp: Heap)
    requires Closed(hp)
    ensures Enclosed(hp, hp.Keys)
  {
  }

  lemma RefsInMonotone(hp: Heap, ob: Object, s: set<Id>, t: set<Id>)
    requires RefsIn(hp, ob, s) && s <= t
    ensures RefsIn(hp, ob, t)
  {
  }

  /** `b` is `a` with some weak entries emptied and some keys of empty entries dead. */
  predicate Shrunk(a: Object, b: Object) {
    a == b ||
    (&& a.Table? && b.Table?
     && a.meta == b.meta && a.mode == b.mode
     && |a.arr| == |b.arr| && |a.hash| == |b.hash|
     && (forall i :: 0 <= i < |a.arr| ==> b.arr[i] == a.arr[i] || b.arr[i] == Nil)
     && (forall i :: 0 <= i < |a.hash| ==> ShrunkEntry(a.hash[i], b.hash[i])))
  }

  predicate ShrunkEntry(a: Entry, b: Entry) {
    a == b || (b.val == Nil && (b.key == a.key || b.key == Nil))
  }

  ghost predicate HeapShrunk(h0: Heap, h1: Heap) {
    h0.Keys == h1.Keys && forall o :: o in h0 ==> Shrunk(h0[o], h1[o])
  }

  lemma ShrunkRefs(h0: Heap, h1: Heap, o: Id, s: set<Id>)
    requires HeapShrunk(h0, h1) && o in h0 && RefsIn(h0, h0[o], s)
    ensures RefsIn(h1, h1[o], s)
  {
    if h0[o].OpenUpval? {
      var th := h0[o].th;
      assert SlotValue(h0, th, h0[o].slot) == SlotValue(h1, th, h0[o].slot) by {
        if th in h0 { assert Shrunk(h0[th], h1[th]); }
      }
    }
  }

  lemma ShrunkClosed(h0: Heap, h1: Heap)
    requires HeapShrunk(h0, h1)
    ensures Closed(h0) ==> Closed(h1)
    ensures WellFormed(h0) ==> WellFormed(h1)
  {
    if Closed(h0) {
      forall o | o in h1 ensures RefsIn(h1, h1[o], h1.Keys) { ShrunkRefs(h0, h1, o, h0.Keys); }
    }
    assert forall o :: o in h0 && !h0[o].Table? ==> h1[o] == h0[o];
    assert forall o :: o in h0 && h0[o].Table? ==> h1[o].Table? && h1[o].meta == h0[o].meta;
  }

  lemma ShrunkEnclosed(h0: Heap, h1: Heap, c: set<Id>)
    requires HeapShrunk(h0, h1) && Enclosed(h0, c)
    ensures Enclosed(h1, c)
  {
    assert forall v :: IsStr(h1, v) <==> IsStr(h0, v) by {
      forall v | v in h0 ensures h0[v].Str? <==> h1[v].Str? { assert Shrunk(h0[v], h1[v]); }
    }
    forall o | o in c && o in h1 ensures StrongRefsIn(h1, h1[o], c) && StringsIn(h1, h1[o], c) {
      assert Shrunk(h0[o], h1[o]);
      assert StrongRefsIn(h0, h0[o], c) && StringsIn(h0, h0[o], c);
      if !h0[o].Table? { ShrunkRefs(h0, h1, o, c); }
    }
  }

  lemma ShrunkTrans(h0: Heap, h1: Heap, h2: Heap)
    requires HeapShrunk(h0, h1) && HeapShrunk(h1, h2)
    ensures HeapShrunk(h0, h2)
  {
    forall o | o in h0 ensures Shrunk(h0[o], h2[o]) {
      assert Shrunk(h0[o], h1[o]) && Shrunk(h1[o], h2[o]);
    }
  }

  /** `o` has been visited during the atomic phase: every reference is in `s`, or `o` is
      a weak table waiting, in the list for its kind, to have entries removed. */
  ghost predicate Visited(hp: Heap, o: Id, s: set<Id>, weak: seq<Id>, allweak: seq<Id>, eph: seq<Id>)
    requires o in hp
  {
    || RefsIn(hp, hp[o], s)
    || (hp[o].Table? && In(hp[o].meta, s)
        && match hp[o].mode
           case Strong => false
           case WeakValues => KeysIn(hp[o].hash, s) && o in weak
           case Ephemeron => AllIn(hp[o].arr, s) && (o in eph || (o in allweak && ValsIn(hp[o].hash, s)))
           case AllWeak => o in allweak)
  }

  lemma VisitedMonotone(hp: Heap, o: Id, s: set<Id>, w: seq<Id>, a: seq<Id>, e: seq<Id>, s': set<Id>, w': seq<Id>,
          a': seq<Id>, e': seq<Id>)
    requires o in hp && Visited(hp, o, s, w, a, e) && s <= s'
    requires o in w ==> o in w'
    requires o in a ==> o in a'
    requires o in e ==> o in e'
    ensures Visited(hp, o, s', w', a', e')
  {
  }

  lemma ShrunkVisited(h0: Heap, h1: Heap, o: Id, s: set<Id>, w: seq<Id>, a: seq<Id>, e: seq<Id>)
    requires HeapShrunk(h0, h1) && o in h0 && Visited(h0, o, s, w, a, e)
    ensures Visited(h1, o, s, w, a, e)
  {
    if RefsIn(h0, h0[o], s) { ShrunkRefs(h0, h1, o, s); }
    assert Shrunk(h0[o], h1[o]);
  }

  /** Nothing visible was removed: only keys of entries already empty became dead. */
  ghost predicate NothingLost(h0: Heap, h1: Heap) {
    h0.Keys == h1.Keys && forall o :: o in h0 ==> SameContents(h0[o], h1[o])
  }

  /** The entry is empty, and its key is what it was, or dead. */
  predicate Emptied(a: Entry, b: Entry) {
    b.val == Nil && (b.key == a.key || !b.key.Ref?)
  }

  predicate SameContents(a: Object, b: Object) {
    a == b ||
    (&& a.Table? && b.Table? && b == a.(hash := b.hash) && |b.hash| == |a.hash|
     && forall i ::
       0 <= i < |a.hash| ==> b.hash[i] == a.hash[i] || (a.hash[i].val == Nil && Emptied(a.hash[i], b.hash[i])))
  }

  /** Slots of weak tables may have been emptied, and only those that mention an object
      outside `s`; strong tables and other objects keep their contents. */
  ghost predicate OnlyWeakLost(h0: Heap, h1: Heap, s: set<Id>) {
    h0.Keys == h1.Keys && forall o :: o in h0 ==> WeakLoss(h0, h0[o], h1[o], s)
  }

  predicate WeakLoss(hp: Heap, a: Object, b: Object, s: set<Id>) {
    || SameContents(a, b)
    || (&& a.Table? && !a.mode.Strong? && b.Table? && b.meta == a.meta && b.mode == a.mode
        && |b.arr| == |a.arr| && |b.hash| == |a.hash|
        && (forall i :: 0 <= i < |a.arr| ==> b.arr[i] == a.arr[i] || (b.arr[i] == Nil && !KeyAlive(hp, a.arr[i], s)))
        && (forall i :: 0 <= i < |a.hash| ==>
              || b.hash[i] == a.hash[i]
              || (Emptied(a.hash[i], b.hash[i]) &&
                  (a.hash[i].val == Nil || !KeyAlive(hp, a.hash[i].key, s) || !KeyAlive(hp, a.hash[i].val, s)))))
  }

  lemma WeakLostTrans(h0: Heap, h1: Heap, h2: Heap, s: set<Id>)
    requires OnlyWeakLost(h0, h1, s) && OnlyWeakLost(h1, h2, s)
    ensures OnlyWeakLost(h0, h2, s)
  {
    forall v ensures KeyAlive(h0, v, s) <==> KeyAlive(h1, v, s) {
      if v.Ref? && v.id in h0 { assert WeakLoss(h0, h0[v.id], h1[v.id], s); }
    }
    forall o | o in h0 ensures WeakLoss(h0, h0[o], h2[o], s) {
      assert WeakLoss(h0, h0[o], h1[o], s) && WeakLoss(h1, h1[o], h2[o], s);
    }
  }

  lemma NothingLostTrans(h0: Heap, h1: Heap, h2: Heap)
    requires NothingLost(h0, h1) && NothingLost(h1, h2)
    ensures NothingLost(h0, h2)
  {
    forall o | o in h0 ensures SameContents(h0[o], h2[o]) {
      assert SameContents(h0[o], h1[o]) && SameContents(h1[o], h2[o]);
    }
  }

  /** `ob` holds a reference to `b`. */
  ghost predicate Refers(hp: Heap, ob: Object, b: Id) {
    match ob
    case Str => false
    case OpenUpval(th, slot) => SlotValue(hp, th, slot) == Ref(b)
    case ClosedUpval(v) => v == Ref(b)
    case Udata(meta, uvs) => meta == Ref(b) || Ref(b) in uvs
    case Table(meta, _, arr, hash) =>
      meta == Ref(b) || Ref(b) in arr || exists i :: 0 <= i < |hash| && (hash[i].key == Ref(b) || hash[i].val == Ref(b))
    case Closure(refs) => Ref(b) in refs
    case Thread(stack, upvals) => Ref(b) in stack || b in upvals
  }

  lemma RefersIn(hp: Heap, ob: Object, b: Id, s: set<Id>)
    requires RefsIn(hp, ob, s) && Refers(hp, ob, b)
    ensures b in s
  {
  }

  /** A chain of references from a root to its last element. */
  ghost predicate Path(hp: Heap, roots: set<Id>, p: seq<Id>) {
    && p != [] && p[0] in roots
    && forall i :: 0 <= i < |p| - 1 ==> p[i] in hp && Refers(hp, hp[p[i]], p[i + 1])
  }

  ghost predicate Reachable(hp: Heap, roots: set<Id>, o: Id) {
    exists p :: Path(hp, roots, p) && p[|p| - 1] == o
  }

  /** A set that contains the roots and is closed under references contains everything
      reachable. */
  lemma {:induction false} PathStaysIn(hp: Heap, roots: set<Id>, p: seq<Id>, s: set<Id>)
    requires Path(hp, roots, p) && roots <= s
    requires forall o :: o in s && o in hp ==> RefsIn(hp, hp[o], s)
    ensures p[|p| - 1] in s
  {
    if |p| > 1 {
      var q := p[..|p| - 1];
      assert Path(hp, roots, q);
      PathStaysIn(hp, roots, q, s);
      assert q[|q| - 1] == p[|p| - 2];
      RefersIn(hp, hp[p[|p| - 2]], p[|p| - 1], s);
    }
  }
}
