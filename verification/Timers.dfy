/** The timers of libuv, on top of the heap; callbacks may start, stop, re-arm and close any
    timer. */
module Timers {
  import H = Heap
  import opened Util

  const EINVAL := -22
  const UINT64_MAX := 0xFFFF_FFFF_FFFF_FFFF
  const INT_MAX := 0x7FFF_FFFF

  /** A handle. An inactive one is in the queue of timers that are ready, or in no queue. */
  datatype Timer = Timer(timeout: nat, repeat: nat, startId: nat, cb: bool, active: bool, closing: bool)

  /** What a callback can do; `h` is any handle of the loop. */
  datatype Op =
    | Start(h: nat, cb: bool, timeout: nat, repeat: nat)
    | Stop(h: nat)
    | Again(h: nat)
    | SetRepeat(h: nat, repeat: nat)
    | Close(h: nat)
    | UpdateTime(time: nat)

  function Stamp(t: Timer): H.Key { H.Key(t.timeout, t.startId) }

  /** timer_less_than. */
  predicate Less(a: H.Key, b: H.Key) {
    if a.timeout < b.timeout then true
    else if b.timeout < a.timeout then false
    else a.startId < b.startId
  }

  lemma LessIsOrder()
    ensures H.StrictWeakOrder(Less)
  {
  }

  /** In the order in which they fall due. */
  ghost predicate Sorted(ts: seq<Timer>, q: seq<nat>) {
    && (forall i :: 0 <= i < |q| ==> q[i] < |ts|)
    && (forall i, j :: 0 <= i < j < |q| ==> Less(Stamp(ts[q[i]]), Stamp(ts[q[j]])))
  }

  /** What the handles say of themselves. */
  ghost predicate Handles(ts: seq<Timer>, ready: seq<nat>, counter: nat) {
    && (forall h: nat :: h < |ts| && ts[h].active ==> ts[h].cb && !ts[h].closing && ts[h].startId < counter)
    && (forall g: nat, h: nat ::
      g < |ts| && h < |ts| && g != h && ts[g].active && ts[h].active ==> ts[g].startId != ts[h].startId)
    && (forall h: nat :: h < |ts| ==> ts[h].repeat <= UINT64_MAX)
    && Distinct(ready)
    && (forall h: nat :: h in ready ==> h < |ts| && !ts[h].active && ts[h].cb && !ts[h].closing)
  }

  predicate OpOk(op: Op, n: nat) {
    match op
    case Start(h, _, timeout, repeat) => h < n && timeout <= UINT64_MAX && repeat <= UINT64_MAX
    case Stop(h) => h < n
    case Again(h) => h < n
    case SetRepeat(h, repeat) => h < n && repeat <= UINT64_MAX
    case Close(h) => h < n
    case UpdateTime(time) => time <= UINT64_MAX
  }

  /** The operation may take the handle out of the queue. */
  predicate MayUnlink(op: Op, h: nat) {
    !op.UpdateTime? && !op.SetRepeat? && op.h == h
  }

  /** The operation does so for a handle of the queue, `repeating` or not: it stops, closes or
      starts it, or starts it again. */
  predicate MustUnlink(op: Op, h: nat, repeating: bool) {
    (op.Stop? || op.Close? || (op.Start? && op.cb) || (op.Again? && repeating)) && op.h == h
  }

  /** The operation makes the handle one that does not repeat. */
  predicate EndsRepeat(op: Op, h: nat) {
    op.SetRepeat? && op.h == h && op.repeat == 0
  }

  /** What an operation does to the queue, and to what repeats in it. */
  ghost predicate Performed(op: Op, ts0: seq<Timer>, r0: seq<nat>, ts1: seq<Timer>, r1: seq<nat>) {
    && |ts1| == |ts0| && (r1 == r0 || exists h: nat :: MayUnlink(op, h) && r1 == Without(r0, h))
    && (forall h: nat :: h in r0 && h < |ts0| && MustUnlink(op, h, ts0[h].repeat > 0) ==> h !in r1)
    && (forall h: nat :: h in r1 && h < |ts0| && !EndsRepeat(op, h) && ts0[h].repeat > 0 ==> ts1[h].repeat > 0)
  }

  /** Nothing but the handle `h` is concerned. */
  lemma PerformedOn(op: Op, h: nat, ts0: seq<Timer>, r0: seq<nat>, ts1: seq<Timer>, r1: seq<nat>)
    requires !op.UpdateTime? && op.h == h < |ts0| == |ts1| && forall x: nat :: x < |ts0| && x != h ==> ts1[x] == ts0[x]
    requires r1 == r0 || (!op.SetRepeat? && r1 == Without(r0, h))
    requires MustUnlink(op, h, ts0[h].repeat > 0) && h in r0 ==> h !in r1
    requires h in r1 && !EndsRepeat(op, h) && ts0[h].repeat > 0 ==> ts1[h].repeat > 0
    ensures Performed(op, ts0, r0, ts1, r1)
  {
    assert r1 != r0 ==> MayUnlink(op, h) && r1 == Without(r0, h);
    hide Without;
  }

  lemma PerformedNone(op: Op, ts: seq<Timer>, r: seq<nat>)
    requires op.UpdateTime?
    ensures Performed(op, ts, r, ts, r)
  {
  }

  lemma SortedWithout(ts: seq<Timer>, log: seq<nat>, q: seq<nat>, x: nat)
    requires Sorted(ts, log + q)
    ensures Sorted(ts, log + Without(q, x))
  {
    if x in q {
      WithoutAt(q, x);
      SortedCut(ts, log + q, log + Without(q, x), |log| + Index(q, x));
    }
  }

  /** `b` is `a` without the element at `m`. */
  lemma SortedCut(ts: seq<Timer>, a: seq<nat>, b: seq<nat>, m: nat)
    requires Sorted(ts, a) && |b| + 1 == |a| && m < |a|
      && forall k :: 0 <= k < |b| ==> b[k] == a[if k < m then k else k + 1]
    ensures Sorted(ts, b)
  {
    hide Less;
  }

  lemma HandlesReady(ts: seq<Timer>, ready: seq<nat>, counter: nat, h: nat)
    requires Handles(ts, ready, counter) && h < |ts| && !ts[h].active && ts[h].cb && !ts[h].closing && h !in ready
    ensures Handles(ts, ready + [h], counter)
  {
  }

  lemma ReadyDistinct(ts: seq<Timer>, ready: seq<nat>, counter: nat)
    requires Handles(ts, ready, counter)
    ensures Distinct(ready) && forall h: nat :: h in ready ==> h < |ts| && !ts[h].active && ts[h].cb && !ts[h].closing
    ensures forall h: nat :: h < |ts| && ts[h].active ==> ts[h].cb && !ts[h].closing && h !in ready
  {
  }

  lemma HandlesTail(ts: seq<Timer>, ready: seq<nat>, counter: nat)
    requires Handles(ts, ready, counter) && ready != []
    ensures Handles(ts, ready[1..], counter) && ready[0] !in ready[1..]
    ensures ready[0] < |ts| && ts[ready[0]].cb
  {
    assert ready[0] in ready;
  }

  lemma HandlesRepeat(ts: seq<Timer>, ready: seq<nat>, counter: nat, h: nat, repeat: nat)
    requires Handles(ts, ready, counter) && h < |ts| && repeat <= UINT64_MAX
    ensures Handles(ts[h := ts[h].(repeat := repeat)], ready, counter)
  {
  }

  lemma HandlesClose(ts: seq<Timer>, ready: seq<nat>, counter: nat, h: nat)
    requires Handles(ts, ready, counter) && h < |ts| && !ts[h].active && h !in ready
    ensures Handles(ts[h := ts[h].(closing := true)], ready, counter)
  {
  }

  lemma HandlesArm(ts: seq<Timer>, ready: seq<nat>, counter: nat, h: nat, due: nat, repeat: nat)
    requires Handles(ts, ready, counter) && h < |ts| && !ts[h].closing && h !in ready && repeat <= UINT64_MAX
    ensures Handles(ts[h := Timer(due, repeat, counter, true, true, false)], ready, counter + 1)
  {
  }

  class Loop {
    var time: nat
    var counter: nat
    const heap: H.Heap
    /** The heap node inside each handle. */
    const nodes: seq<H.Node>
    var timers: seq<Timer>
    /** The queue of uv__run_timers, in which stopping a handle unlinks it. */
    var ready: seq<nat>

    ghost predicate InHeap()
      reads this`timers, heap`repr, nodes`key
    {
      && |nodes| == |timers| && Distinct(nodes)
      && (forall x :: x in heap.repr ==> x in nodes)
      && (forall h: nat :: h < |timers| ==> (timers[h].active <==> nodes[h] in heap.repr))
      && (forall h: nat :: h < |timers| && timers[h].active ==> nodes[h].key == Stamp(timers[h]))
    }

    ghost predicate Valid()
      reads this, heap, nodes
    {
      && heap.lt == Less && InHeap() && time <= UINT64_MAX && |timers| <= INT_MAX
      && heap.Valid()
      && Handles(timers, ready, counter)
    }

    /** A loop with `n` handles after uv_timer_init. */
    constructor (n: nat)
      requires n <= INT_MAX
      ensures Valid() && |timers| == n && ready == []
        && forall h: nat :: h < n ==> !timers[h].active && !timers[h].closing
    {
      LessIsOrder();
      var ns: seq<H.Node> := [];
      while |ns| < n
        invariant |ns| <= n && Distinct(ns)
        invariant forall x :: x in ns ==> fresh(x)
      {
        var x := new H.Node(H.Key(0, 0));
        ns := ns + [x];
      }
      nodes := ns;
      heap := new H.Heap(Less);
      time, counter, ready := 0, 0, [];
      timers := seq(n, _ => Timer(0, 0, 0, false, false, false));
    }

    /** uv_timer_stop. */
    method TimerStop(h: nat)
      requires Valid() && h < |timers|
      modifies this`timers, this`ready, heap, nodes`left, nodes`right, nodes`parent
      ensures Valid() && timers == old(timers)[h := old(timers)[h].(active := false)]
      ensures ready == Without(old(ready), h) && h !in ready
      ensures old(timers)[h].active ==> heap.nelts < old(heap.nelts)
    {
      hide H.Heap.Valid;
      if timers[h].active {
        heap.Remove(nodes[h]);
        timers := timers[h := timers[h].(active := false)];
      } else {
        WithoutFacts(ready, h);
        ready := Without(ready, h);
      }
    }
  
    /** There is room in the heap for a handle that is not in it. */
    lemma Room(h: nat)
      requires Valid() && h < |timers| && !timers[h].active
      ensures heap.nelts < INT_MAX
    {
      var inside, all := set i | 0 <= i < |heap.nodes| :: heap.nodes[i], set i | 0 <= i < |nodes| :: nodes[i];
      Size(heap.nodes);
      Size(nodes);
      forall i | 0 <= i < |heap.nodes| ensures heap.nodes[i] in all - {nodes[h]} {
        var x := heap.nodes[i];
        assert x in heap.repr && x in nodes;
      }
      assert inside <= all - {nodes[h]};
      Smaller(inside, all - {nodes[h]});
    }

    /** An inactive handle goes into the heap. */
    method Arm(h: nat, due: nat, repeat: nat)
      requires Valid() && h < |timers| && !timers[h].active && !timers[h].closing && h !in ready && repeat <= UINT64_MAX
      modifies this`timers, this`counter, heap, nodes
      ensures Valid() && timers == old(timers)[h := Timer(due, repeat, old(counter), true, true, false)]
    {
      hide H.Heap.Valid, Handles;
      Room(h);
      HandlesArm(timers, ready, counter, h, due, repeat);
      nodes[h].key := H.Key(due, counter);
      heap.Insert(nodes[h]);
      timers := timers[h := Timer(due, repeat, counter, true, true, timers[h].closing)];
      counter := counter + 1;
    }

    /** uv_timer_start. */
    method TimerStart(h: nat, cb: bool, timeout: nat, repeat: nat) returns (rc: int)
      requires Valid() && h < |timers| && timeout <= UINT64_MAX && repeat <= UINT64_MAX
      modifies this`timers, this`ready, this`counter, heap, nodes
      ensures Valid() && rc == if old(timers)[h].closing || !cb then EINVAL else 0
      ensures rc == EINVAL ==> timers == old(timers) && ready == old(ready)
      ensures rc == 0 ==>
        var due := if time + timeout > UINT64_MAX then UINT64_MAX else time + timeout;
        && timers == old(timers)[h := Timer(due, repeat, old(counter), true, true, false)]
        && ready == Without(old(ready), h) && h !in ready
    {
      hide H.Heap.Valid, InHeap, Handles;
      if timers[h].closing || !cb {
        rc := EINVAL;
        return;
      }
      TimerStop(h);
      var clamped := (time + timeout) % (UINT64_MAX + 1);
      if clamped < timeout { clamped := UINT64_MAX; }
      Arm(h, clamped, repeat);
      rc := 0;
    }
  
    /** uv_timer_again. */
    method TimerAgain(h: nat) returns (rc: int)
      requires Valid() && h < |timers|
      modifies this`timers, this`ready, this`counter, heap, nodes
      ensures Valid() && rc == if old(timers)[h].cb then 0 else EINVAL
      ensures |timers| == |old(timers)| && timers[h].cb == old(timers)[h].cb
      ensures ready == if timers[h].cb && old(timers)[h].repeat > 0 then Without(old(ready), h) else old(ready)
      ensures timers[h].cb && old(timers)[h].repeat > 0 ==> h !in ready
      ensures timers[h].repeat == old(timers)[h].repeat
      ensures forall g: nat :: g < |timers| && g != h ==> timers[g] == old(timers)[g]
    {
      hide H.Heap.Valid, InHeap;
      if !timers[h].cb {
        rc := EINVAL;
        return;
      }
      if timers[h].repeat > 0 {
        TimerStop(h);
        var _ := TimerStart(h, true, timers[h].repeat, timers[h].repeat);
        hide Handles;
        WithoutTwice(old(ready), h);
      }
      rc := 0;
    }

    /** One operation of a callback. */
    method Perform(op: Op)
      requires Valid() && OpOk(op, |timers|)
      modifies this`timers, this`ready, this`counter, this`time, heap, nodes
      ensures Valid() && Performed(op, old(timers), old(ready), timers, ready)
    {
      hide H.Heap.Valid, InHeap, Handles, Without, Performed;
      ReadyDistinct(timers, ready, counter);
      match op
      case Start(h, cb, timeout, repeat) =>
        var rc := TimerStart(h, cb, timeout, repeat);
        PerformedOn(op, h, old(timers), old(ready), timers, ready);
      case Stop(h) =>
        TimerStop(h);
        PerformedOn(op, h, old(timers), old(ready), timers, ready);
      case Again(h) =>
        var rc := TimerAgain(h);
        PerformedOn(op, h, old(timers), old(ready), timers, ready);
      case SetRepeat(h, repeat) =>
        Amend(h, timers[h].(repeat := repeat));
        PerformedOn(op, h, old(timers), old(ready), timers, ready);
      case Close(h) =>
        TimerClose(h);
        PerformedOn(op, h, old(timers), old(ready), timers, ready);
      case UpdateTime(t) =>
        time := if t > time then t else time;
        PerformedNone(op, timers, ready);
    }

    /** uv_close of a timer. */
    method TimerClose(h: nat)
      requires Valid() && h < |timers|
      modifies this`timers, this`ready, heap, nodes`left, nodes`right, nodes`parent
      ensures Valid() && timers == old(timers)[h := old(timers)[h].(active := false, closing := true)]
      ensures ready == Without(old(ready), h) && h !in ready
    {
      hide H.Heap.Valid, InHeap, Handles;
      TimerStop(h);
      Amend(h, timers[h].(closing := true));
    }

    /** Sets a field that the heap does not depend on. */
    method Amend(h: nat, t: Timer)
      requires Valid() && h < |timers|
      requires (exists repeat: nat :: repeat <= UINT64_MAX && t == timers[h].(repeat := repeat))
               || (!timers[h].active && h !in ready && t == timers[h].(closing := true))
      modifies this`timers
      ensures Valid() && timers == old(timers)[h := t]
    {
      hide H.Heap.Valid, Handles;
      if t.closing == timers[h].closing && t.repeat <= UINT64_MAX {
        HandlesRepeat(timers, ready, counter, h, t.repeat);
      } else {
        HandlesClose(timers, ready, counter, h);
      }
      timers := timers[h := t];
    }
  
    /** Timers that are due at `now`. */
    ghost predicate Due(ts: seq<Timer>, now: nat, h: nat) {
      h < |ts| && ts[h].active && ts[h].timeout <= now
    }

    /** The handle with the least stamp, if any is active. */
    method Earliest() returns (some: bool, h: nat)
      requires Valid()
      ensures some ==> h < |timers| && timers[h].active
      ensures some ==>
        forall g: nat :: g < |timers| && timers[g].active && g != h ==> Less(Stamp(timers[h]), Stamp(timers[g]))
      ensures !some ==> forall g: nat :: g < |timers| ==> !timers[g].active
    {
      var n := heap.Min();
      if n == null {
        some, h := false, 0;
        return;
      }
      assert n in heap.repr;
      some, h := true, Index(nodes, n);
      forall g: nat | g < |timers| && timers[g].active && g != h ensures Less(Stamp(timers[h]), Stamp(timers[g])) {
        assert nodes[g] in heap.nodes;
      }
    }

    /** uv__next_timeout: never later than the earliest deadline. */
    method NextTimeout() returns (r: int)
      requires Valid()
      ensures r == -1 <==> forall h: nat :: h < |timers| ==> !timers[h].active
      ensures r != -1 ==> 0 <= r <= INT_MAX
      ensures forall h: nat :: h < |timers| && timers[h].active ==>
                if timers[h].timeout <= time then r == 0 else time + r <= timers[h].timeout
      ensures r > 0 ==>
        r == INT_MAX || exists h: nat :: h < |timers| && timers[h].active && timers[h].timeout == time + r
    {
      hide H.Heap.Valid, InHeap, Handles;
      var some, h := Earliest();
      if !some { return -1; }
      if timers[h].timeout <= time { return 0; }
      var diff := timers[h].timeout - time;
      if diff > INT_MAX { diff := INT_MAX; }
      r := diff;
    }

    /** The first loop of uv__run_timers: the queue gets exactly the timers that are due, in
        the order of their deadlines and, among equal ones, of their starts. */
    method Drain()
      requires Valid() && ready == []
      modifies this`timers, this`ready, heap, nodes`left, nodes`right, nodes`parent
      ensures Valid() && |timers| == |old(timers)|
      ensures Sorted(old(timers), ready)
      ensures forall h: nat :: h in ready <==> Due(old(timers), time, h)
      ensures forall h: nat ::
        h < |timers| ==> timers[h] == old(timers)[h].(active := old(timers)[h].active && h !in ready)
    {
      hide H.Heap.Valid, InHeap, Handles;
      while true
        invariant Valid() && |timers| == |old(timers)| && Sorted(old(timers), ready)
        invariant forall h: nat :: h in ready ==> Due(old(timers), time, h)
        invariant forall h: nat ::
          h < |timers| ==> timers[h] == old(timers)[h].(active := old(timers)[h].active && h !in ready)
        invariant forall h: nat, g: nat ::
          h in ready && g < |timers| && timers[g].active ==> Less(Stamp(timers[h]), Stamp(timers[g]))
        decreases heap.nelts
      {
        var some, h := Earliest();
        if !some { break; }
        if timers[h].timeout > time { break; }
        ReadyDistinct(timers, ready, counter);
        TimerStop(h);
        HandlesReady(timers, ready, counter, h);
        ready := ready + [h];
      }
    }

    /** What the callback of a timer does. */
    method Callback(ops: seq<Op>)
      requires Valid() && forall k :: 0 <= k < |ops| ==> OpOk(ops[k], |timers|)
      modifies this`timers, this`ready, this`counter, this`time, heap, nodes
      ensures Valid() && |timers| == |old(timers)| && |ready| <= |old(ready)|
      ensures forall h: nat :: h in ready ==> h in old(ready)
      ensures forall ts, log: seq<nat> :: Sorted(ts, log + old(ready)) ==> Sorted(ts, log + ready)
      ensures forall h: nat :: h in old(ready) && h !in ready ==> exists k :: 0 <= k < |ops| && MayUnlink(ops[k], h)
      ensures forall h: nat :: h in ready ==> !Unlinks(ops, |ops|, h, Repeats(ops, |ops|, h, old(timers)))
      ensures forall h: nat :: h in ready && Repeats(ops, |ops|, h, old(timers)) ==> timers[h].repeat > 0
    {
      hide H.Heap.Valid, InHeap, Handles, Sorted, MustUnlink, MayUnlink, EndsRepeat, Without;
      ReadyDistinct(timers, ready, counter);
      for k := 0 to |ops|
        invariant Valid() && |timers| == |old(timers)| && |ready| <= |old(ready)|
        invariant forall h: nat :: h in ready ==> h in old(ready) && h < |timers|
        invariant forall ts, log: seq<nat> :: Sorted(ts, log + old(ready)) ==> Sorted(ts, log + ready)
        invariant forall h: nat :: h in old(ready) && h !in ready ==> exists j :: 0 <= j < k && MayUnlink(ops[j], h)
        invariant forall h: nat :: h in ready ==> !Unlinks(ops, k, h, Repeats(ops, k, h, old(timers)))
        invariant forall h: nat :: h in ready && Repeats(ops, k, h, old(timers)) ==> timers[h].repeat > 0
      {
        ghost var before, mid := ready, timers;
        ReadyDistinct(timers, ready, counter);
        Perform(ops[k]);
        if ready != before {
          ghost var h: nat :| MayUnlink(ops[k], h) && ready == Without(before, h);
          WithoutFacts(before, h);
          forall ts, log: seq<nat> | Sorted(ts, log + old(ready)) ensures Sorted(ts, log + ready) {
            SortedWithout(ts, log, before, h);
          }
        }
        forall h: nat | h in ready ensures !Unlinks(ops, k + 1, h, Repeats(ops, k + 1, h, old(timers))) {
          assert h in before;
          OneMoreOp(ops, k, h, old(timers), mid);
        }
      }
    }

    /** Where the run stands after the callbacks of `log`: what waits is due and in order, and
        what is missing was taken out by a callback. */
    ghost predicate Running(script: seq<seq<Op>>, ts0: seq<Timer>, t0: nat, log: seq<nat>)
      reads this`timers, this`ready
    {
      && |timers| == |ts0| && Sorted(ts0, log + ready)
      && (forall h: nat :: h in log || h in ready ==> Due(ts0, t0, h))
      && (forall h: nat :: Due(ts0, t0, h) && h !in log && h !in ready ==> Unlinked(script, |log|, h))
      && (forall j: nat :: j < |log| ==> !Restarted(script, j, log[j], ts0))
      && (forall h: nat :: h in ready ==> !Restarted(script, |log|, h, ts0))
      && (forall h: nat :: h in ready ==> h < |timers| && (RepeatsIn(script, |log|, h, ts0) ==> timers[h].repeat > 0))
    }

    /** The first timer of the queue is taken out, started again if it repeats, and called. */
    method RunFirst(script: seq<seq<Op>>, runs: nat, ghost ts0: seq<Timer>, ghost t0: nat, ghost log: seq<nat>)
      requires Valid() && ready != [] && runs == |log| && Running(script, ts0, t0, log)
      requires forall i, k :: 0 <= i < |script| && 0 <= k < |script[i]| ==> OpOk(script[i][k], |timers|)
      modifies this`timers, this`ready, this`counter, this`time, heap, nodes
      ensures Valid() && |ready| < |old(ready)| && Running(script, ts0, t0, log + [old(ready)[0]])
    {
      hide H.Heap.Valid, InHeap, Handles, Sorted, Due, MayUnlink, MustUnlink, Unlinks, Repeats, Restarted, RepeatsIn;
      var h := ready[0];
      assert h in ready && !Restarted(script, |log|, h, ts0);
      ghost var before := ready;
      HandlesTail(timers, ready, counter);
      ReadyDistinct(timers, ready, counter);
      ready := ready[1..];
      assert log + before == (log + [h]) + ready;
      ghost var ts := timers;
      var _ := TimerAgain(h);
      assert timers[h].cb;
      ghost var mid := timers;
      if runs < |script| {
        Callback(script[runs]);
      }
      forall x: nat | x in ready
        ensures !Restarted(script, runs + 1, x, ts0)
        ensures RepeatsIn(script, runs + 1, x, ts0) ==> timers[x].repeat > 0
      {
        assert x in before && x != h && mid[x] == ts[x];
        OneMoreCallback(script, runs, x, ts0, mid);
      }
    }

    /** uv__run_timers, where the i-th callback does `script[i]`. It ends, it runs exactly the
        timers that were due, each once at most and in the order of their deadlines, but for
        those that an earlier callback took out; and all that an earlier callback stopped,
        closed or started are left out. */
    method RunTimers(script: seq<seq<Op>>) returns (ghost log: seq<nat>)
      requires Valid() && ready == []
      requires forall i, k :: 0 <= i < |script| && 0 <= k < |script[i]| ==> OpOk(script[i][k], |timers|)
      modifies this`timers, this`ready, this`counter, this`time, heap, nodes
      ensures Valid() && ready == [] && |timers| == |old(timers)|
      ensures Sorted(old(timers), log)
      ensures forall h: nat :: h in log ==> Due(old(timers), old(time), h)
      ensures forall h: nat :: Due(old(timers), old(time), h) && h !in log ==> Unlinked(script, |log|, h)
      ensures forall j: nat :: j < |log| ==> !Restarted(script, j, log[j], old(timers))
    {
      hide H.Heap.Valid, InHeap, Handles, Sorted, Due, MayUnlink, MustUnlink, Unlinks, Repeats, Restarted, RepeatsIn;
      Drain();
      log := [];
      assert log + ready == ready;
      NoneYet(script, old(timers));
      ReadyDistinct(timers, ready, counter);
      var runs := 0;
      while ready != []
        invariant Valid() && |timers| == |old(timers)| && runs == |log|
        invariant Running(script, old(timers), old(time), log)
        decreases |ready|
      {
        ghost var h := ready[0];
        RunFirst(script, runs, old(timers), old(time), log);
        log := log + [h];
        runs := runs + 1;
      }
      assert log + [] == log;
    }
  }

  /** Does a handle go on repeating, under the first `n` operations? */
  ghost predicate Repeats(ops: seq<Op>, n: nat, h: nat, ts: seq<Timer>) {
    h < |ts| && ts[h].repeat > 0 && forall k :: 0 <= k < n && k < |ops| ==> !EndsRepeat(ops[k], h)
  }

  /** Do the first `n` operations stop or start a handle of the queue? */
  ghost predicate Unlinks(ops: seq<Op>, n: nat, h: nat, repeating: bool) {
    exists k :: 0 <= k < n && k < |ops| && MustUnlink(ops[k], h, repeating)
  }

  ghost predicate RepeatsIn(script: seq<seq<Op>>, n: nat, h: nat, ts: seq<Timer>) {
    h < |ts| && ts[h].repeat > 0
    && forall i, k :: 0 <= i < n && i < |script| && 0 <= k < |script[i]| ==> !EndsRepeat(script[i][k], h)
  }

  /** Some callback before the `n`-th stopped, closed or started `h`; to start it again counts
      for a handle that repeats. */
  ghost predicate Restarted(script: seq<seq<Op>>, n: nat, h: nat, ts: seq<Timer>) {
    exists i, k ::
      0 <= i < n && i < |script| && 0 <= k < |script[i]| && MustUnlink(script[i][k], h, RepeatsIn(script, n, h, ts))
  }

  lemma NoneYet(script: seq<seq<Op>>, ts: seq<Timer>)
    ensures forall h: nat :: !Restarted(script, 0, h, ts)
    ensures forall h: nat :: RepeatsIn(script, 0, h, ts) ==> h < |ts| && ts[h].repeat > 0
  {
  }

  lemma OneMoreOp(ops: seq<Op>, k: nat, h: nat, ts: seq<Timer>, mid: seq<Timer>)
    requires k < |ops| && h < |mid| && !Unlinks(ops, k, h, Repeats(ops, k, h, ts))
    requires Repeats(ops, k, h, ts) ==> mid[h].repeat > 0
    requires !MustUnlink(ops[k], h, mid[h].repeat > 0)
    ensures !Unlinks(ops, k + 1, h, Repeats(ops, k + 1, h, ts))
  {
  }

  /** What one more callback adds. */
  lemma OneMoreCallback(script: seq<seq<Op>>, n: nat, h: nat, ts: seq<Timer>, mid: seq<Timer>)
    requires !Restarted(script, n, h, ts) && h < |mid|
    requires RepeatsIn(script, n, h, ts) ==> mid[h].repeat > 0
    requires n < |script| ==> !Unlinks(script[n], |script[n]|, h, Repeats(script[n], |script[n]|, h, mid))
    ensures !Restarted(script, n + 1, h, ts)
    ensures RepeatsIn(script, n + 1, h, ts) && n < |script| ==> Repeats(script[n], |script[n]|, h, mid)
    ensures RepeatsIn(script, n + 1, h, ts) ==> RepeatsIn(script, n, h, ts)
  {
  }

  /** Some callback before the `n`-th did something to `h` that may take it out. */
  ghost predicate Unlinked(script: seq<seq<Op>>, n: nat, h: nat) {
    exists i: nat, k: nat :: i < n && i < |script| && k < |script[i]| && MayUnlink(script[i][k], h)
  }

  lemma WithoutTwice(q: seq<nat>, x: nat)
    requires x !in Without(q, x)
    ensures Without(Without(q, x), x) == Without(q, x)
  {
  }

  lemma {:induction false} Size<T>(q: seq<T>)
    requires Distinct(q)
    ensures |set i | 0 <= i < |q| :: q[i]| == |q|
  {
    if q != [] {
      var k := |q| - 1;
      Size(q[..k]);
      var s := set i | 0 <= i < k :: q[..k][i];
      assert (set i | 0 <= i < |q| :: q[i]) == s + {q[k]};
    }
  }

  lemma {:induction false} Smaller<T>(a: set<T>, b: set<T>)
    requires a <= b
    ensures |a| <= |b|
  {
    if a != {} {
      var x :| x in a;
      Smaller(a - {x}, b - {x});
    }
  }
}
