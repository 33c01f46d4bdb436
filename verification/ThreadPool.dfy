/** The thread pool of libuv: workers, the quota for slow work, cancellation and completion.

    Every step is one critical section of the pool's mutex or of a loop's mutex; between two
    steps any other thread may run. */
module ThreadPool {
  import opened Util

  const ECANCELED := -125

  /** An entry of the work queue: a request, or one of the two sentinels. */
  datatype Item = Job(req: nat) | SlowMessage | ExitMessage

  /** What the `work` field of a request points to. */
  datatype Fn = Callback | Null | Cancelled

  /** Awake: about to take the mutex, or holding it. A signalled worker has left the condition
      variable but does not have the mutex yet. */
  datatype Worker = Awake | Waiting | Signalled | Executing(req: nat, slow: bool) | Returning(slow: bool) | Exited

  /** Where a request is. */
  datatype Place = InWork | InSlow | InHand(t: nat) | InCancel | InLoop(l: nat) | InDrain(l: nat) | Finished

  datatype Kind = Cpu | FastIo | SlowIo

  // The counters

  function Slow(ws: seq<Worker>): set<nat> {
    set t: nat | t < |ws| && (ws[t] == Returning(true) || (ws[t].Executing? && ws[t].slow))
  }

  function Idle(ws: seq<Worker>): set<nat> {
    set t: nat | t < |ws| && (ws[t] == Waiting || ws[t] == Signalled)
  }

  /** Workers that will look at the queue without anybody's help, those coming back from a
      request not counted. */
  function Ready(ws: seq<Worker>): set<nat> {
    set t: nat | t < |ws| && (ws[t] == Awake || ws[t] == Signalled)
  }

  function Threshold(n: nat): nat { (n + 1) / 2 }

  predicate Counters(n: nat, ws: seq<Worker>, running: nat, idle: nat) {
    |ws| == n && running == |Slow(ws)| <= Threshold(n) && idle == |Idle(ws)|
  }

  lemma Moves(ws: seq<Worker>, t: nat, w: Worker)
    requires t < |ws|
    ensures Slow(ws[t := w]) == if w == Returning(true)
      || (w.Executing? && w.slow) then Slow(ws) + {t} else Slow(ws) - {t}
    ensures Idle(ws[t := w]) == if w == Waiting || w == Signalled then Idle(ws) + {t} else Idle(ws) - {t}
    ensures Ready(ws[t := w]) == if w == Awake || w == Signalled then Ready(ws) + {t} else Ready(ws) - {t}
  {
  }

  // Wakeups

  /** Entries that a worker could take now. */
  function Runnable(n: nat, wq: seq<Item>, running: nat): int {
    |wq| - if SlowMessage in wq && running >= Threshold(n) then 1 else 0
  }

  /** No lost wakeup: while a worker sleeps, whoever looks at the queue next is enough for
      everything that can be taken from it. */
  predicate Wakeups(n: nat, ws: seq<Worker>, wq: seq<Item>, running: nat) {
    ExitMessage !in wq && Waiting in ws ==> Runnable(n, wq, running) <= |Ready(ws)|
  }

  /** Slow work that is pending has been announced, once. */
  predicate Announced(wq: seq<Item>, pending: seq<nat>) {
    Distinct(wq) && (pending != [] ==> SlowMessage in wq)
  }

  // The places of the requests

  ghost predicate Holds(q: seq<nat>, at: seq<Place>, p: Place) {
    Distinct(q) && forall r: nat :: r in q <==> r < |at| && at[r] == p
  }

  ghost predicate HoldsJobs(wq: seq<Item>, at: seq<Place>) {
    Distinct(wq) && forall r: nat :: Job(r) in wq <==> r < |at| && at[r] == InWork
  }

  ghost predicate Hands(ws: seq<Worker>, at: seq<Place>) {
    && (forall t: nat :: t < |ws| && ws[t].Executing? ==> ws[t].req < |at| && at[ws[t].req] == InHand(t))
    && (forall r: nat :: r < |at| && at[r].InHand? ==> at[r].t < |ws| && ws[at[r].t].Executing? && ws[at[r].t].req == r)
  }

  ghost predicate Loops(loopOf: seq<nat>, at: seq<Place>, loopq: seq<seq<nat>>, drain: seq<seq<nat>>) {
    && |loopq| == |drain| && |loopOf| == |at|
    && (forall l: nat :: l < |loopq| ==> Holds(loopq[l], at, InLoop(l)) && Holds(drain[l], at, InDrain(l)))
    && (forall r: nat :: r < |at| ==> loopOf[r] < |loopq|)
    && (forall r: nat :: r < |at| && at[r].InLoop? ==> at[r].l == loopOf[r])
    && (forall r: nat :: r < |at| && at[r].InDrain? ==> at[r].l == loopOf[r])
  }

  /** Did the work function run, and what is the request's `work` field? */
  ghost predicate Outcome(at: Place, work: Fn, ran: bool) {
    if at.InWork? || at.InSlow? || at.InHand? then work == Callback && !ran
    else if at.InCancel? then work != Null && !ran
    else work != Callback && (ran <==> work == Null)
  }

  ghost predicate Outcomes(at: seq<Place>, work: seq<Fn>, ran: seq<bool>) {
    && |work| == |at| && |ran| == |at|
    && (forall r: nat :: r < |at| ==> Outcome(at[r], work[r], ran[r]))
  }

  ghost predicate Logged(log: seq<(nat, int)>, r: nat) {
    exists i :: 0 <= i < |log| && log[i].0 == r
  }

  /** Every completion reported: once for each request that is finished, with the status that
      tells whether it ran. */
  ghost predicate Reported(at: seq<Place>, ran: seq<bool>, log: seq<(nat, int)>) {
    && |ran| == |at|
    && (forall i, j :: 0 <= i < j < |log| ==> log[i].0 != log[j].0)
    && (forall i ::
      0 <= i < |log| ==> log[i].0 < |at| && at[log[i].0] == Finished && (log[i].1 == ECANCELED <==> !ran[log[i].0]))
    && (forall r: nat :: r < |at| && at[r] == Finished ==> Logged(log, r))
  }

  // How the steps keep all this

  lemma AcquireKeeps(n: nat, ws: seq<Worker>, wq: seq<Item>, running: nat, idle: nat, t: nat)
    requires Counters(n, ws, running, idle) && Wakeups(n, ws, wq, running) && t < n
    requires ws[t] == Awake || ws[t] == Signalled || ws[t].Returning?
    ensures ws[t] == Signalled ==> idle > 0
    ensures ws[t] == Returning(true) ==> running > 0
    ensures var idle1 := if ws[t] == Signalled then idle - 1 else idle;
      var running1 := if ws[t] == Returning(true) then running - 1 else running;
      Counters(n, ws[t := Awake], running1, idle1) && Wakeups(n, ws[t := Awake], wq, running1)
  {
    Moves(ws, t, Awake);
    assert ws[t] == Signalled ==> t in Idle(ws);
    assert ws[t] == Returning(true) ==> t in Slow(ws);
    assert Waiting in ws[t := Awake] ==> Waiting in ws;
    assert ws[t].Returning? ==> t !in Ready(ws);
  }

  lemma SleepKeeps(n: nat, ws: seq<Worker>, wq: seq<Item>, running: nat, idle: nat, t: nat)
    requires Counters(n, ws, running, idle) && t < n && ws[t] == Awake
    requires wq == [] || (wq == [SlowMessage] && running >= Threshold(n))
    ensures Counters(n, ws[t := Waiting], running, idle + 1) && Wakeups(n, ws[t := Waiting], wq, running)
  {
    Moves(ws, t, Waiting);
    assert t !in Idle(ws);
  }

  lemma TakeKeeps(n: nat, ws: seq<Worker>, wq: seq<Item>, running: nat, idle: nat, t: nat, r: nat, slow: bool)
    requires Counters(n, ws, running, idle) && Wakeups(n, ws, wq, running) && t < n && ws[t] == Awake
    requires Distinct(wq) && wq != [] && wq[0] == (if slow then SlowMessage else Job(r))
    requires slow ==> running < Threshold(n)
    ensures var ws1, running1 := ws[t := Executing(r, slow)], if slow then running + 1 else running;
      Counters(n, ws1, running1, idle) && Wakeups(n, ws1, wq[1..], running1)
  {
    Moves(ws, t, Executing(r, slow));
    TailFacts(wq);
    assert t in Ready(ws) && t !in Slow(ws) && t !in Idle(ws);
    var ws1 := ws[t := Executing(r, slow)];
    assert Waiting in ws1 ==> Waiting in ws;
  }

  lemma DropKeeps(n: nat, ws: seq<Worker>, wq: seq<Item>, running: nat)
    requires Wakeups(n, ws, wq, running) && Distinct(wq) && wq != [] && wq[0] == SlowMessage && running < Threshold(n)
    ensures Wakeups(n, ws, wq[1..], running)
  {
    TailFacts(wq);
  }

  lemma RotateKeeps(n: nat, ws: seq<Worker>, wq: seq<Item>, running: nat)
    requires Wakeups(n, ws, wq, running) && Distinct(wq) && wq != [] && wq[0] == SlowMessage
    ensures Distinct(wq[1..] + [SlowMessage]) && Wakeups(n, ws, wq[1..] + [SlowMessage], running)
    ensures forall i :: i in wq[1..] + [SlowMessage] <==> i in wq
  {
    TailFacts(wq);
    AddFacts(wq[1..], SlowMessage);
  }

  /** A new entry, and a signal if somebody sleeps. */
  lemma PushKeeps(n: nat, ws: seq<Worker>, wq: seq<Item>, running: nat, idle: nat, item: Item, ws1: seq<Worker>)
    requires Counters(n, ws, running, idle) && Wakeups(n, ws, wq, running) && item !in wq && Distinct(wq)
    requires ws1 == ws || exists t: nat :: t < n && ws[t] == Waiting && ws1 == ws[t := Signalled]
    requires idle > 0 && Waiting in ws ==> ws1 != ws
    ensures Counters(n, ws1, running, idle) && Wakeups(n, ws1, wq + [item], running) && Distinct(wq + [item])
  {
    AddFacts(wq, item);
    if ws1 != ws {
      var t: nat :| t < n && ws[t] == Waiting && ws1 == ws[t := Signalled];
      Moves(ws, t, Signalled);
      assert t in Idle(ws) && t !in Ready(ws) && t !in Slow(ws);
      assert Idle(ws) + {t} == Idle(ws) && Slow(ws) - {t} == Slow(ws);
    } else {
      forall t: nat | t < n && ws[t] == Waiting ensures idle > 0 {
        assert t in Idle(ws);
      }
    }
  }

  lemma SignalKeeps(n: nat, ws: seq<Worker>, wq: seq<Item>, running: nat, idle: nat, t: nat)
    requires Counters(n, ws, running, idle) && Wakeups(n, ws, wq, running) && t < n && ws[t] == Waiting
    ensures Counters(n, ws[t := Signalled], running, idle) && Wakeups(n, ws[t := Signalled], wq, running)
  {
    Moves(ws, t, Signalled);
    assert t in Idle(ws) && t !in Ready(ws) && t !in Slow(ws);
    assert Idle(ws) + {t} == Idle(ws) && Slow(ws) - {t} == Slow(ws);
  }

  lemma WorkerKeeps(n: nat, ws: seq<Worker>, wq: seq<Item>, running: nat, idle: nat, t: nat, w: Worker)
    requires Counters(n, ws, running, idle) && Wakeups(n, ws, wq, running) && t < n
    requires (ws[t].Executing? && w == Returning(ws[t].slow)) || (ws[t] == Awake && w == Exited && ExitMessage in wq)
    ensures Counters(n, ws[t := w], running, idle) && Wakeups(n, ws[t := w], wq, running)
  {
    Moves(ws, t, w);
    assert Waiting in ws[t := w] ==> Waiting in ws;
    assert ws[t] == Returning(true) || (ws[t].Executing? && ws[t].slow) <==> t in Slow(ws);
    assert t !in Idle(ws) && (ws[t] != Awake ==> t !in Ready(ws));
  }

  /** Fewer entries need no more workers. */
  lemma FewerKeeps(n: nat, ws: seq<Worker>, wq: seq<Item>, running: nat, r: nat)
    requires Wakeups(n, ws, wq, running) && Distinct(wq) && Job(r) in wq
    ensures Wakeups(n, ws, Without(wq, Job(r)), running)
  {
    WithoutFacts(wq, Job(r));
  }

  lemma HoldsOther(q: seq<nat>, at: seq<Place>, p: Place, r: nat, p1: Place)
    requires Holds(q, at, p) && r < |at| && at[r] != p && p1 != p
    ensures Holds(q, at[r := p1], p)
  {
  }

  lemma HoldsJobsOther(wq: seq<Item>, at: seq<Place>, r: nat, p1: Place)
    requires HoldsJobs(wq, at) && r < |at| && at[r] != InWork && p1 != InWork
    ensures HoldsJobs(wq, at[r := p1])
  {
  }

  lemma LoopsOther(loopOf: seq<nat>, at: seq<Place>, loopq: seq<seq<nat>>, drain: seq<seq<nat>>, r: nat, p1: Place)
    requires Loops(loopOf, at, loopq, drain) && r < |at|
    requires !at[r].InLoop? && !at[r].InDrain? && !p1.InLoop? && !p1.InDrain?
    ensures Loops(loopOf, at[r := p1], loopq, drain)
  {
    forall l: nat | l < |loopq|
      ensures Holds(loopq[l], at[r := p1], InLoop(l)) && Holds(drain[l], at[r := p1], InDrain(l))
    {
      HoldsOther(loopq[l], at, InLoop(l), r, p1);
      HoldsOther(drain[l], at, InDrain(l), r, p1);
    }
  }

  lemma HandsOther(ws: seq<Worker>, at: seq<Place>, r: nat, p1: Place)
    requires Hands(ws, at) && r < |at| && !at[r].InHand? && !p1.InHand?
    ensures Hands(ws, at[r := p1])
  {
  }

  lemma HandsWorker(ws: seq<Worker>, at: seq<Place>, t: nat, w: Worker)
    requires Hands(ws, at) && t < |ws| && !ws[t].Executing? && !w.Executing?
    ensures Hands(ws[t := w], at)
  {
  }

  /** A worker takes a request. */
  lemma HandsTake(ws: seq<Worker>, at: seq<Place>, t: nat, r: nat, slow: bool)
    requires Hands(ws, at) && t < |ws| && !ws[t].Executing? && r < |at| && !at[r].InHand?
    ensures Hands(ws[t := Executing(r, slow)], at[r := InHand(t)])
  {
  }

  lemma OutcomesMove(at: seq<Place>, work: seq<Fn>, ran: seq<bool>, log: seq<(nat, int)>, r: nat, p1: Place, fn: Fn,
          did: bool)
    requires Outcomes(at, work, ran) && Reported(at, ran, log) && r < |at|
    requires at[r] != Finished && p1 != Finished && Outcome(p1, fn, did)
    ensures Outcomes(at[r := p1], work[r := fn], ran[r := did]) && Reported(at[r := p1], ran[r := did], log)
  {
    var at1, ran1 := at[r := p1], ran[r := did];
    forall x: nat | x < |at1| && at1[x] == Finished ensures Logged(log, x) {
      assert at[x] == Finished;
    }
  }

  lemma JobsTake(wq: seq<Item>, at: seq<Place>, r: nat, p1: Place)
    requires HoldsJobs(wq, at) && wq != [] && wq[0] == Job(r) && p1 != InWork
    ensures r < |at| && at[r] == InWork && HoldsJobs(wq[1..], at[r := p1])
  {
    TailFacts(wq);
    assert Job(r) in wq;
  }

  lemma HeadTake(q: seq<nat>, at: seq<Place>, p: Place, p1: Place)
    requires Holds(q, at, p) && q != [] && p1 != p
    ensures q[0] < |at| && at[q[0]] == p && Holds(q[1..], at[q[0] := p1], p)
  {
    TailFacts(q);
    assert q[0] in q;
  }

  lemma HoldsAdd(q: seq<nat>, at: seq<Place>, r: nat, p: Place)
    requires Holds(q, at, p) && r < |at| && at[r] != p
    ensures Holds(q + [r], at[r := p], p)
  {
    assert r !in q;
    AddFacts(q, r);
  }

  lemma JobsSame(wq: seq<Item>, wq1: seq<Item>, at: seq<Place>)
    requires HoldsJobs(wq, at) && Distinct(wq1) && forall r: nat :: Job(r) in wq1 <==> Job(r) in wq
    ensures HoldsJobs(wq1, at)
  {
  }

  lemma JobsIs(wq: seq<Item>, at: seq<Place>)
    requires HoldsJobs(wq, at)
    ensures Distinct(wq) && forall r: nat :: Job(r) in wq <==> r < |at| && at[r] == InWork
  {
  }

  lemma HoldsIs(q: seq<nat>, at: seq<Place>, p: Place)
    requires Holds(q, at, p)
    ensures Distinct(q) && forall r: nat :: r in q <==> r < |at| && at[r] == p
  {
  }

  lemma OutcomeAt(at: seq<Place>, work: seq<Fn>, ran: seq<bool>, r: nat)
    requires Outcomes(at, work, ran) && r < |at|
    ensures |work| == |ran| == |at| && Outcome(at[r], work[r], ran[r])
    ensures work[r := work[r]] == work && ran[r := ran[r]] == ran
  {
  }

  lemma CountersIs(n: nat, ws: seq<Worker>, running: nat, idle: nat)
    requires Counters(n, ws, running, idle)
    ensures |ws| == n && running <= Threshold(n)
  {
  }

  // A new request

  lemma GrowHolds(q: seq<nat>, at: seq<Place>, p: Place, p1: Place)
    requires Holds(q, at, p)
    ensures p1 != p ==> Holds(q, at + [p1], p)
    ensures p1 == p ==> Holds(q + [|at|], at + [p1], p)
  {
    assert |at| !in q;
    AddFacts(q, |at|);
  }

  lemma GrowJobs(wq: seq<Item>, at: seq<Place>, p1: Place)
    requires HoldsJobs(wq, at)
    ensures Job(|at|) !in wq
    ensures p1 != InWork ==> HoldsJobs(wq, at + [p1])
    ensures p1 == InWork ==> HoldsJobs(wq + [Job(|at|)], at + [p1])
  {
    assert Job(|at|) !in wq;
    AddFacts(wq, Job(|at|));
  }

  lemma GrowHands(ws: seq<Worker>, at: seq<Place>, p1: Place)
    requires Hands(ws, at) && !p1.InHand?
    ensures Hands(ws, at + [p1])
  {
  }

  lemma GrowLoops(loopOf: seq<nat>, at: seq<Place>, loopq: seq<seq<nat>>, drain: seq<seq<nat>>, l: nat, p1: Place)
    requires Loops(loopOf, at, loopq, drain) && l < |loopq| && !p1.InLoop? && !p1.InDrain?
    ensures Loops(loopOf + [l], at + [p1], loopq, drain)
  {
    forall k: nat | k < |loopq|
      ensures Holds(loopq[k], at + [p1], InLoop(k)) && Holds(drain[k], at + [p1], InDrain(k))
    {
      GrowHolds(loopq[k], at, InLoop(k), p1);
      GrowHolds(drain[k], at, InDrain(k), p1);
    }
  }

  lemma GrowOutcomes(at: seq<Place>, work: seq<Fn>, ran: seq<bool>, log: seq<(nat, int)>, p1: Place)
    requires Outcomes(at, work, ran) && Reported(at, ran, log) && (p1 == InWork || p1 == InSlow)
    ensures Outcomes(at + [p1], work + [Callback], ran + [false]) && Reported(at + [p1], ran + [false], log)
  {
    var at1 := at + [p1];
    forall r: nat | r < |at1| && at1[r] == Finished ensures Logged(log, r) {
      assert at[r] == Finished;
    }
  }

  lemma SameSize(loopOf: seq<nat>, at: seq<Place>, loopq: seq<seq<nat>>, drain: seq<seq<nat>>)
    requires Loops(loopOf, at, loopq, drain)
    ensures |loopOf| == |at| && |loopq| == |drain| && forall r: nat :: r < |at| ==> loopOf[r] < |loopq|
  {
  }

  // The loops' queues

  lemma LoopsAdd(loopOf: seq<nat>, at: seq<Place>, loopq: seq<seq<nat>>, drain: seq<seq<nat>>, r: nat)
    requires Loops(loopOf, at, loopq, drain) && r < |at| && !at[r].InLoop? && !at[r].InDrain?
    ensures var l := loopOf[r]; Loops(loopOf, at[r := InLoop(l)], loopq[l := loopq[l] + [r]], drain)
  {
    var l := loopOf[r];
    var at1 := at[r := InLoop(l)];
    var loopq1 := loopq[l := loopq[l] + [r]];
    forall k: nat | k < |loopq| ensures Holds(loopq1[k], at1, InLoop(k)) && Holds(drain[k], at1, InDrain(k)) {
      HoldsOther(drain[k], at, InDrain(k), r, InLoop(l));
      if k == l {
        HoldsAdd(loopq[l], at, r, InLoop(l));
      } else {
        HoldsOther(loopq[k], at, InLoop(k), r, InLoop(l));
      }
    }
  }

  lemma HoldsWithout(q: seq<nat>, at: seq<Place>, p: Place, r: nat, p1: Place)
    requires Holds(q, at, p) && r in q && p1 != p
    ensures Holds(Without(q, r), at[r := p1], p)
  {
    WithoutFacts(q, r);
  }

  lemma HoldsMoved(q: seq<nat>, at: seq<Place>, p: Place, r: nat, p1: Place, here: bool)
    requires Holds(q, at, p) && r < |at| && p1 != p && if here then r in q else at[r] != p
    ensures Holds(if here then Without(q, r) else q, at[r := p1], p)
  {
    hide Holds;
    if here { HoldsWithout(q, at, p, r, p1); } else { HoldsOther(q, at, p, r, p1); }
  }

  /** A request is unlinked from its loop's queue, or from the one being drained. */
  lemma LoopsWithout(loopOf: seq<nat>, at: seq<Place>, loopq: seq<seq<nat>>, drain: seq<seq<nat>>, r: nat, p1: Place)
    requires Loops(loopOf, at, loopq, drain) && r < |at| && !p1.InLoop? && !p1.InDrain?
    requires at[r].InLoop? || at[r].InDrain?
    ensures var l := loopOf[r];
      if at[r].InLoop? then r in loopq[l] && Loops(loopOf, at[r := p1], loopq[l := Without(loopq[l], r)], drain)
      else r in drain[l] && Loops(loopOf, at[r := p1], loopq, drain[l := Without(drain[l], r)])
  {
    var l := loopOf[r];
    var at1 := at[r := p1];
    HoldsIs(loopq[l], at, InLoop(l));
    HoldsIs(drain[l], at, InDrain(l));
    hide Holds, Without, Distinct;
    var loopq1 := if at[r].InLoop? then loopq[l := Without(loopq[l], r)] else loopq;
    var drain1 := if at[r].InDrain? then drain[l := Without(drain[l], r)] else drain;
    forall k: nat | k < |loopq| ensures Holds(loopq1[k], at1, InLoop(k)) && Holds(drain1[k], at1, InDrain(k)) {
      HoldsMoved(loopq[k], at, InLoop(k), r, p1, k == l && at[r].InLoop?);
      HoldsMoved(drain[k], at, InDrain(k), r, p1, k == l && at[r].InDrain?);
    }
  }

  /** The places when loop `l` moves its queue aside. */
  function Moved(at: seq<Place>, l: nat): (m: seq<Place>)
    ensures |m| == |at|
    ensures forall r: nat :: r < |at| ==> m[r] == if at[r] == InLoop(l) then InDrain(l) else at[r]
  {
    seq(|at|, r requires 0 <= r < |at| => if at[r] == InLoop(l) then InDrain(l) else at[r])
  }

  lemma LoopsMove(loopOf: seq<nat>, at: seq<Place>, loopq: seq<seq<nat>>, drain: seq<seq<nat>>, l: nat)
    requires Loops(loopOf, at, loopq, drain) && l < |loopq| && drain[l] == []
    ensures Loops(loopOf, Moved(at, l), loopq[l := []], drain[l := loopq[l]])
  {
    var at1, loopq1, drain1 := Moved(at, l), loopq[l := []], drain[l := loopq[l]];
    forall k: nat | k < |loopq| ensures Holds(loopq1[k], at1, InLoop(k)) && Holds(drain1[k], at1, InDrain(k)) {
      HoldsIs(loopq[k], at, InLoop(k));
      HoldsIs(drain[k], at, InDrain(k));
    }
  }

  lemma OtherMove(wq: seq<Item>, pending: seq<nat>, ws: seq<Worker>, at: seq<Place>, l: nat)
    requires HoldsJobs(wq, at) && Holds(pending, at, InSlow) && Hands(ws, at)
    ensures HoldsJobs(wq, Moved(at, l)) && Holds(pending, Moved(at, l), InSlow) && Hands(ws, Moved(at, l))
  {
  }

  lemma OutcomesMoved(at: seq<Place>, work: seq<Fn>, ran: seq<bool>, log: seq<(nat, int)>, l: nat)
    requires Outcomes(at, work, ran) && Reported(at, ran, log)
    ensures Outcomes(Moved(at, l), work, ran) && Reported(Moved(at, l), ran, log)
  {
    var at1 := Moved(at, l);
    forall r: nat | r < |at1| && at1[r] == Finished ensures Logged(log, r) {
      assert at[r] == Finished;
    }
  }

  /** `done` is called for a request that left the loop. */
  lemma ReportedDone(at: seq<Place>, work: seq<Fn>, ran: seq<bool>, log: seq<(nat, int)>, r: nat)
    requires Outcomes(at, work, ran) && Reported(at, ran, log) && r < |at| && at[r].InDrain?
    ensures var err := if work[r] == Cancelled then ECANCELED else 0;
      Outcomes(at[r := Finished], work, ran) && Reported(at[r := Finished], ran, log + [(r, err)])
  {
    var err := if work[r] == Cancelled then ECANCELED else 0;
    var at1, log1 := at[r := Finished], log + [(r, err)];
    assert log1[|log|].0 == r;
    forall x: nat | x < |at1| && at1[x] == Finished ensures Logged(log1, x) {
      if x != r {
        var i :| 0 <= i < |log| && log[i].0 == x;
        assert log1[i].0 == x;
      }
    }
  }

  /** What one thread does while the others wait. */
  datatype Step =
    | Submits(l: nat, kind: Kind)
    | Turns(t: nat)
    | Completes(t: nat)
    | Wakes(t: nat)
    | Cancels(r: nat)
    | Cancelling(r: nat)
    | Drains(l: nat)
    | Reports(l: nat)
    | Exits

  class Pool {
    const n: nat
    var wq: seq<Item>
    var pending: seq<nat>
    var running: nat
    var idle: nat
    var ws: seq<Worker>
    var loopOf: seq<nat>
    var work: seq<Fn>
    var loopq: seq<seq<nat>>
    var drain: seq<seq<nat>>
    /** Where each request is; the source keeps no such table. */
    var at: seq<Place>
    ghost var ran: seq<bool>
    ghost var log: seq<(nat, int)>

    ghost predicate Scheduling()
      reads this`wq, this`pending, this`running, this`idle, this`ws
    {
      && n >= 1 && |ws| == n && Counters(n, ws, running, idle)
      && Announced(wq, pending)
      && Wakeups(n, ws, wq, running)
    }

    ghost predicate Placed()
      reads this`wq, this`pending, this`ws, this`loopOf, this`loopq, this`drain, this`at
    {
      && HoldsJobs(wq, at) && Holds(pending, at, InSlow) && Hands(ws, at)
      && Loops(loopOf, at, loopq, drain)
    }

    ghost predicate Completing()
      reads this`work, this`at, this`ran, this`log
    {
      Outcomes(at, work, ran) && Reported(at, ran, log)
    }

    ghost predicate Valid()
      reads this
    {
      |ws| == n && Scheduling() && Placed() && Completing()
    }

    /** init_threads, for `loops` event loops. */
    constructor (threads: nat, loops: nat)
      requires threads >= 1
      ensures Valid() && n == threads && at == [] && |loopq| == loops && wq == [] && pending == [] && log == []
    {
      n := threads;
      wq, pending, running, idle := [], [], 0, 0;
      ws := seq(threads, _ => Awake);
      loopOf, work, at, ran, log := [], [], [], [], [];
      loopq, drain := seq(loops, _ => []), seq(loops, _ => []);
      new;
      assert Slow(ws) == {} && Idle(ws) == {};
    }

    /** uv_cond_signal: one of the sleeping workers, if there is one, whichever. */
    method Signal()
      requires |ws| == n
      modifies this`ws
      ensures ws == old(ws) || exists t: nat :: t < n && old(ws)[t] == Waiting && ws == old(ws)[t := Signalled]
      ensures Waiting in old(ws) ==> ws != old(ws)
    {
      if Waiting in ws {
        var t: nat :| t < |ws| && ws[t] == Waiting;
        ws := ws[t := Signalled];
      }
    }
  
    /** A worker leaves for good: it wakes the next one and leaves the message where it is. */
    method Leave(t: nat)
      requires Valid() && t < n && ws[t] == Awake && wq != [] && wq[0] == ExitMessage
      modifies this`ws
      ensures Valid() && ws[t] == Exited
    {
      hide Counters, Wakeups, Holds, HoldsJobs, Hands, Loops, Outcomes, Reported;
      Signal();
      if ws != old(ws) {
        ghost var s: nat :| s < n && old(ws)[s] == Waiting && ws == old(ws)[s := Signalled];
        SignalKeeps(n, old(ws), wq, running, idle, s);
        HandsWorker(old(ws), at, s, Signalled);
      }
      WorkerKeeps(n, ws, wq, running, idle, t, Exited);
      HandsWorker(ws, at, t, Exited);
      ws := ws[t := Exited];
    }

    /** The head of the queue is a request. */
    method TakeFast(t: nat)
      requires Valid() && t < n && ws[t] == Awake && wq != [] && wq[0].Job?
      modifies this`wq, this`ws, this`at
      ensures Valid() && ws[t].Executing? && !ws[t].slow
      ensures var r := ws[t].req; r < |old(at)| && at == old(at)[r := InHand(t)] && old(at)[r] == InWork
    {
      hide Counters, Wakeups, Holds, HoldsJobs, Hands, Loops, Outcomes, Reported;
      var r := wq[0].req;
      TakeKeeps(n, ws, wq, running, idle, t, r, false);
      TailFacts(wq);
      JobsTake(wq, at, r, InHand(t));
      HandsTake(ws, at, t, r, false);
      HoldsOther(pending, at, InSlow, r, InHand(t));
      LoopsOther(loopOf, at, loopq, drain, r, InHand(t));
      OutcomeAt(at, work, ran, r);
      OutcomesMove(at, work, ran, log, r, InHand(t), work[r], ran[r]);
      wq := wq[1..];
      ws := ws[t := Executing(r, false)];
      at := at[r := InHand(t)];
    }

    /** The head of the queue is the message: the worker takes the first slow request, and
        announces the others. */
    method TakeSlow(t: nat)
      requires Valid() && t < n && ws[t] == Awake && wq != [] && wq[0] == SlowMessage
      requires running < Threshold(n) && pending != []
      modifies this`wq, this`pending, this`running, this`ws, this`at
      ensures Valid() && ws[t].Executing? && ws[t].slow
      ensures var r := ws[t].req; r < |old(at)| && at == old(at)[r := InHand(t)] && old(at)[r] == InSlow
    {
      hide Counters, Wakeups, Holds, HoldsJobs, Hands, Loops, Outcomes, Reported;
      var r := pending[0];
      TakeKeeps(n, ws, wq, running, idle, t, r, true);
      TailFacts(wq);
      SlowInHand(t);
      wq := wq[1..];
      running := running + 1;
      pending := pending[1..];
      ws := ws[t := Executing(r, true)];
      at := at[r := InHand(t)];
      if pending != [] { Push(SlowMessage); }
      JobsSame(old(wq)[1..], wq, at);
    }

    /** Where the requests are once the first slow one is in the hand of worker `t`. */
    lemma SlowInHand(t: nat)
      requires Valid() && t < n && ws[t] == Awake && wq != [] && wq[0] == SlowMessage && pending != []
      ensures var r := pending[0];
        && r < |at| && at[r] == InSlow
        && HoldsJobs(wq[1..], at[r := InHand(t)]) && Holds(pending[1..], at[r := InHand(t)], InSlow)
        && Hands(ws[t := Executing(r, true)], at[r := InHand(t)])
        && Loops(loopOf, at[r := InHand(t)], loopq, drain)
        && Outcomes(at[r := InHand(t)], work, ran) && Reported(at[r := InHand(t)], ran, log)
    {
      hide Counters, Wakeups, Holds, HoldsJobs, Hands, Loops, Outcomes, Reported;
      var r := pending[0];
      TailFacts(wq);
      JobsIs(wq, at);
      JobsSame(wq, wq[1..], at);
      HeadTake(pending, at, InSlow, InHand(t));
      HoldsJobsOther(wq[1..], at, r, InHand(t));
      HandsTake(ws, at, t, r, true);
      LoopsOther(loopOf, at, loopq, drain, r, InHand(t));
      OutcomeAt(at, work, ran, r);
      OutcomesMove(at, work, ran, log, r, InHand(t), work[r], ran[r]);
    }

    /** Appends to the work queue, and signals if somebody is idle. */
    method Push(item: Item)
      requires Counters(n, ws, running, idle) && Wakeups(n, ws, wq, running) && Distinct(wq) && item !in wq
      requires Hands(ws, at)
      modifies this`wq, this`ws
      ensures Counters(n, ws, running, idle) && Wakeups(n, ws, wq, running) && Distinct(wq)
      ensures Hands(ws, at) && wq == old(wq) + [item]
      ensures |ws| == |old(ws)| && forall t: nat :: t < |ws| && old(ws)[t] != Waiting ==> ws[t] == old(ws)[t]
    {
      hide Counters, Wakeups, Hands;
      assert |ws| == n by { CountersIs(n, ws, running, idle); }
      wq := wq + [item];
      if idle > 0 { Signal(); }
      PushKeeps(n, old(ws), old(wq), running, idle, item, ws);
      if ws != old(ws) {
        ghost var s: nat :| s < n && old(ws)[s] == Waiting && ws == old(ws)[s := Signalled];
        HandsWorker(old(ws), at, s, Signalled);
      }
    }

    /** Takes the mutex. */
    method Acquire(t: nat)
      requires Valid() && t < n && (ws[t] == Awake || ws[t] == Signalled || ws[t].Returning?)
      modifies this`running, this`idle, this`ws
      ensures Valid() && ws[t] == Awake
    {
      hide Counters, Wakeups, Holds, HoldsJobs, Hands, Loops, Completing;
      AcquireKeeps(n, ws, wq, running, idle, t);
      HandsWorker(ws, at, t, Awake);
      if ws[t] == Signalled { idle := idle - 1; }
      if ws[t] == Returning(true) { running := running - 1; }
      ws := ws[t := Awake];
    }

    /** Waits on the condition variable. */
    method Sleep(t: nat)
      requires Valid() && t < n && ws[t] == Awake
      requires wq == [] || (wq == [SlowMessage] && running >= Threshold(n))
      modifies this`idle, this`ws
      ensures Valid() && ws[t] == Waiting
    {
      hide Counters, Wakeups, Holds, HoldsJobs, Hands, Loops, Completing;
      SleepKeeps(n, ws, wq, running, idle, t);
      HandsWorker(ws, at, t, Waiting);
      idle := idle + 1;
      ws := ws[t := Waiting];
    }

    /** The message comes first but no more slow work may run: other work goes before it. */
    method Reschedule()
      requires Valid() && wq != [] && wq[0] == SlowMessage
      modifies this`wq
      ensures Valid() && wq == old(wq)[1..] + [SlowMessage] && SlowMessage !in wq[..|wq| - 1]
    {
      hide Counters, Wakeups, Holds, HoldsJobs, Hands, Loops, Completing;
      TailFacts(wq);
      RotateKeeps(n, ws, wq, running);
      JobsSame(wq, wq[1..] + [SlowMessage], at);
      wq := wq[1..] + [SlowMessage];
    }

    /** The message comes first but there is no slow work left: it was cancelled. */
    method Forget()
      requires Valid() && wq != [] && wq[0] == SlowMessage && pending == [] && running < Threshold(n)
      modifies this`wq
      ensures Valid() && wq == old(wq)[1..]
    {
      hide Counters, Wakeups, Holds, HoldsJobs, Hands, Loops, Completing;
      DropKeeps(n, ws, wq, running);
      TailFacts(wq);
      JobsSame(wq, wq[1..], at);
      wq := wq[1..];
    }

    /** The critical section of a worker, from taking the mutex to the next wait or request. */
    method Turn(t: nat)
      requires Valid() && t < n && (ws[t] == Awake || ws[t] == Signalled || ws[t].Returning?)
      modifies this`wq, this`pending, this`running, this`idle, this`ws, this`at
      ensures Valid()
      ensures ws[t] == Waiting || ws[t] == Exited || ws[t].Executing?
      ensures ws[t] == Waiting ==> wq == [] || (wq == [SlowMessage] && running >= Threshold(n))
      ensures !ws[t].Executing? ==> at == old(at)
      ensures ws[t].Executing? ==>
        var r := ws[t].req;
        r < |old(at)| && at == old(at)[r := InHand(t)] && old(at)[r] == if ws[t].slow then InSlow else InWork
    {
      hide Scheduling, Placed, Completing;
      Acquire(t);
      while true
        invariant Valid() && ws[t] == Awake && at == old(at)
        decreases |wq|, if wq != [] && wq[0] == SlowMessage then 1 else 0
      {
        if wq == [] || (wq[0] == SlowMessage && |wq| == 1 && running >= Threshold(n)) {
          Sleep(t);
          return;
        }
        var q := wq[0];
        if q == ExitMessage {
          Leave(t);
          return;
        }
        if q.Job? {
          TakeFast(t);
          return;
        }
        if running >= Threshold(n) {
          Reschedule();
          continue;
        }
        if pending == [] {
          Forget();
          continue;
        }
        TakeSlow(t);
        return;
      }
    }
  
    /** uv__work_submit, with `post`. */
    method Submit(l: nat, kind: Kind) returns (r: nat)
      requires Valid() && l < |loopq|
      modifies this`wq, this`pending, this`ws, this`loopOf, this`work, this`at, this`ran
      ensures Valid() && r == |old(at)| && at == old(at) + [if kind == SlowIo then InSlow else InWork]
      ensures loopOf == old(loopOf) + [l]
    {
      hide Counters, Wakeups, Holds, HoldsJobs, Hands, Loops, Outcomes, Reported;
      var p := if kind == SlowIo then InSlow else InWork;
      r := |work|;
      OutcomesSize(at, work, ran);
      SameSize(loopOf, at, loopq, drain);
      GrowHolds(pending, at, InSlow, p);
      GrowJobs(wq, at, p);
      GrowHands(ws, at, p);
      GrowLoops(loopOf, at, loopq, drain, l, p);
      GrowOutcomes(at, work, ran, log, p);
      loopOf, work := loopOf + [l], work + [Callback];
      at, ran := at + [p], ran + [false];
      if kind == SlowIo {
        pending := pending + [r];
        if SlowMessage in wq { return; }
        Push(SlowMessage);
        JobsSame(old(wq), wq, at);
      } else {
        Push(Job(r));
      }
    }

    /** A worker outside the mutex: the work function runs, then the request goes to its
        loop. It is never the function that stands for a cancelled request. */
    method Complete(t: nat)
      requires Valid() && t < n && ws[t].Executing?
      modifies this`ws, this`work, this`loopq, this`at, this`ran
      ensures Valid() && ws == old(ws)[t := Returning(old(ws)[t].slow)]
      ensures var r := old(ws)[t].req;
        && r < |old(at)| && at == old(at)[r := InLoop(loopOf[r])] && ran == old(ran)[r := true]
        && old(work)[r] == Callback
    {
      hide Counters, Wakeups, Holds, HoldsJobs, Loops, Outcomes, Reported;
      var r, slow := ws[t].req, ws[t].slow;
      OutcomeAt(at, work, ran, r);
      SameSize(loopOf, at, loopq, drain);
      assert work[r] == Callback;
      var l := loopOf[r];
      WorkerKeeps(n, ws, wq, running, idle, t, Returning(slow));
      HoldsJobsOther(wq, at, r, InLoop(l));
      HoldsOther(pending, at, InSlow, r, InLoop(l));
      LoopsAdd(loopOf, at, loopq, drain, r);
      OutcomesMove(at, work, ran, log, r, InLoop(l), Null, true);
      work := work[r := Null];
      loopq := loopq[l := loopq[l] + [r]];
      ws := ws[t := Returning(slow)];
      at, ran := at[r := InLoop(l)], ran[r := true];
    }

    /** A worker may wake up without a signal. */
    method Spurious(t: nat)
      requires Valid() && t < n && ws[t] == Waiting
      modifies this`ws
      ensures Valid()
    {
      hide Counters, Wakeups, Holds, HoldsJobs, Hands, Loops, Outcomes, Reported;
      SignalKeeps(n, ws, wq, running, idle, t);
      HandsWorker(ws, at, t, Signalled);
      ws := ws[t := Signalled];
    }

    /** Is the request linked into some queue? */
    predicate Linked(r: nat)
      requires r < |loopOf| && loopOf[r] < |loopq| && |drain| == |loopq|
      reads this`wq, this`pending, this`loopOf, this`loopq, this`drain
    {
      Job(r) in wq || r in pending || r in loopq[loopOf[r]] || r in drain[loopOf[r]]
    }

    /** The first half of uv__work_cancel, under both mutexes, for a request that is not
        completed yet: it is unlinked unless it is executing or has run. */
    method CancelTake(r: nat) returns (cancelled: bool)
      requires Valid() && r < |at| && at[r] != Finished && at[r] != InCancel
      modifies this`wq, this`pending, this`loopq, this`drain, this`at
      ensures Valid()
      ensures cancelled <==> !old(at)[r].InHand? && !ran[r]
      ensures at == if cancelled then old(at)[r := InCancel] else old(at)
    {
      hide Counters, Wakeups, Outcomes, Reported;
      OutcomeAt(at, work, ran, r);
      Where(r);
      cancelled := Linked(r) && work[r] != Null;
      if !cancelled { return; }
      Unlink(r);
    }

    /** A request that is linked somewhere and has not started leaves its list. */
    method Unlink(r: nat)
      requires Valid() && r < |at| && at[r] != Finished && at[r] != InCancel && Linked(r) && work[r] != Null
      modifies this`wq, this`pending, this`loopq, this`drain, this`at
      ensures Valid() && at == old(at)[r := InCancel]
    {
      hide Counters, Wakeups, Outcomes, Reported;
      OutcomeAt(at, work, ran, r);
      Where(r);
      OutcomesMove(at, work, ran, log, r, InCancel, work[r], ran[r]);
      hide Holds, HoldsJobs, Hands, Loops;
      HandsOther(ws, at, r, InCancel);
      var l := loopOf[r];
      if Job(r) in wq {
        FewerKeeps(n, ws, wq, running, r);
        JobsWithout(wq, at, r, InCancel);
        HoldsOther(pending, at, InSlow, r, InCancel);
        LoopsOther(loopOf, at, loopq, drain, r, InCancel);
        wq := Without(wq, Job(r));
      } else if r in pending {
        HoldsJobsOther(wq, at, r, InCancel);
        HoldsWithout(pending, at, InSlow, r, InCancel);
        LoopsOther(loopOf, at, loopq, drain, r, InCancel);
        pending := Without(pending, r);
      } else {
        HoldsJobsOther(wq, at, r, InCancel);
        HoldsOther(pending, at, InSlow, r, InCancel);
        LoopsWithout(loopOf, at, loopq, drain, r, InCancel);
        if r in loopq[l] {
          loopq := loopq[l := Without(loopq[l], r)];
        } else {
          drain := drain[l := Without(drain[l], r)];
        }
      }
      at := at[r := InCancel];
    }

    lemma Where(r: nat)
      requires Placed() && r < |at|
      ensures |loopOf| == |at| && |drain| == |loopq| && loopOf[r] < |loopq|
      ensures Job(r) in wq <==> at[r] == InWork
      ensures r in pending <==> at[r] == InSlow
      ensures r in loopq[loopOf[r]] <==> at[r].InLoop?
      ensures r in drain[loopOf[r]] <==> at[r].InDrain?
    {
      hide Hands;
      HoldsIs(loopq[loopOf[r]], at, InLoop(loopOf[r]));
      HoldsIs(drain[loopOf[r]], at, InDrain(loopOf[r]));
    }

    /** The second half: the request goes to its loop, marked as cancelled. */
    method CancelPut(r: nat)
      requires Valid() && r < |at| && at[r] == InCancel
      modifies this`work, this`loopq, this`at
      ensures Valid() && at == old(at)[r := InLoop(loopOf[r])]
    {
      hide Counters, Wakeups, Holds, HoldsJobs, Hands, Loops, Outcomes, Reported;
      OutcomeAt(at, work, ran, r);
      SameSize(loopOf, at, loopq, drain);
      var l := loopOf[r];
      HoldsJobsOther(wq, at, r, InLoop(l));
      HoldsOther(pending, at, InSlow, r, InLoop(l));
      HandsOther(ws, at, r, InLoop(l));
      LoopsAdd(loopOf, at, loopq, drain, r);
      OutcomesMove(at, work, ran, log, r, InLoop(l), Cancelled, ran[r]);
      work := work[r := Cancelled];
      loopq := loopq[l := loopq[l] + [r]];
      at := at[r := InLoop(l)];
    }

    /** uv__work_done begins: the loop's queue is moved aside. */
    method DrainStart(l: nat)
      requires Valid() && l < |loopq| && drain[l] == []
      modifies this`loopq, this`drain, this`at
      ensures Valid() && drain == old(drain)[l := old(loopq)[l]] && loopq == old(loopq)[l := []]
    {
      hide Counters, Wakeups, Holds, HoldsJobs, Hands, Loops, Outcomes, Reported;
      SameSize(loopOf, at, loopq, drain);
      LoopsMove(loopOf, at, loopq, drain, l);
      OtherMove(wq, pending, ws, at, l);
      OutcomesMoved(at, work, ran, log, l);
      drain := drain[l := loopq[l]];
      loopq := loopq[l := []];
      at := Moved(at, l);
    }

    /** The next request of uv__work_done: `done` is called with its status. */
    method DrainOne(l: nat) returns (r: nat, err: int)
      requires Valid() && l < |drain| && drain[l] != []
      modifies this`drain, this`at, this`log
      ensures Valid() && r == old(drain)[l][0] && r < |old(at)|
      ensures old(at)[r] == InDrain(l) && at == old(at)[r := Finished]
      ensures log == old(log) + [(r, err)] && (err == ECANCELED <==> !ran[r])
    {
      hide Counters, Wakeups, HoldsJobs, Hands, Reported;
      r := drain[l][0];
      assert r in drain[l];
      HoldsIs(drain[l], at, InDrain(l));
      OutcomeAt(at, work, ran, r);
      err := if work[r] == Cancelled then ECANCELED else 0;
      ReportedDone(at, work, ran, log, r);
      HeadOut(drain[l]);
      hide Holds, Loops, Outcomes;
      HoldsJobsOther(wq, at, r, Finished);
      HoldsOther(pending, at, InSlow, r, Finished);
      HandsOther(ws, at, r, Finished);
      LoopsWithout(loopOf, at, loopq, drain, r, Finished);
      drain := drain[l := drain[l][1..]];
      at := at[r := Finished];
      log := log + [(r, err)];
    }

    /** uv__threadpool_cleanup posts its message. */
    method PostExit()
      requires Valid() && ExitMessage !in wq
      modifies this`wq, this`ws
      ensures Valid() && ExitMessage in wq
    {
      hide Counters, Wakeups, Holds, HoldsJobs, Hands, Loops, Outcomes, Reported;
      JobsIs(wq, at);
      Push(ExitMessage);
      JobsSame(old(wq), wq, at);
    }
  
    /** Asleep together, the workers have left nothing behind. */
    lemma NothingForgotten()
      requires Valid() && ExitMessage !in wq
      requires forall t: nat :: t < n ==> ws[t] == Waiting
      ensures wq == [] && pending == []
    {
      assert ws[0] == Waiting;
      assert Slow(ws) == {} && Ready(ws) == {};
    }

    /** A sleeping worker means that whatever can be taken has somebody else coming for it. */
    lemma SomebodyComes()
      requires Valid() && ExitMessage !in wq && Waiting in ws
      requires Runnable(n, wq, running) > 0
      ensures exists t: nat :: t < n && (ws[t] == Awake || ws[t] == Signalled)
    {
      assert Ready(ws) != {};
      var t :| t in Ready(ws);
    }

    /** When all the queues are empty and no one holds a request, every submission has been
        completed. */
    lemma AllCompleted()
      requires Valid() && wq == [] && pending == []
      requires forall l: nat :: l < |loopq| ==> loopq[l] == [] && drain[l] == []
      requires forall t: nat :: t < n ==> !ws[t].Executing?
      requires InCancel !in at
      ensures forall r: nat :: r < |at| ==> Logged(log, r)
    {
      forall r: nat | r < |at| ensures Logged(log, r) {
        Where(r);
      }
    }

    predicate Enabled(s: Step)
      reads this`wq, this`ws, this`loopOf, this`loopq, this`drain
      reads this`at
    {
      match s
      case Submits(l, _) => l < |loopq|
      case Turns(t) => t < n && t < |ws| && (ws[t] == Awake || ws[t] == Signalled || ws[t].Returning?)
      case Completes(t) => t < n && t < |ws| && ws[t].Executing?
      case Wakes(t) => t < n && t < |ws| && ws[t] == Waiting
      case Cancels(r) => r < |at| && at[r] != Finished && at[r] != InCancel
      case Cancelling(r) => r < |at| && at[r] == InCancel
      case Drains(l) => l < |loopq| && l < |drain| && drain[l] == []
      case Reports(l) => l < |drain| && drain[l] != []
      case Exits => ExitMessage !in wq
    }

    method Perform(s: Step)
      requires Valid() && Enabled(s)
      modifies this
      ensures Valid() && old(log) <= log
    {
      hide Scheduling, Placed, Completing;
      match s
      case Submits(l, kind) => var _ := Submit(l, kind);
      case Turns(t) => Turn(t);
      case Completes(t) => Complete(t);
      case Wakes(t) => Spurious(t);
      case Cancels(r) => var _ := CancelTake(r);
      case Cancelling(r) => CancelPut(r);
      case Drains(l) => DrainStart(l);
      case Reports(l) => var _, _ := DrainOne(l);
      case Exits => PostExit();
    }

    /** Every interleaving: the steps that are possible when their time comes are made. */
    method Run(steps: seq<Step>)
      requires Valid()
      modifies this
      ensures Valid() && old(log) <= log
    {
      hide Scheduling, Placed, Completing;
      for i := 0 to |steps|
        invariant Valid() && old(log) <= log
      {
        if Enabled(steps[i]) { Perform(steps[i]); }
      }
    }
  }

  lemma OutcomesSize(at: seq<Place>, work: seq<Fn>, ran: seq<bool>)
    requires Outcomes(at, work, ran)
    ensures |work| == |ran| == |at|
  {
  }

  lemma JobsWithout(wq: seq<Item>, at: seq<Place>, r: nat, p1: Place)
    requires HoldsJobs(wq, at) && Job(r) in wq && p1 != InWork
    ensures r < |at| && HoldsJobs(Without(wq, Job(r)), at[r := p1]) && Distinct(Without(wq, Job(r)))
    ensures forall x: Item :: !x.Job? ==> (x in wq <==> x in Without(wq, Job(r)))
  {
    WithoutFacts(wq, Job(r));
  }
}
