/** The bounded queue of log lines and its worker thread: the client's, where a producer waits
    for room and shutting down writes what is pending, and the server's, where a line is
    dropped when there is no room or when the server stops.

    A step is what one thread does under the mutex, or the write of one line outside it. */
module LogQueue {

  class Node {
    var next: Node?
    const line: string

    constructor (line: string)
      ensures this.line == line && next == null
    {
      this.line := line;
      next := null;
    }
  }

  /** Taking the mutex for the first time; waiting; woken but without the mutex yet; writing a
      line that was taken from the queue, or freeing it unwritten; back from that; ended. */
  datatype Worker = Starting | Waiting | Signalled | Writing(line: string, write: bool) | Returning | Ended

  datatype Producer = Idle | Blocked(line: string) | Woken(line: string)

  function Lines(list: seq<Node>): seq<string> {
    if list == [] then [] else Lines(list[..|list| - 1]) + [list[|list| - 1].line]
  }

  lemma {:induction false} LinesHead(list: seq<Node>)
    requires list != []
    ensures Lines(list) == [list[0].line] + Lines(list[1..])
  {
    var k := |list| - 1;
    if k == 0 {
      assert list[..0] == [] && list[1..] == [];
    } else {
      LinesHead(list[..k]);
      assert list[..k][1..] == list[1..][..k - 1];
    }
  }

  ghost predicate Linked(list: seq<Node>, head: Node?, tail: Node?)
    reads list
  {
    && (forall i, j :: 0 <= i < j < |list| ==> list[i] != list[j])
    && (forall i :: 0 <= i < |list| - 1 ==> list[i].next == list[i + 1])
    && (if list == [] then head == null && tail == null
        else head == list[0] && tail == list[|list| - 1] && list[|list| - 1].next == null)
  }

  /** Every node of `list` was in `was` or is new. */
  twostate predicate Newer(was: seq<Node>, new list: seq<Node>) {
    forall i :: 0 <= i < |list| ==> list[i] in was || fresh(list[i])
  }

  function WokenSet(ps: seq<Producer>): set<nat> {
    set p: nat | p < |ps| && ps[p].Woken?
  }

  predicate SomeBlocked(ps: seq<Producer>) { exists p: nat :: p < |ps| && ps[p].Blocked? }

  /** No producer sleeps beside a free place that nobody is coming for. */
  predicate Room(ps: seq<Producer>, running: bool, free: nat) {
    && (running && SomeBlocked(ps) ==> free <= |WokenSet(ps)|)
    && (!running ==> !SomeBlocked(ps))
  }

  /** Where the accepted lines are: written, lost when the server stopped, or still here. */
  ghost predicate Accounted(accepted: seq<string>, written: seq<string>, lost: seq<string>, w: Worker,
          pending: seq<string>) {
    accepted == written + (if w.Writing? && w.write then [w.line] else []) + lost +
      (if w.Writing? && !w.write then [w.line] else []) + pending
  }

  lemma Moves(ps: seq<Producer>, p: nat, s: Producer)
    requires p < |ps|
    ensures WokenSet(ps[p := s]) == if s.Woken? then WokenSet(ps) + {p} else WokenSet(ps) - {p}
  {
  }

  lemma RoomWake(ps: seq<Producer>, running: bool, free: nat, p: nat)
    requires Room(ps, running, free) && p < |ps| && ps[p].Blocked?
    ensures Room(ps[p := Woken(ps[p].line)], running, free + 1)
    ensures Room(ps[p := Woken(ps[p].line)], running, free)
  {
    Moves(ps, p, Woken(ps[p].line));
    var qs := ps[p := Woken(ps[p].line)];
    assert p !in WokenSet(ps);
    assert forall q: nat :: q < |qs| && qs[q].Blocked? ==> ps[q].Blocked?;
  }

  /** A producer stops waiting, having taken a place or not. */
  lemma RoomLeave(ps: seq<Producer>, running: bool, free: nat, p: nat, took: bool)
    requires Room(ps, running, free) && p < |ps| && !ps[p].Blocked? && (took ==> free > 0) && (running ==> took)
    ensures Room(ps[p := Idle], running, if took then free - 1 else free)
  {
    Moves(ps, p, Idle);
    var qs := ps[p := Idle];
    assert forall q: nat :: q < |qs| && qs[q].Blocked? ==> ps[q].Blocked?;
    assert ps[p].Idle? ==> p !in WokenSet(ps);
  }

  lemma RoomFewer(ps: seq<Producer>, running: bool, free: nat)
    requires Room(ps, running, free) && free > 0
    ensures Room(ps, running, free - 1)
  {
  }

  lemma RoomBlock(ps: seq<Producer>, p: nat, line: string)
    requires p < |ps|
    ensures Room(ps[p := Blocked(line)], true, 0)
  {
  }

  lemma AccountedPush(accepted: seq<string>, written: seq<string>, lost: seq<string>, w: Worker, pending: seq<string>,
          line: string)
    requires Accounted(accepted, written, lost, w, pending)
    ensures Accounted(accepted + [line], written, lost, w, pending + [line])
  {
  }

  lemma AccountedPop(accepted: seq<string>, written: seq<string>, lost: seq<string>, w: Worker, line: string,
          write: bool, rest: seq<string>)
    requires Accounted(accepted, written, lost, w, [line] + rest) && !w.Writing? && (write ==> lost == [])
    ensures Accounted(accepted, written, lost, Writing(line, write), rest)
  {
  }

  lemma AccountedSame(accepted: seq<string>, written: seq<string>, lost: seq<string>, w: Worker, w1: Worker,
          pending: seq<string>)
    requires Accounted(accepted, written, lost, w, pending) && !w.Writing? && !w1.Writing?
    ensures Accounted(accepted, written, lost, w1, pending)
  {
  }

  class Queue {
    const server: bool
    const maxCount: nat
    var head: Node?
    var tail: Node?
    var running: bool
    var fp: bool
    var count: nat
    var worker: Worker
    var producers: seq<Producer>
    /** The file. */
    var written: seq<string>
    ghost var list: seq<Node>
    ghost var accepted: seq<string>
    ghost var lost: seq<string>

    ghost predicate Valid()
      reads this, list
    {
      && Linked(list, head, tail) && count == |list| <= maxCount && maxCount > 0
      && (worker == Waiting ==> list == [] && running)
      && (worker == Ended ==> list == [] && !running)
      && Room(producers, running, maxCount - count)
      && Accounted(accepted, written, lost, worker, Lines(list))
      && (lost != [] || (worker.Writing? && !worker.write) ==> server && !running)
      && (running || !server ==> fp)
      && (server && !running ==> !fp)
    }

    /** log_queue_init. */
    constructor (server: bool, maxCount: nat, producers: nat)
      requires maxCount > 0
      ensures Valid() && running && accepted == [] && written == [] && this.server == server
        && this.maxCount == maxCount
      ensures this.producers == seq(producers, _ => Idle)
    {
      this.server, this.maxCount := server, maxCount;
      head, tail, count, running, fp := null, null, 0, true, true;
      worker, this.producers := Starting, seq(producers, _ => Idle);
      written, list, accepted, lost := [], [], [], [];
    }

    /** Appends a line, and wakes the worker. */
    method Append(line: string)
      requires Valid() && running && count < maxCount
      requires Room(producers, running, maxCount - count - 1)
      modifies this`head, this`tail, this`count, this`worker, this`list, this`accepted, list`next
      ensures Valid() && accepted == old(accepted) + [line] && count == old(count) + 1 && Newer(old(list), list)
      ensures worker == if old(worker) == Waiting then Signalled else old(worker)
    {
      hide Room, Accounted;
      AccountedPush(accepted, written, lost, worker, Lines(list), line);
      Link(line);
      count := count + 1;
      accepted := accepted + [line];
      if worker == Waiting {
        AccountedSame(accepted, written, lost, worker, Signalled, Lines(list));
        worker := Signalled;
      }
    }

    method Link(line: string)
      requires Linked(list, head, tail)
      modifies this`head, this`tail, this`list, list`next
      ensures Linked(list, head, tail) && |list| == |old(list)| + 1 && Lines(list) == Lines(old(list)) + [line]
      ensures Newer(old(list), list)
    {
      var node := new Node(line);
      ghost var was := list;
      if tail != null {
        tail.next := node;
        tail := node;
      } else {
        head := node;
        tail := node;
      }
      assert (was + [node])[..|was|] == was;
      list := was + [node];
    }

    /** log_queue_push, from the check of the bound on: also where a producer goes on that was
        waiting for room. */
    method Push(p: nat, line: string)
      requires Valid() && p < |producers| && (producers[p].Idle? || producers[p] == Woken(line))
        && (server ==> producers[p].Idle?)
      modifies this`head, this`tail, this`count, this`worker, this`list, this`accepted, this`producers, list`next
      ensures Valid() && Newer(old(list), list)
      ensures accepted == if old(running && count < maxCount) then old(accepted) + [line] else old(accepted)
      ensures producers == old(producers)[p := if !server
        && old(running && count >= maxCount) then Blocked(line) else Idle]
    {
      hide Room, Accounted, Linked;
      if server {
        if count >= maxCount || !running {
          assert producers[p := Idle] == producers;
          return;
        }
      } else {
        if count >= maxCount && running {
          RoomBlock(producers, p, line);
          producers := producers[p := Blocked(line)];
          return;
        }
        if !running {
          RoomLeave(producers, running, maxCount - count, p, false);
          producers := producers[p := Idle];
          return;
        }
      }
      RoomLeave(producers, running, maxCount - count, p, true);
      RoomFewer(producers, running, maxCount - count);
      Append(line);
      producers := producers[p := Idle];
    }

    /** A producer may wake up without a signal. */
    method WakeProducer(p: nat)
      requires Valid() && p < |producers| && producers[p].Blocked?
      modifies this`producers
      ensures Valid()
    {
      hide Accounted, Linked;
      RoomWake(producers, running, maxCount - count, p);
      producers := producers[p := Woken(producers[p].line)];
    }
  
    /** The worker, from taking the mutex to the next wait, the next line, or the end. */
    method WorkerTurn()
      requires Valid() && worker in {Starting, Signalled, Returning}
      modifies this`head, this`tail, this`count, this`worker, this`list, this`producers
      ensures Valid() && (worker == Waiting || worker == Ended || worker.Writing?) && Newer(old(list), list)
    {
      hide Room;
      var at := worker;
      if at == Starting && !(running || head != null) {
        worker := Ended;
        return;
      }
      if at != Returning && head == null && running {
        worker := Waiting;
        return;
      }
      if head != null {
        Pop();
        return;
      }
      // The file is flushed.
      worker := if running then Waiting else Ended;
    }

    /** Takes the first line; there is room again. */
    method Pop()
      requires Valid() && worker in {Starting, Signalled, Returning} && head != null
      modifies this`head, this`tail, this`count, this`worker, this`list, this`producers
      ensures Valid() && worker.Writing? && Newer(old(list), list)
    {
      hide Room, Accounted, Linked;
      var line := Unlink();
      var write := fp && (!server || running);
      AccountedPop(accepted, written, lost, worker, line, write, Lines(list));
      count := count - 1;
      worker := Writing(line, write);
      SignalNotFull(maxCount - count - 1);
    }

    method Unlink() returns (line: string)
      requires Linked(list, head, tail) && head != null
      modifies this`head, this`tail, this`list
      ensures Linked(list, head, tail) && old(list) != [] && list == old(list)[1..]
      ensures Lines(old(list)) == [line] + Lines(list)
    {
      var node := head;
      LinesHead(list);
      assert |list| > 1 ==> list[0].next == list[1];
      assert |list| == 1 ==> list[0].next == null;
      head := node.next;
      if head == null { tail := null; }
      list := list[1..];
      line := node.line;
    }

    /** uv_cond_signal on cond_not_full, when one more place is free. */
    method SignalNotFull(ghost free: nat)
      requires Room(producers, running, free)
      modifies this`producers
      ensures Room(producers, running, free + 1)
    {
      if SomeBlocked(producers) {
        var p: nat :| p < |producers| && producers[p].Blocked?;
        RoomWake(producers, running, free, p);
        producers := producers[p := Woken(producers[p].line)];
      }
    }

    /** The line is written, or only freed. */
    method WorkerWrite()
      requires Valid() && worker.Writing?
      modifies this`worker, this`written, this`lost
      ensures Valid() && worker == Returning
      ensures written == if old(worker).write then old(written) + [old(worker).line] else old(written)
    {
      if worker.write {
        written := written + [worker.line];
      } else {
        lost := lost + [worker.line];
      }
      worker := Returning;
    }

    method WakeWorker()
      requires Valid() && worker == Waiting
      modifies this`worker
      ensures Valid()
    {
      worker := Signalled;
    }

    /** log_queue_shutdown, up to waiting for the worker: everybody is woken. */
    method Shutdown()
      requires Valid()
      modifies this`running, this`fp, this`worker, this`producers
      ensures Valid() && !running && (old(worker) == Waiting ==> worker == Signalled)
    {
      running := false;
      if server { fp := false; }
      if worker == Waiting { worker := Signalled; }
      producers := seq(|producers|,
        p requires 0 <= p < |producers| reads this`producers => if producers[p].Blocked?
        then Woken(producers[p].line) else producers[p]);
    }

    /** log_queue_shutdown, when the worker has ended: the client's file has every line that
        was accepted, in order; the server's has those that were taken from the queue before
        it stopped. */
    lemma Joined()
      requires Valid() && worker == Ended
      ensures accepted == written + lost
      ensures !server ==> written == accepted
    {
      assert list == [];
    }

    /** What is in the file is at any time the beginning of what was accepted. */
    lemma WrittenFirst()
      requires Valid()
      ensures written <= accepted
      ensures running || !server ==> lost == []
      ensures count == |list| <= maxCount
    {
      var w := worker;
      var rest := (if w.Writing? && w.write then [w.line] else []) + lost +
        (if w.Writing? && !w.write then [w.line] else []) + Lines(list);
      assert accepted == written + rest;
    }

    predicate Enabled(s: Step)
      reads this`producers, this`worker
    {
      match s
      case Pushes(p, line) => p < |producers| && producers[p].Idle?
      case GoesOn(p) => p < |producers| && producers[p].Woken? && !server
      case WakesProducer(p) => p < |producers| && producers[p].Blocked?
      case Takes => worker in {Starting, Signalled, Returning}
      case Writes => worker.Writing?
      case WakesWorker => worker == Waiting
      case Stops => true
    }

    method Perform(s: Step)
      requires Valid() && Enabled(s)
      modifies this, list
      ensures Valid() && old(written) <= written && old(accepted) <= accepted
      ensures Newer(old(list), list)
    {
      hide Linked, Room, Accounted;
      match s
      case Pushes(p, line) => Push(p, line);
      case GoesOn(p) => Push(p, producers[p].line);
      case WakesProducer(p) => WakeProducer(p);
      case Takes => WorkerTurn();
      case Writes => WorkerWrite();
      case WakesWorker => WakeWorker();
      case Stops => Shutdown();
    }

    /** Every interleaving. */
    method Run(steps: seq<Step>)
      requires Valid()
      modifies this, list
      ensures Valid() && old(written) <= written && old(accepted) <= accepted
    {
      for i := 0 to |steps|
        invariant Valid() && old(written) <= written && old(accepted) <= accepted
        invariant Newer(old(list), list)
      {
        if Enabled(steps[i]) { Perform(steps[i]); }
      }
    }
  }

  /** What one thread does next. */
  datatype Step = Pushes(p: nat,
          line: string) | GoesOn(p: nat) | WakesProducer(p: nat) | Takes | Writes | WakesWorker | Stops
}
