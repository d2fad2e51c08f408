/** Batches on one chip: a first-come-first-served queue that never idles
    while a batch waits. */
module LayerSchedule {
  import opened Basics
  import opened Layers
  import opened LayerArrivals
  import opened LayerModel

  predicate InHeap(execs: Executions, heap: set<Key>, r: ReplicaId) {
    r in execs && Key(execs[r].finish, r) in heap
  }

  predicate Computed(execs: Executions, heap: set<Key>, r: ReplicaId) {
    r in execs && !InHeap(execs, heap, r)
  }

  predicate HeapEntry(execs: Executions, running: set<ChipId>, k: Key) {
    k.id in execs && k.time == execs[k.id].finish && execs[k.id].chip in running
  }

  ghost predicate ChipBusy(execs: Executions, heap: set<Key>, chip: ChipId) {
    exists k :: k in heap && k.id in execs && execs[k.id].chip == chip
  }

  /** The heap holds one entry for each running chip. */
  ghost predicate HeapOk(execs: Executions, heap: set<Key>, running: set<ChipId>) {
    && (forall k {:trigger HeapEntry(execs, running, k)} | k in heap :: HeapEntry(execs, running, k))
    && (forall j, k | j in heap && k in heap && j.id in execs && k.id in execs && execs[j.id].chip == execs[k.id].chip :: j == k)
    && (forall chip {:trigger ChipBusy(execs, heap, chip)} | chip in running :: ChipBusy(execs, heap, chip))
  }

  /** In arrival order, up to eps. */
  predicate Ordered(k: Key, j: Key, eps: real) {
    Before(k, j) || k.time < j.time + eps
  }

  /** s runs right after r: it starts when it has arrived and r has finished. */
  predicate Follows(execs: Executions, eps: real, r: ReplicaId, s: ReplicaId) {
    && r in execs && s in execs
    && execs[r].finish - eps <= execs[s].start
    && execs[s].start <= Max(execs[s].arrival, execs[r].finish)
    && Ordered(Key(execs[r].arrival, r), Key(execs[s].arrival, s), eps)
  }

  predicate FollowsAt(execs: Executions, heap: set<Key>, q: seq<ReplicaId>, eps: real, i: nat)
    requires i + 1 < |q|
  {
    Follows(execs, eps, q[i], q[i + 1]) && Computed(execs, heap, q[i])
  }

  /** q is the chip's schedule: every batch started on it, once, in order; only
      the last one can still be running. */
  ghost predicate LogOk(execs: Executions, heap: set<Key>, chip: ChipId, q: seq<ReplicaId>, eps: real) {
    && (forall r :: r in q <==> r in execs && execs[r].chip == chip)
    && (forall i, j | 0 <= i < j < |q| :: q[i] != q[j])
    && (forall i: nat {:trigger FollowsAt(execs, heap, q, eps, i)} | i + 1 < |q| :: FollowsAt(execs, heap, q, eps, i))
    && (q != [] ==> q[0] in execs && execs[q[0]].start == execs[q[0]].arrival)
  }

  ghost predicate LogsOk(execs: Executions, heap: set<Key>, log: map<ChipId, seq<ReplicaId>>, eps: real) {
    forall chip {:trigger LogOk(execs, heap, chip, log[chip], eps)} | chip in log.Keys :: LogOk(execs, heap, chip, log[chip], eps)
  }

  // ----- popping a finished batch -----

  lemma PopKeepsHeap(execs: Executions, heap: set<Key>, running: set<ChipId>, k: Key)
    requires HeapOk(execs, heap, running) && k in heap
    ensures k.id in execs && HeapOk(execs, heap - {k}, running - {execs[k.id].chip})
    ensures execs[k.id].chip in running && k.time == execs[k.id].finish
  {
    assert HeapEntry(execs, running, k);
    var heap', running' := heap - {k}, running - {execs[k.id].chip};
    forall j | j in heap'
      ensures HeapEntry(execs, running', j)
    {
      assert HeapEntry(execs, running, j);
    }
    forall chip | chip in running'
      ensures ChipBusy(execs, heap', chip)
    {
      assert ChipBusy(execs, heap, chip);
      var j :| j in heap && j.id in execs && execs[j.id].chip == chip;
      assert j in heap';
    }
  }

  lemma PopKeepsLogs(execs: Executions, heap: set<Key>, log: map<ChipId, seq<ReplicaId>>, eps: real, heap': set<Key>)
    requires LogsOk(execs, heap, log, eps) && heap' <= heap
    ensures LogsOk(execs, heap', log, eps)
  {
    forall chip | chip in log.Keys
      ensures LogOk(execs, heap', chip, log[chip], eps)
    {
      assert LogOk(execs, heap, chip, log[chip], eps);
      var q := log[chip];
      forall i: nat | i + 1 < |q|
        ensures FollowsAt(execs, heap', q, eps, i)
      {
        assert FollowsAt(execs, heap, q, eps, i);
      }
    }
  }

  // ----- starting a batch -----

  /** The execution of the batch at the head of a queue, started at `now`. */
  function StartOf(L: Layer, chip: ChipId, k: Key, now: real): Execution
    requires k.id in L.duration
  {
    var start := Max(now, k.time);
    Execution(chip, |Members(L, k.id)|, k.time, start, start + L.duration[k.id])
  }

  /** Starting now fits the schedule: the batch arrives now or later, or the
      chip has just finished; the previous batch is over and arrived before. */
  ghost predicate CanFollow(execs: Executions, heap: set<Key>, q: seq<ReplicaId>, eps: real, now: real, k: Key) {
    if q == [] then now <= k.time else
    var r := q[|q| - 1];
    && Computed(execs, heap, r) && execs[r].finish <= now + eps
    && (now <= k.time || now <= execs[r].finish)
    && Ordered(Key(execs[r].arrival, r), k, eps)
  }

  lemma StartKeepsLog(L: Layer, execs: Executions, heap: set<Key>, chip: ChipId, q: seq<ReplicaId>, eps: real, now: real, k: Key)
    requires LogOk(execs, heap, chip, q, eps) && k.id in L.duration && k.id !in execs
    requires CanFollow(execs, heap, q, eps, now, k)
    requires forall j | j in heap :: j.id in execs
    ensures var x := StartOf(L, chip, k, now);
      LogOk(execs[k.id := x], heap + {Key(x.finish, k.id)}, chip, q + [k.id], eps)
  {
    var x := StartOf(L, chip, k, now);
    var execs', heap', q' := execs[k.id := x], heap + {Key(x.finish, k.id)}, q + [k.id];
    forall i: nat | i + 1 < |q'|
      ensures FollowsAt(execs', heap', q', eps, i)
    {
      assert q[i] in q;
      if i + 1 < |q| {
        assert q[i + 1] in q;
        assert FollowsAt(execs, heap, q, eps, i);
      }
    }
    assert q != [] ==> q[0] in q;
  }

  lemma StartKeepsOtherLog(L: Layer, execs: Executions, heap: set<Key>, other: ChipId, q: seq<ReplicaId>, eps: real, x: Execution, r: ReplicaId)
    requires LogOk(execs, heap, other, q, eps) && r !in execs && x.chip != other
    ensures LogOk(execs[r := x], heap + {Key(x.finish, r)}, other, q, eps)
  {
    var execs', heap' := execs[r := x], heap + {Key(x.finish, r)};
    forall i: nat | i + 1 < |q|
      ensures FollowsAt(execs', heap', q, eps, i)
    {
      assert q[i] in q && q[i + 1] in q;
      assert FollowsAt(execs, heap, q, eps, i);
    }
    assert q != [] ==> q[0] in q;
  }

  lemma StartKeepsHeap(execs: Executions, heap: set<Key>, running: set<ChipId>, r: ReplicaId, x: Execution)
    requires HeapOk(execs, heap, running) && r !in execs && x.chip !in running
    ensures HeapOk(execs[r := x], heap + {Key(x.finish, r)}, running + {x.chip})
  {
    var execs', heap', running' := execs[r := x], heap + {Key(x.finish, r)}, running + {x.chip};
    forall j | j in heap'
      ensures HeapEntry(execs', running', j)
    {
      if j in heap { assert HeapEntry(execs, running, j); }
    }
    forall j, k | j in heap' && k in heap' && j.id in execs' && k.id in execs' && execs'[j.id].chip == execs'[k.id].chip
      ensures j == k
    {
      if j in heap { assert HeapEntry(execs, running, j); }
      if k in heap { assert HeapEntry(execs, running, k); }
    }
    forall chip | chip in running'
      ensures ChipBusy(execs', heap', chip)
    {
      if chip == x.chip {
        assert Key(x.finish, r) in heap';
      } else {
        assert ChipBusy(execs, heap, chip);
        var k :| k in heap && k.id in execs && execs[k.id].chip == chip;
        assert k in heap';
      }
    }
  }

  lemma TailKeepsQueue(L: Layer, arrived: Arrivals, chip: ChipId, q: seq<Key>)
    requires QueueOk(L, arrived, chip, q) && q != []
    ensures QueueOk(L, arrived, chip, q[1..]) && !Queued(q[1..], q[0].id)
    ensures forall id :: Queued(q, id) <==> id == q[0].id || Queued(q[1..], id)
  {
    forall k | k in q[1..]
      ensures IsEntry(L, arrived, chip, k)
    {
      assert k in q;
    }
    QueuedInCons(q[0], q[1..]);
    assert [q[0]] + q[1..] == q;
  }

  /** Starting the batch at the head of a queue moves it from waiting to
      started, and disturbs nothing else. */
  lemma StartKeepsPhases(L: Layer, arrived: Arrivals, ready: Queues, execs: Executions, chip: ChipId, x: Execution)
    requires QueuesOk(L, arrived, ready) && PhasesOk(L, arrived, ready, execs) && ExecsOk(L, arrived, execs)
    requires chip in ready && ready[chip] != [] && ready[chip][0].id in L.duration
    requires exists now :: x == StartOf(L, chip, ready[chip][0], now)
    ensures var k := ready[chip][0];
      var ready', execs' := ready[chip := ready[chip][1..]], execs[k.id := x];
      && k.id !in execs
      && QueuesOk(L, arrived, ready') && PhasesOk(L, arrived, ready', execs') && ExecsOk(L, arrived, execs')
  {
    var q := ready[chip];
    var k := q[0];
    var ready', execs' := ready[chip := q[1..]], execs[k.id := x];
    assert QueueOk(L, arrived, chip, q);
    assert IsEntry(L, arrived, chip, k);
    TailKeepsQueue(L, arrived, chip, q);
    assert Queued(q, k.id);
    assert Phase(L, arrived, ready, execs, k.id);
    forall other | other in ready'.Keys
      ensures QueueOk(L, arrived, other, ready'[other])
    {
      assert other != chip ==> QueueOk(L, arrived, other, ready[other]);
    }
    forall r | r in Replicas(L)
      ensures Phase(L, arrived, ready', execs', r)
    {
      assert Phase(L, arrived, ready, execs, r);
    }
    forall r | r in execs'.Keys
      ensures ExecOk(L, arrived, execs', r)
    {
      if r != k.id { assert ExecOk(L, arrived, execs, r); }
    }
  }
}
