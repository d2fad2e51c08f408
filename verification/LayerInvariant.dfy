/** The invariant of a layer run, piece by piece, and what keeps each piece. */
module LayerInvariant {
  import opened Basics
  import opened FairShare
  import opened NetTopology
  import opened NetModel
  import opened NetEvents
  import opened Layers
  import opened LayerArrivals
  import opened LayerModel
  import opened LayerSchedule

  type Log = map<ChipId, seq<ReplicaId>>

  // ----- flows -----

  predicate IsBack(L: Layer, launched: set<nat>, f: FlowId) {
    f >= |L.outward.groups| && f - |L.outward.groups| in launched
  }

  /** The network carries all dispatch flows and the launched combine flows. */
  ghost predicate FlowsBelong(L: Layer, ids: set<FlowId>, launched: set<nat>) {
    && (forall f: nat :: f in ids <==> f < |L.outward.groups| || IsBack(L, launched, f))
    && (forall h | h in launched :: h < |L.inward.groups|)
  }

  predicate IsOutFlow(L: Layer, states: map<FlowId, FlowState>, g: nat)
    requires g < |L.outward.groups|
  {
    && OutId(g) in states && L.outward.groups[g] != [] && L.outward.groups[g][0] < |L.bindings|
    && states[OutId(g)].flow == OutFlow(L, g)
  }

  ghost predicate OutFlows(L: Layer, states: map<FlowId, FlowState>) {
    forall g: nat {:trigger IsOutFlow(L, states, g)} | g < |L.outward.groups| :: IsOutFlow(L, states, g)
  }

  function ReduceDelay(L: Layer): real {
    if L.reduceChip then L.reduceLatency else 0.0
  }

  /** The batch of a, and the reduction on its chip, are over by the release. */
  predicate DoneBy(L: Layer, execs: Executions, a: AssignmentId, release: real) {
    a < |L.bindings| && ReplicaOf(L, a) in execs && execs[ReplicaOf(L, a)].finish + ReduceDelay(L) <= release
  }

  /** The release of a combine flow: as soon as all its members are done. */
  ghost predicate ReleaseOf(L: Layer, execs: Executions, h: nat, release: real)
    requires h < |L.inward.groups|
  {
    && (forall a {:trigger DoneBy(L, execs, a, release)} | a in L.inward.groups[h] :: DoneBy(L, execs, a, release))
    && exists a {:trigger DoneBy(L, execs, a, release)} | a in L.inward.groups[h] ::
         DoneBy(L, execs, a, release) && execs[ReplicaOf(L, a)].finish + ReduceDelay(L) == release
  }

  ghost predicate ReleasedAt(L: Layer, states: map<FlowId, FlowState>, execs: Executions, h: nat)
    requires h < |L.inward.groups|
  {
    && BackId(L, h) in states && L.inward.groups[h] != [] && L.inward.groups[h][0] < |L.bindings|
    && states[BackId(L, h)].flow == BackFlow(L, h, states[BackId(L, h)].flow.earliest)
    && ReleaseOf(L, execs, h, states[BackId(L, h)].flow.earliest)
  }

  ghost predicate BackFlows(L: Layer, states: map<FlowId, FlowState>, execs: Executions, launched: set<nat>) {
    forall h {:trigger ReleasedAt(L, states, execs, h)} | h in launched && h < |L.inward.groups| :: ReleasedAt(L, states, execs, h)
  }

  // ----- combines -----

  /** a is combined exactly when its combine flow was accepted. */
  ghost predicate CombinedAt(L: Layer, results: map<FlowId, real>, seen: set<FlowId>, combined: map<AssignmentId, real>, a: AssignmentId)
    requires a < |L.inward.of|
  {
    var f := BackId(L, L.inward.of[a]);
    (a in combined <==> f in seen) && (a in combined ==> f in results && combined[a] == results[f])
  }

  ghost predicate CombinedOk(L: Layer, results: map<FlowId, real>, seen: set<FlowId>, combined: map<AssignmentId, real>)
    requires |L.inward.of| == |L.bindings|
  {
    && (forall a | a in combined.Keys :: a < |L.bindings|)
    && forall a {:trigger CombinedAt(L, results, seen, combined, a)} | 0 <= a < |L.bindings| :: CombinedAt(L, results, seen, combined, a)
  }

  /** The assignments whose batch has been computed. */
  function ComputedSet(L: Layer, execs: Executions, heap: set<Key>): set<AssignmentId> {
    set a: nat | 0 <= a < |L.bindings| && Computed(execs, heap, ReplicaOf(L, a))
  }

  predicate GroupDone(L: Layer, done: set<AssignmentId>, h: nat)
    requires h < |L.inward.groups|
  {
    forall a | a in L.inward.groups[h] :: a in done
  }

  predicate LaunchedAt(L: Layer, done: set<AssignmentId>, launched: set<nat>, h: nat)
    requires h < |L.inward.groups|
  {
    h in launched <==> GroupDone(L, done, h)
  }

  /** A combine flow was launched exactly when all its members are done. */
  ghost predicate LaunchedOk(L: Layer, done: set<AssignmentId>, launched: set<nat>) {
    forall h: nat {:trigger LaunchedAt(L, done, launched, h)} | h < |L.inward.groups| :: LaunchedAt(L, done, launched, h)
  }

  type CombineReady = map<nat, map<AssignmentId, real>>

  predicate RecordedAt(L: Layer, execs: Executions, done: set<AssignmentId>, combineReady: CombineReady, a: AssignmentId)
    requires a < |L.bindings| && a < |L.inward.of|
  {
    var h, r := L.inward.of[a], ReplicaOf(L, a);
    && h in combineReady
    && (a in combineReady[h] <==> a in done)
    && (a in done ==> r in execs && combineReady[h][a] == execs[r].finish)
  }

  /** With chip-level reduction, the done members of each group are noted with
      the finish of their batch. */
  ghost predicate RecordedOk(L: Layer, execs: Executions, done: set<AssignmentId>, combineReady: CombineReady)
    requires |L.inward.of| == |L.bindings|
  {
    && (forall h | h in combineReady.Keys :: h < |L.inward.groups| && forall a | a in combineReady[h].Keys :: a in L.inward.groups[h])
    && forall a {:trigger RecordedAt(L, execs, done, combineReady, a)} | 0 <= a < |L.bindings| :: RecordedAt(L, execs, done, combineReady, a)
  }

  // ----- time -----

  /** Computed batches are over, the others are not, as of now. */
  ghost predicate OnTime(execs: Executions, heap: set<Key>, now: real, eps: real) {
    && (forall r {:trigger Computed(execs, heap, r)} | Computed(execs, heap, r) :: execs[r].finish <= now + eps)
    && (forall k | k in heap :: now <= k.time)
  }

  /** A waiting batch can follow what its chip has done so far. */
  predicate FitsChip(execs: Executions, running: set<ChipId>, q: seq<ReplicaId>, chip: ChipId, k: Key, now: real, eps: real) {
    && k.time <= now + eps
    && (q != [] ==> q[|q| - 1] in execs && Ordered(Key(execs[q[|q| - 1]].arrival, q[|q| - 1]), k, eps))
    && (chip !in running ==> now <= k.time || (q != [] && now <= execs[q[|q| - 1]].finish))
  }

  ghost predicate FitsOn(execs: Executions, running: set<ChipId>, ready: Queues, log: Log, chip: ChipId, now: real, eps: real)
    requires chip in ready && chip in log
  {
    forall k {:trigger FitsChip(execs, running, log[chip], chip, k, now, eps)} | k in ready[chip] :: FitsChip(execs, running, log[chip], chip, k, now, eps)
  }

  ghost predicate FitsAll(execs: Executions, running: set<ChipId>, ready: Queues, log: Log, now: real, eps: real)
    requires ready.Keys == log.Keys
  {
    forall chip {:trigger FitsOn(execs, running, ready, log, chip, now, eps)} | chip in ready.Keys :: FitsOn(execs, running, ready, log, chip, now, eps)
  }

  predicate ArrivedBy(execs: Executions, t: real) {
    forall r | r in execs.Keys :: execs[r].arrival <= t
  }

  predicate ArrivedBefore(execs: Executions, t: real) {
    forall r | r in execs.Keys :: execs[r].arrival < t
  }

  predicate UnseenFresh(results: map<FlowId, real>, seen: set<FlowId>, now: real, eps: real) {
    forall f | f in results.Keys && f !in seen :: now <= results[f] <= now + eps
  }

  predicate NotLate(results: map<FlowId, real>, t: real) {
    forall f | f in results.Keys :: results[f] <= t
  }

  lemma ResultsNotLate(c: Config, n: Net)
    requires ValidNet(c, n)
    ensures NotLate(n.results, n.now + c.epsTime)
  {
    forall f | f in n.results.Keys
      ensures n.results[f] <= n.now + c.epsTime
    {
      assert FlowOk(c, n, f);
    }
  }

  /** A waiting batch has arrived by now. */
  lemma EntryNotLate(L: Layer, results: map<FlowId, real>, seen: set<FlowId>, arrived: Arrivals, chip: ChipId, k: Key, t: real)
    requires |L.outward.of| == |L.bindings| && ArrivalsOk(L, results, seen, arrived)
    requires IsEntry(L, arrived, chip, k) && NotLate(results, t)
    ensures k.time <= t
  {
    var m := arrived[k.id];
    var a :| a in m.Keys && m[a] == k.time;
    assert a in Members(L, k.id);
    assert ArrivedAt(L, results, seen, arrived, a);
  }

  // ----- accepting -----

  lemma AcceptFits(topo: Topology, L: Layer, g: nat, t: real, results: map<FlowId, real>, seen: set<FlowId>,
                   arrived: Arrivals, ready: Queues, execs: Executions, arrived': Arrivals, ready': Queues,
                   running: set<ChipId>, log: Log, now: real, eps: real)
    requires ValidLayer(topo, L) && g < |L.outward.groups| && ArrivalsOk(L, results, seen, arrived)
    requires OutId(g) !in seen && OutId(g) in results && results[OutId(g)] == t && ready.Keys == Chips(L) == log.Keys
    requires QueuesOk(L, arrived, ready) && PhasesOk(L, arrived, ready, execs)
    requires Accepts(L, g, t, arrived, ready, arrived', ready')
    requires FitsAll(execs, running, ready, log, now, eps) && now <= t && NotLate(results, now + eps)
    requires ArrivedBefore(execs, now + eps)
    requires forall chip | chip in log.Keys :: forall r | r in log[chip] :: r in execs
    ensures ready'.Keys == ready.Keys && FitsAll(execs, running, ready', log, now, eps)
  {
    AcceptQueues(topo, L, g, t, results, seen, arrived, ready, execs, arrived', ready');
    AcceptArrivals(topo, L, g, t, results, seen, arrived);
    forall chip | chip in ready'.Keys
      ensures FitsOn(execs, running, ready', log, chip, now, eps)
    {
      assert FitsOn(execs, running, ready, log, chip, now, eps);
      forall k | k in ready'[chip]
        ensures FitsChip(execs, running, log[chip], chip, k, now, eps)
      {
        if k in ready[chip] {
          assert FitsChip(execs, running, log[chip], chip, k, now, eps);
        } else {
          NewEntriesAreFresh(topo, L, g, t, results, seen, arrived, ready, execs, arrived', ready', chip, k);
          assert QueueOk(L, arrived', chip, ready'[chip]) && IsEntry(L, arrived', chip, k);
          EntryNotLate(L, results, seen + {OutId(g)}, arrived', chip, k, now + eps);
          FreshFits(execs, running, log[chip], chip, k, now, eps);
        }
      }
    }
  }

  lemma FreshFits(execs: Executions, running: set<ChipId>, q: seq<ReplicaId>, chip: ChipId, k: Key, now: real, eps: real)
    requires now <= k.time <= now + eps && ArrivedBefore(execs, now + eps) && forall r | r in q :: r in execs
    ensures FitsChip(execs, running, q, chip, k, now, eps)
  {
    if q != [] {
      assert q[|q| - 1] in q;
    }
  }

  function CombineAll(combined: map<AssignmentId, real>, xs: seq<AssignmentId>, t: real): (combined': map<AssignmentId, real>)
    decreases xs
  {
    if xs == [] then combined else CombineAll(combined[xs[0] := t], xs[1..], t)
  }

  lemma {:induction false} CombineAllEffect(combined: map<AssignmentId, real>, xs: seq<AssignmentId>, t: real)
    ensures var combined' := CombineAll(combined, xs, t);
      && (forall a :: a in combined'.Keys <==> a in combined.Keys || a in xs)
      && (forall a | a in combined'.Keys :: combined'[a] == if a in xs then t else combined[a])
    decreases xs
  {
    if xs != [] {
      assert forall a :: a in xs <==> a == xs[0] || a in xs[1..];
      CombineAllEffect(combined[xs[0] := t], xs[1..], t);
    }
  }

  lemma AcceptCombine(topo: Topology, L: Layer, h: nat, t: real, results: map<FlowId, real>, seen: set<FlowId>, combined: map<AssignmentId, real>)
    requires ValidLayer(topo, L) && h < |L.inward.groups| && CombinedOk(L, results, seen, combined)
    requires BackId(L, h) !in seen && BackId(L, h) in results && results[BackId(L, h)] == t
    ensures CombinedOk(L, results, seen + {BackId(L, h)}, CombineAll(combined, L.inward.groups[h], t))
  {
    var xs := L.inward.groups[h];
    var combined' := CombineAll(combined, xs, t);
    CombineAllEffect(combined, xs, t);
    assert ValidGroup(L.inward, h);
    forall a | 0 <= a < |L.bindings|
      ensures CombinedAt(L, results, seen + {BackId(L, h)}, combined', a)
    {
      assert CombinedAt(L, results, seen, combined, a);
      assert InGroup(L.inward, a);
    }
  }

  /** Accepting a dispatch flow does not touch combines, and vice versa. */
  lemma SeenOutKeepsCombined(topo: Topology, L: Layer, g: nat, results: map<FlowId, real>, seen: set<FlowId>, combined: map<AssignmentId, real>)
    requires ValidLayer(topo, L) && g < |L.outward.groups| && CombinedOk(L, results, seen, combined)
    ensures CombinedOk(L, results, seen + {OutId(g)}, combined)
  {
    forall a | 0 <= a < |L.bindings|
      ensures CombinedAt(L, results, seen + {OutId(g)}, combined, a)
    {
      assert CombinedAt(L, results, seen, combined, a);
    }
  }

  lemma SeenBackKeepsArrivals(topo: Topology, L: Layer, h: nat, results: map<FlowId, real>, seen: set<FlowId>, arrived: Arrivals)
    requires ValidLayer(topo, L) && ArrivalsOk(L, results, seen, arrived)
    ensures ArrivalsOk(L, results, seen + {BackId(L, h)}, arrived)
  {
    forall a | 0 <= a < |L.bindings|
      ensures ArrivedAt(L, results, seen + {BackId(L, h)}, arrived, a)
    {
      assert ArrivedAt(L, results, seen, arrived, a);
      assert InGroup(L.outward, a);
    }
  }

  // ----- results only grow -----

  predicate ResultsGrow(results: map<FlowId, real>, results': map<FlowId, real>) {
    forall f | f in results.Keys :: f in results'.Keys && results'[f] == results[f]
  }

  lemma GrowKeepsSeen(topo: Topology, L: Layer, results: map<FlowId, real>, results': map<FlowId, real>, seen: set<FlowId>,
                      arrived: Arrivals, combined: map<AssignmentId, real>)
    requires ValidLayer(topo, L) && ResultsGrow(results, results') && seen <= results.Keys
    requires ArrivalsOk(L, results, seen, arrived) && CombinedOk(L, results, seen, combined)
    ensures ArrivalsOk(L, results', seen, arrived) && CombinedOk(L, results', seen, combined) && seen <= results'.Keys
  {
    forall a | 0 <= a < |L.bindings|
      ensures ArrivedAt(L, results', seen, arrived, a) && CombinedAt(L, results', seen, combined, a)
    {
      assert ArrivedAt(L, results, seen, arrived, a) && CombinedAt(L, results, seen, combined, a);
    }
  }

  // ----- popping a computed batch -----

  lemma PoppedIsLast(execs: Executions, heap: set<Key>, running: set<ChipId>, chip: ChipId, q: seq<ReplicaId>, eps: real, k: Key)
    requires HeapOk(execs, heap, running) && k in heap && k.id in execs && execs[k.id].chip == chip
    requires LogOk(execs, heap, chip, q, eps)
    ensures q != [] && q[|q| - 1] == k.id && execs[k.id].finish == k.time
  {
    assert HeapEntry(execs, running, k);
    var i :| 0 <= i < |q| && q[i] == k.id;
    assert i + 1 < |q| ==> FollowsAt(execs, heap, q, eps, i);
  }

  lemma PopFits(execs: Executions, heap: set<Key>, running: set<ChipId>, ready: Queues, log: Log, now: real, eps: real, k: Key)
    requires HeapOk(execs, heap, running) && LogsOk(execs, heap, log, eps) && ready.Keys == log.Keys
    requires FitsAll(execs, running, ready, log, now, eps) && k in heap && k.id in execs && now <= k.time
    ensures FitsAll(execs, running - {execs[k.id].chip}, ready, log, now, eps)
  {
    var idle := execs[k.id].chip;
    forall chip | chip in ready.Keys
      ensures FitsOn(execs, running - {idle}, ready, log, chip, now, eps)
    {
      assert FitsOn(execs, running, ready, log, chip, now, eps);
      assert LogOk(execs, heap, chip, log[chip], eps);
      if chip == idle { PoppedIsLast(execs, heap, running, chip, log[chip], eps, k); }
      forall j | j in ready[chip]
        ensures FitsChip(execs, running - {idle}, log[chip], chip, j, now, eps)
      {
        assert FitsChip(execs, running, log[chip], chip, j, now, eps);
      }
    }
  }

  lemma PopOnTime(execs: Executions, heap: set<Key>, running: set<ChipId>, now: real, eps: real, k: Key)
    requires HeapOk(execs, heap, running) && OnTime(execs, heap, now, eps) && k in heap && k.time <= now + eps
    ensures OnTime(execs, heap - {k}, now, eps)
  {
    assert HeapEntry(execs, running, k);
    forall r | Computed(execs, heap - {k}, r)
      ensures execs[r].finish <= now + eps
    {
      if r != k.id { assert Computed(execs, heap, r); }
    }
  }

  // ----- starting a batch -----

  /** An idle chip can start the batch at the head of its queue. */
  lemma HeadCanFollow(execs: Executions, heap: set<Key>, running: set<ChipId>, q: seq<ReplicaId>, chip: ChipId, k: Key, now: real, eps: real)
    requires HeapOk(execs, heap, running) && LogOk(execs, heap, chip, q, eps) && OnTime(execs, heap, now, eps)
    requires FitsChip(execs, running, q, chip, k, now, eps) && chip !in running
    ensures CanFollow(execs, heap, q, eps, now, k)
  {
    if q != [] {
      var r := q[|q| - 1];
      assert r in q;
      assert InHeap(execs, heap, r) ==> HeapEntry(execs, running, Key(execs[r].finish, r));
      assert Computed(execs, heap, r);
    }
  }

  lemma StartFits(L: Layer, arrived: Arrivals, execs: Executions, running: set<ChipId>, ready: Queues, log: Log, chip: ChipId,
                  x: Execution, now: real, eps: real)
    requires ready.Keys == log.Keys && QueuesOk(L, arrived, ready) && FitsAll(execs, running, ready, log, now, eps)
    requires chip in ready && ready[chip] != [] && ready[chip][0].id !in execs && x.chip == chip && x.arrival == ready[chip][0].time
    ensures var k := ready[chip][0];
      FitsAll(execs[k.id := x], running + {chip}, ready[chip := ready[chip][1..]], log[chip := log[chip] + [k.id]], now, eps)
  {
    var k := ready[chip][0];
    var execs', running', ready', log' := execs[k.id := x], running + {chip}, ready[chip := ready[chip][1..]], log[chip := log[chip] + [k.id]];
    forall other | other in ready'.Keys
      ensures FitsOn(execs', running', ready', log', other, now, eps)
    {
      assert FitsOn(execs, running, ready, log, other, now, eps);
      assert QueueOk(L, arrived, chip, ready[chip]);
      forall j | j in ready'[other]
        ensures FitsChip(execs', running', log'[other], other, j, now, eps)
      {
        if other == chip {
          var i :| 0 <= i < |ready'[chip]| && ready'[chip][i] == j;
          assert ready[chip][i + 1] == j;
        }
        assert j in ready[other];
        assert FitsChip(execs, running, log[other], other, j, now, eps);
      }
    }
  }

  lemma StartOnTime(execs: Executions, heap: set<Key>, r: ReplicaId, x: Execution, now: real, eps: real)
    requires OnTime(execs, heap, now, eps) && r !in execs && now <= x.finish
    requires forall k | k in heap :: k.id in execs
    ensures OnTime(execs[r := x], heap + {Key(x.finish, r)}, now, eps)
  {
    var execs', heap' := execs[r := x], heap + {Key(x.finish, r)};
    forall s | Computed(execs', heap', s)
      ensures execs'[s].finish <= now + eps
    {
      if s != r { assert Computed(execs, heap, s); }
    }
  }

  // ----- launching a combine flow -----

  predicate SameFlows(states: map<FlowId, FlowState>, states': map<FlowId, FlowState>) {
    states.Keys <= states'.Keys && forall f | f in states.Keys :: states'[f].flow == states[f].flow
  }

  lemma FlowsStay(L: Layer, states: map<FlowId, FlowState>, states': map<FlowId, FlowState>, execs: Executions, launched: set<nat>)
    requires OutFlows(L, states) && BackFlows(L, states, execs, launched) && SameFlows(states, states')
    ensures OutFlows(L, states') && BackFlows(L, states', execs, launched)
  {
    forall g: nat | g < |L.outward.groups|
      ensures IsOutFlow(L, states', g)
    {
      assert IsOutFlow(L, states, g);
    }
    forall h | h in launched && h < |L.inward.groups|
      ensures ReleasedAt(L, states', execs, h)
    {
      assert ReleasedAt(L, states, execs, h);
    }
  }

  lemma LaunchKeepsFlows(L: Layer, states: map<FlowId, FlowState>, states': map<FlowId, FlowState>, execs: Executions,
                         launched: set<nat>, h: nat, release: real)
    requires FlowsBelong(L, states.Keys, launched) && OutFlows(L, states) && BackFlows(L, states, execs, launched)
    requires h < |L.inward.groups| && h !in launched && ReleaseOf(L, execs, h, release)
    requires SameFlows(states, states') && states'.Keys == states.Keys + {BackId(L, h)}
    requires L.inward.groups[h] != [] && L.inward.groups[h][0] < |L.bindings| && states'[BackId(L, h)].flow == BackFlow(L, h, release)
    ensures FlowsBelong(L, states'.Keys, launched + {h}) && OutFlows(L, states') && BackFlows(L, states', execs, launched + {h})
  {
    FlowsStay(L, states, states', execs, launched);
    forall k | k in launched + {h} && k < |L.inward.groups|
      ensures ReleasedAt(L, states', execs, k)
    {
      if k != h { assert ReleasedAt(L, states', execs, k); }
    }
  }

  /** The batches that have started stay as they were when others start. */
  lemma StartKeepsBackFlows(L: Layer, states: map<FlowId, FlowState>, execs: Executions, launched: set<nat>, r: ReplicaId, x: Execution)
    requires BackFlows(L, states, execs, launched) && r !in execs
    ensures BackFlows(L, states, execs[r := x], launched)
  {
    var execs' := execs[r := x];
    forall h | h in launched && h < |L.inward.groups|
      ensures ReleasedAt(L, states, execs', h)
    {
      assert ReleasedAt(L, states, execs, h);
      StartKeepsRelease(L, execs, h, states[BackId(L, h)].flow.earliest, r, x);
    }
  }

  lemma StartKeepsRelease(L: Layer, execs: Executions, h: nat, release: real, r: ReplicaId, x: Execution)
    requires h < |L.inward.groups| && ReleaseOf(L, execs, h, release) && r !in execs
    ensures ReleaseOf(L, execs[r := x], h, release)
  {
    var execs' := execs[r := x];
    forall a | a in L.inward.groups[h]
      ensures DoneBy(L, execs', a, release)
    {
      assert DoneBy(L, execs, a, release);
    }
    var b :| b in L.inward.groups[h] && DoneBy(L, execs, b, release) && execs[ReplicaOf(L, b)].finish + ReduceDelay(L) == release;
    assert DoneBy(L, execs', b, release);
  }

  lemma StartKeepsComputed(L: Layer, execs: Executions, heap: set<Key>, r: ReplicaId, x: Execution)
    requires r !in execs && forall k | k in heap :: k.id in execs
    ensures ComputedSet(L, execs[r := x], heap + {Key(x.finish, r)}) == ComputedSet(L, execs, heap)
  {
    var execs', heap' := execs[r := x], heap + {Key(x.finish, r)};
    assert forall s :: Computed(execs', heap', s) <==> Computed(execs, heap, s);
  }

  lemma RecordKeeps(topo: Topology, L: Layer, execs: Executions, done: set<AssignmentId>, combineReady: CombineReady, a: AssignmentId)
    requires ValidLayer(topo, L) && RecordedOk(L, execs, done, combineReady) && a < |L.bindings|
    requires ReplicaOf(L, a) in execs
    ensures L.inward.of[a] in combineReady
    ensures var h := L.inward.of[a];
      RecordedOk(L, execs, done + {a}, combineReady[h := combineReady[h][a := execs[ReplicaOf(L, a)].finish]])
  {
    var h := L.inward.of[a];
    assert RecordedAt(L, execs, done, combineReady, a);
    assert InGroup(L.inward, a);
    var combineReady' := combineReady[h := combineReady[h][a := execs[ReplicaOf(L, a)].finish]];
    forall b | 0 <= b < |L.bindings|
      ensures RecordedAt(L, execs, done + {a}, combineReady', b)
    {
      assert RecordedAt(L, execs, done, combineReady, b);
    }
  }

  /** With all of a group noted, the greatest noted finish covers it. */
  lemma AllRecorded(topo: Topology, L: Layer, execs: Executions, done: set<AssignmentId>, combineReady: CombineReady, h: nat)
    requires ValidLayer(topo, L) && L.reduceChip && RecordedOk(L, execs, done, combineReady) && h in combineReady
    ensures h < |L.inward.groups|
    ensures GroupDone(L, done, h) <==> |combineReady[h].Keys| == |L.inward.groups[h]|
    ensures GroupDone(L, done, h) ==>
      combineReady[h].Keys != {} && ReleaseOf(L, execs, h, MaxOf(combineReady[h]) + L.reduceLatency)
  {
    assert ValidGroup(L.inward, h);
    var xs, m := L.inward.groups[h], combineReady[h];
    var members := ElementSet(xs);
    DistinctSize(xs);
    forall a | a in xs
      ensures a < |L.bindings| && (a in m <==> a in done) && (a in done ==> ReplicaOf(L, a) in execs && m[a] == execs[ReplicaOf(L, a)].finish)
    {
      assert RecordedAt(L, execs, done, combineReady, a);
    }
    SmallerSet(m.Keys, members);
    if GroupDone(L, done, h) {
      assert m.Keys == members;
      assert xs[0] in m.Keys;
      var b :| b in m.Keys && m[b] == MaxOf(m);
      assert DoneBy(L, execs, b, MaxOf(m) + L.reduceLatency);
    }
  }

  lemma {:induction false} DistinctSize(xs: seq<nat>)
    requires forall i, j | 0 <= i < j < |xs| :: xs[i] != xs[j]
    ensures |ElementSet(xs)| == |xs|
  {
    if xs != [] {
      DistinctSize(xs[1..]);
      var rest := ElementSet(xs[1..]);
      assert xs[0] !in rest;
      assert ElementSet(xs) == rest + {xs[0]};
    }
  }

  // ----- the layer never gets stuck -----

  /** At rest nothing waits on an idle chip. */
  predicate NoIdleWait(running: set<ChipId>, ready: Queues) {
    forall chip | chip in ready.Keys && ready[chip] != [] :: chip in running
  }

  /** While an assignment is not combined, some flow is unfinished or some
      batch is running. */
  lemma SomethingPending(topo: Topology, L: Layer, ids: set<FlowId>, results: map<FlowId, real>, arrived: Arrivals, ready: Queues,
                         execs: Executions, heap: set<Key>, running: set<ChipId>, combined: map<AssignmentId, real>,
                         launched: set<nat>, a: AssignmentId)
    requires ValidLayer(topo, L) && FlowsBelong(L, ids, launched)
    requires ArrivalsOk(L, results, results.Keys, arrived) && CombinedOk(L, results, results.Keys, combined)
    requires ready.Keys == Chips(L) && PhasesOk(L, arrived, ready, execs) && HeapOk(execs, heap, running)
    requires NoIdleWait(running, ready) && LaunchedOk(L, ComputedSet(L, execs, heap), launched)
    requires a < |L.bindings| && a !in combined
    ensures heap != {} || exists f :: f in ids && f !in results.Keys
  {
    var h := L.inward.of[a];
    assert CombinedAt(L, results, results.Keys, combined, a) && InGroup(L.inward, a);
    if h in launched {
      assert BackId(L, h) in ids;
    } else {
      assert LaunchedAt(L, ComputedSet(L, execs, heap), launched, h) && ValidGroup(L.inward, h);
      var b :| b in L.inward.groups[h] && b !in ComputedSet(L, execs, heap);
      BatchPending(topo, L, ids, results, arrived, ready, execs, heap, running, launched, b);
    }
  }

  lemma BatchPending(topo: Topology, L: Layer, ids: set<FlowId>, results: map<FlowId, real>, arrived: Arrivals, ready: Queues,
                     execs: Executions, heap: set<Key>, running: set<ChipId>, launched: set<nat>, b: AssignmentId)
    requires ValidLayer(topo, L) && FlowsBelong(L, ids, launched)
    requires ArrivalsOk(L, results, results.Keys, arrived)
    requires ready.Keys == Chips(L) && PhasesOk(L, arrived, ready, execs) && HeapOk(execs, heap, running)
    requires NoIdleWait(running, ready)
    requires b < |L.bindings| && !Computed(execs, heap, ReplicaOf(L, b))
    ensures heap != {} || exists f :: f in ids && f !in results.Keys
  {
    var r := ReplicaOf(L, b);
    assert Phase(L, arrived, ready, execs, r);
    if r !in execs {
      if Full(L, arrived, r) {
        assert ChipBusy(execs, heap, L.chipOf[r]);
      } else {
        var d: nat :| d in Members(L, r) && d !in arrived[r];
        assert ArrivedAt(L, results, results.Keys, arrived, d) && InGroup(L.outward, d);
        assert OutId(L.outward.of[d]) in ids;
      }
    }
  }

  // ----- progress -----

  function Unlaunched(L: Layer, launched: set<nat>): set<nat> {
    set h: nat | 0 <= h < |L.inward.groups| && h !in launched
  }

  function Uncomputed(L: Layer, execs: Executions, heap: set<Key>): set<ReplicaId> {
    set r | r in Replicas(L) && !Computed(execs, heap, r)
  }

  lemma LaunchShrinks(L: Layer, launched: set<nat>, h: nat)
    requires h < |L.inward.groups| && h !in launched
    ensures |Unlaunched(L, launched + {h})| == |Unlaunched(L, launched)| - 1
  {
    assert Unlaunched(L, launched) == Unlaunched(L, launched + {h}) + {h};
  }

  lemma PopShrinks(L: Layer, execs: Executions, heap: set<Key>, running: set<ChipId>, k: Key)
    requires HeapOk(execs, heap, running) && k in heap && k.id in Replicas(L)
    ensures |Uncomputed(L, execs, heap - {k})| == |Uncomputed(L, execs, heap)| - 1
  {
    assert HeapEntry(execs, running, k);
    forall r
      ensures Computed(execs, heap - {k}, r) <==> Computed(execs, heap, r) || r == k.id
    {
    }
    assert Uncomputed(L, execs, heap) == Uncomputed(L, execs, heap - {k}) + {k.id};
  }

  lemma StartKeepsUncomputed(L: Layer, execs: Executions, heap: set<Key>, r: ReplicaId, x: Execution)
    requires r !in execs && forall k | k in heap :: k.id in execs
    ensures Uncomputed(L, execs[r := x], heap + {Key(x.finish, r)}) == Uncomputed(L, execs, heap)
  {
    var execs', heap' := execs[r := x], heap + {Key(x.finish, r)};
    assert forall s :: Computed(execs', heap', s) <==> Computed(execs, heap, s);
  }
}
