/** What an execution of a layer keeps at every moment. */
module LayerModel {
  import opened Basics
  import opened FairShare
  import opened NetTopology
  import opened NetModel
  import opened Layers
  import opened LayerArrivals

  type Executions = map<ReplicaId, Execution>

  // ----- arrivals -----

  /** a has arrived exactly when its dispatch flow was accepted, at the time
      that flow finished. */
  ghost predicate ArrivedAt(L: Layer, results: map<FlowId, real>, seen: set<FlowId>, arrived: Arrivals, a: AssignmentId)
    requires a < |L.bindings| && a < |L.outward.of|
  {
    var r, f := ReplicaOf(L, a), OutId(L.outward.of[a]);
    && r in arrived && (a in arrived[r] <==> f in seen)
    && (a in arrived[r] ==> f in results && arrived[r][a] == results[f])
  }

  ghost predicate ArrivalsOk(L: Layer, results: map<FlowId, real>, seen: set<FlowId>, arrived: Arrivals)
    requires |L.outward.of| == |L.bindings|
  {
    && arrived.Keys == Replicas(L)
    && (forall r | r in arrived.Keys :: arrived[r].Keys <= Members(L, r))
    && (forall a {:trigger ArrivedAt(L, results, seen, arrived, a)} | 0 <= a < |L.bindings| :: ArrivedAt(L, results, seen, arrived, a))
  }

  /** A batch is complete exactly when it waits on its chip or was started. */
  ghost predicate Phase(L: Layer, arrived: Arrivals, ready: Queues, execs: Executions, r: ReplicaId) {
    && (Full(L, arrived, r) <==> QueuedOnChip(L, ready, r) || r in execs)
    && !(QueuedOnChip(L, ready, r) && r in execs)
  }

  ghost predicate PhasesOk(L: Layer, arrived: Arrivals, ready: Queues, execs: Executions) {
    forall r {:trigger Phase(L, arrived, ready, execs, r)} | r in Replicas(L) :: Phase(L, arrived, ready, execs, r)
  }

  /** A started batch was complete, started no earlier than its last arrival,
      and finishes after its predicted duration. */
  ghost predicate ExecOk(L: Layer, arrived: Arrivals, execs: Executions, r: ReplicaId)
    requires r in execs
  {
    var x := execs[r];
    && r in Replicas(L) && r in L.chipOf && r in L.duration
    && Full(L, arrived, r) && arrived[r].Keys != {} && x.arrival == MaxOf(arrived[r])
    && x.chip == L.chipOf[r] && x.count == |Members(L, r)|
    && x.arrival <= x.start && x.finish == x.start + L.duration[r]
  }

  ghost predicate ExecsOk(L: Layer, arrived: Arrivals, execs: Executions) {
    forall r {:trigger ExecOk(L, arrived, execs, r)} | r in execs.Keys :: ExecOk(L, arrived, execs, r)
  }

  // ----- accepting a dispatch flow -----

  /** The replicas with an assignment in the group. */
  function Touched(L: Layer, xs: seq<AssignmentId>): set<ReplicaId> {
    set a | a in xs && a < |L.bindings| :: ReplicaOf(L, a)
  }

  /** What accepting changes: the arrivals and queues before and after. */
  ghost predicate Accepts(L: Layer, g: nat, t: real, arrived: Arrivals, ready: Queues, arrived': Arrivals, ready': Queues)
    requires g < |L.outward.groups| && ready.Keys == Chips(L)
  {
    var xs := L.outward.groups[g];
    var rs := InOrder(Touched(L, xs), Zeroes(Touched(L, xs)));
    && Known(L, arrived, xs) && arrived' == ArriveAll(L, arrived, xs, t)
    && (forall i {:trigger rs[i]} | 0 <= i < |rs| :: Placed(L, ready.Keys, rs[i]))
    && ready' == EnqueueAll(L, arrived', ready, rs)
  }

  lemma GroupKnown(topo: Topology, L: Layer, g: nat)
    requires ValidLayer(topo, L) && g < |L.outward.groups|
    ensures forall a | a in L.outward.groups[g] :: a < |L.bindings| && L.outward.of[a] == g && ReplicaOf(L, a) in Replicas(L)
    ensures forall r | r in Touched(L, L.outward.groups[g]) :: Placed(L, Chips(L), r)
  {
    assert ValidGroup(L.outward, g);
    forall a | a in L.outward.groups[g]
      ensures a < |L.bindings| && L.outward.of[a] == g && ReplicaOf(L, a) in Replicas(L) && Placed(L, Chips(L), ReplicaOf(L, a))
    {
      assert ValidBinding(topo, L, a);
    }
  }

  lemma AcceptArrivals(topo: Topology, L: Layer, g: nat, t: real, results: map<FlowId, real>, seen: set<FlowId>, arrived: Arrivals)
    requires ValidLayer(topo, L) && g < |L.outward.groups| && ArrivalsOk(L, results, seen, arrived)
    requires OutId(g) !in seen && OutId(g) in results && results[OutId(g)] == t
    ensures Known(L, arrived, L.outward.groups[g])
    ensures ArrivalsOk(L, results, seen + {OutId(g)}, ArriveAll(L, arrived, L.outward.groups[g], t))
  {
    GroupKnown(topo, L, g);
    var xs := L.outward.groups[g];
    var arrived' := ArriveAll(L, arrived, xs, t);
    forall r | r in arrived'.Keys
      ensures arrived'[r].Keys <= Members(L, r)
    {
      ArriveAllEffect(L, arrived, xs, t, r);
    }
    forall a | 0 <= a < |L.bindings|
      ensures ArrivedAt(L, results, seen + {OutId(g)}, arrived', a)
    {
      assert ArrivedAt(L, results, seen, arrived, a);
      assert InGroup(L.outward, a);
      ArriveAllEffect(L, arrived, xs, t, ReplicaOf(L, a));
    }
  }

  /** A replica touched by a flow not yet accepted was not complete before. */
  lemma TouchedNotFull(topo: Topology, L: Layer, g: nat, results: map<FlowId, real>, seen: set<FlowId>, arrived: Arrivals, r: ReplicaId)
    requires ValidLayer(topo, L) && g < |L.outward.groups| && ArrivalsOk(L, results, seen, arrived)
    requires OutId(g) !in seen && r in Touched(L, L.outward.groups[g])
    ensures !Full(L, arrived, r)
  {
    GroupKnown(topo, L, g);
    var a :| a in L.outward.groups[g] && a < |L.bindings| && ReplicaOf(L, a) == r;
    assert ArrivedAt(L, results, seen, arrived, a);
    assert a in Members(L, r) && a !in arrived[r];
  }

  /** A replica that is not touched keeps its arrivals. */
  lemma UntouchedKeeps(L: Layer, arrived: Arrivals, xs: seq<AssignmentId>, t: real, r: ReplicaId)
    requires Known(L, arrived, xs) && r in arrived && r !in Touched(L, xs)
    ensures ArriveAll(L, arrived, xs, t)[r] == arrived[r]
  {
    ArriveAllEffect(L, arrived, xs, t, r);
    assert BatchShare(L, xs, r) == {};
  }

  lemma AcceptQueues(topo: Topology, L: Layer, g: nat, t: real, results: map<FlowId, real>, seen: set<FlowId>,
                     arrived: Arrivals, ready: Queues, execs: Executions, arrived': Arrivals, ready': Queues)
    requires ValidLayer(topo, L) && g < |L.outward.groups| && ArrivalsOk(L, results, seen, arrived)
    requires OutId(g) !in seen && ready.Keys == Chips(L)
    requires QueuesOk(L, arrived, ready) && PhasesOk(L, arrived, ready, execs)
    requires Accepts(L, g, t, arrived, ready, arrived', ready')
    ensures QueuesOk(L, arrived', ready) && QueuesOk(L, arrived', ready') && ready'.Keys == ready.Keys
    ensures forall s | s in L.chipOf :: QueuedOnChip(L, ready', s) <==>
      QueuedOnChip(L, ready, s) || (s in Touched(L, L.outward.groups[g]) && Full(L, arrived', s))
  {
    var xs := L.outward.groups[g];
    var rs := InOrder(Touched(L, xs), Zeroes(Touched(L, xs)));
    forall chip | chip in ready.Keys
      ensures QueueOk(L, arrived', chip, ready[chip])
    {
      assert QueueOk(L, arrived, chip, ready[chip]);
      forall k | k in ready[chip]
        ensures IsEntry(L, arrived', chip, k)
      {
        assert IsEntry(L, arrived, chip, k);
        if k.id in Touched(L, xs) { TouchedNotFull(topo, L, g, results, seen, arrived, k.id); }
        UntouchedKeeps(L, arrived, xs, t, k.id);
      }
    }
    forall i | 0 <= i < |rs|
      ensures !QueuedOnChip(L, ready, rs[i])
    {
      assert rs[i] in Touched(L, xs);
      TouchedNotFull(topo, L, g, results, seen, arrived, rs[i]);
      GroupKnown(topo, L, g);
      assert Phase(L, arrived, ready, execs, rs[i]);
    }
    EnqueueAllKeeps(L, arrived', ready, rs);
  }

  lemma AcceptPhases(topo: Topology, L: Layer, g: nat, t: real, results: map<FlowId, real>, seen: set<FlowId>,
                     arrived: Arrivals, ready: Queues, execs: Executions, arrived': Arrivals, ready': Queues)
    requires ValidLayer(topo, L) && g < |L.outward.groups| && ArrivalsOk(L, results, seen, arrived)
    requires OutId(g) !in seen && ready.Keys == Chips(L)
    requires QueuesOk(L, arrived, ready) && PhasesOk(L, arrived, ready, execs) && ExecsOk(L, arrived, execs)
    requires Accepts(L, g, t, arrived, ready, arrived', ready')
    ensures PhasesOk(L, arrived', ready', execs) && ExecsOk(L, arrived', execs)
  {
    var xs := L.outward.groups[g];
    AcceptQueues(topo, L, g, t, results, seen, arrived, ready, execs, arrived', ready');
    forall r | r in Replicas(L)
      ensures Phase(L, arrived', ready', execs, r)
    {
      assert Phase(L, arrived, ready, execs, r);
      var a: nat :| 0 <= a < |L.bindings| && ReplicaOf(L, a) == r;
      assert ValidBinding(topo, L, a);
      if r in Touched(L, xs) {
        TouchedNotFull(topo, L, g, results, seen, arrived, r);
      } else {
        UntouchedKeeps(L, arrived, xs, t, r);
      }
    }
    forall r | r in execs.Keys
      ensures ExecOk(L, arrived', execs, r)
    {
      assert ExecOk(L, arrived, execs, r);
      if r in Touched(L, xs) { TouchedNotFull(topo, L, g, results, seen, arrived, r); }
      UntouchedKeeps(L, arrived, xs, t, r);
    }
  }

  lemma OneEntryPerReplica(L: Layer, arrived: Arrivals, ready: Queues, chip: ChipId, k: Key)
    requires QueuesOk(L, arrived, ready) && chip in ready && IsEntry(L, arrived, chip, k) && k !in ready[chip]
    ensures !QueuedOnChip(L, ready, k.id)
  {
    assert QueueOk(L, arrived, chip, ready[chip]);
    forall i | 0 <= i < |ready[chip]|
      ensures ready[chip][i].id != k.id
    {
      assert IsEntry(L, arrived, chip, ready[chip][i]);
    }
  }

  /** The last arrival of a touched batch is no earlier than this flow. */
  lemma TouchedIsFresh(L: Layer, arrived: Arrivals, xs: seq<AssignmentId>, t: real, r: ReplicaId)
    requires Known(L, arrived, xs) && r in arrived && r in Touched(L, xs)
    ensures var m := ArriveAll(L, arrived, xs, t)[r]; m.Keys != {} && t <= MaxOf(m)
  {
    var a :| a in xs && a < |L.bindings| && ReplicaOf(L, a) == r;
    ArriveAllEffect(L, arrived, xs, t, r);
    assert a in BatchShare(L, xs, r);
    assert ArriveAll(L, arrived, xs, t)[r][a] == t;
  }

  /** Batches that become ready by accepting a flow date from its finish or
      later. */
  lemma NewEntriesAreFresh(topo: Topology, L: Layer, g: nat, t: real, results: map<FlowId, real>, seen: set<FlowId>,
                           arrived: Arrivals, ready: Queues, execs: Executions, arrived': Arrivals, ready': Queues, chip: ChipId, k: Key)
    requires ValidLayer(topo, L) && g < |L.outward.groups| && ArrivalsOk(L, results, seen, arrived)
    requires OutId(g) !in seen && ready.Keys == Chips(L)
    requires QueuesOk(L, arrived, ready) && PhasesOk(L, arrived, ready, execs)
    requires Accepts(L, g, t, arrived, ready, arrived', ready')
    requires chip in ready && chip in ready' && k in ready'[chip] && k !in ready[chip]
    ensures t <= k.time
  {
    AcceptQueues(topo, L, g, t, results, seen, arrived, ready, execs, arrived', ready');
    assert QueueOk(L, arrived', chip, ready'[chip]);
    assert IsEntry(L, arrived', chip, k);
    QueuedByMember(ready'[chip], k);
    OneEntryPerReplica(L, arrived', ready, chip, k);
    assert k.id in Touched(L, L.outward.groups[g]);
    TouchedIsFresh(L, arrived, L.outward.groups[g], t, k.id);
  }
}
