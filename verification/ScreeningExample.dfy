/** Screening a window of one assignment: the exact condition, and an input on
    which it is late. */
module ScreeningExamples {
  import opened Basics
  import opened Communications
  import opened FairShare
  import opened NetTopology
  import opened NetService
  import opened Kernels
  import opened ReplicaPlans
  import opened Layers
  import opened LayerCore
  import opened LoneFlows
  import opened LoneWindows
  import opened FastEngines
  import opened FastBound
  import opened Screenings
  import opened ScreeningBounds
  import NetModel
  import DispatchModel
  import DispatchRuns
  import Dispatchers
  import DispatchLaws

  // ----- the exact condition -----

  /** One assignment, planned, screened and run alone over the routes that its
      estimate assumes, with a kernel for its expert only. */
  ghost predicate RunsAlone(c: DispatchModel.Config, a: Assignment, g: Routing, nc: NetModel.Config, L: Layer, P: FastPlan) {
    && Screens(c, [a], g, L, P) && c.onChip == map[] && nc.topo == g.topo && NetModel.ValidConfig(nc)
    && OneJob(nc.topo, L) && ValidFlow(nc.topo, OutFlowOf(L, 0)) && RunsFree(nc, OutFlowOf(L, 0))
  }

  lemma AloneFits(c: DispatchModel.Config, a: Assignment, g: Routing, nc: NetModel.Config, L: Layer, P: FastPlan) returns (b: Dispatchers.Binding)
    requires RunsAlone(c, a, g, nc, L, P) && |P.jobs| == 1 && P.jobs[0].dispatch.Finite?
    ensures Dispatchers.PlanOf(c, [a]).bindings == [b] && b.assignment == a && b.replica.chip in c.wiring.chipAt && a.home in c.wiring.homes
    ensures SameJobs(L, P) && ValidFast(P) && ReplicaOf(L, 0) == b.replica.id && ReplicaOf(L, 0) in L.chipOf
    ensures ReplicaOf(L, 0) in P.duration && ReplicaOf(L, 0) in L.duration && P.duration[ReplicaOf(L, 0)] == L.duration[ReplicaOf(L, 0)]
    ensures P.jobs[0].dispatch.value >= 0.0
    ensures P.jobs[0].dispatch.value <= IdealFinish(nc.topo, OutFlowOf(L, 0)) <==> !SerializesTwice(c.wiring, a, b.replica.chip)
  {
    var bindings := Dispatchers.PlanOf(c, [a]).bindings;
    DispatchLaws.PlanBindsEach(c, [a]);
    b := bindings[0];
    assert DispatchLaws.BindsItem(c, [a][0], b);
    BothBind(c, [a], g, L, P);
    SameBatches(L, P);
    assert BindingLaid(c, g, bindings, L, 0) && JobScreened(c, bindings, P, 0);
    EstimateFitsIff(c, g, bindings, L, 0);
  }

  /** With a finite estimate and a transfer nothing throttles: if the estimate
      does not serialize twice, no run is over before it is screened to be, by
      more than the tolerances allow; if it does, some run is. */
  lemma AloneIsBound(c: DispatchModel.Config, a: Assignment, g: Routing, nc: NetModel.Config, L: Layer, P: FastPlan, runs: FastRuns, chip: ChipId)
    requires RunsAlone(c, a, g, nc, L, P) && |P.jobs| == 1 && P.jobs[0].dispatch.Finite?
    requires ValidFast(P) && FastOn(P, runs, chip) && ReplicaOf(L, 0) in L.chipOf && L.chipOf[ReplicaOf(L, 0)] == chip
    ensures a.home in c.wiring.homes && chip in c.wiring.chipAt
    ensures !SerializesTwice(c.wiring, a, chip) ==>
      forall n, e {:trigger Beats(nc, L, P, runs, n, e, Slack(nc, OutFlowOf(L, 0)))} :: !Beats(nc, L, P, runs, n, e, Slack(nc, OutFlowOf(L, 0)))
    ensures SerializesTwice(c.wiring, a, chip) ==> exists n, e {:trigger Beats(nc, L, P, runs, n, e, 0.0)} :: Beats(nc, L, P, runs, n, e, 0.0)
  {
    var b := AloneFits(c, a, g, nc, L, P);
    assert BindingLaid(c, g, [b], L, 0);
    LoneBound(nc, L, P, runs, chip, 0.0);
  }

  /** With no tolerance: screening is never late exactly when the estimate does
      not serialize twice. */
  lemma AloneIsBoundIff(c: DispatchModel.Config, a: Assignment, g: Routing, nc: NetModel.Config, L: Layer, P: FastPlan, runs: FastRuns, chip: ChipId)
    requires RunsAlone(c, a, g, nc, L, P) && |P.jobs| == 1 && P.jobs[0].dispatch.Finite? && IsExact(nc)
    requires ValidFast(P) && FastOn(P, runs, chip) && ReplicaOf(L, 0) in L.chipOf && L.chipOf[ReplicaOf(L, 0)] == chip
    ensures a.home in c.wiring.homes && chip in c.wiring.chipAt
    ensures (forall n, e {:trigger Beats(nc, L, P, runs, n, e, 0.0)} :: !Beats(nc, L, P, runs, n, e, 0.0)) <==> !SerializesTwice(c.wiring, a, chip)
  {
    NoSlack(nc, OutFlowOf(L, 0));
    AloneIsBound(c, a, g, nc, L, P, runs, chip);
  }

  // ----- an input -----

  /** One expert on the one chip, with the given kernel; activations come from
      the ingress at 0 and are bridged over the home at 1 to the chip at 2. */
  function Bridged(k: Kernel): DispatchModel.Config {
    DispatchModel.Config(Inventory(map[0 := 1], map[0 := ChipSpec(1, None)]), [OnlyReplica()], {}, map[], map[0 := k],
                         RowWiring(GpuToHome, 2), DispatchModel.EarliestFinish, map[])
  }

  function OnlyReplica(): ReplicaSpec {
    ReplicaSpec(0, 0, 0, true)
  }

  function OnlyTask(): Assignment {
    Assignment(0, 0, 0, 0, 0, 0, 0)
  }

  /** The layer the event loop runs: one flow over both links, and back. */
  function BridgedLayer(d: real): Layer {
    Layer([Binding(0, 0, Path(0, 2, [0, 1]), Path(2, 0, [3, 2]))], map[0 := 0], map[0 := d], 1, 0.0, false, 0.0,
          Grouping([[0]], [0]), Grouping([[0]], [0]))
  }

  function BridgedPlan(d: real): FastPlan {
    FastPlan([FastJob(0, Finite(2.0), Finite(2.0))], map[0 := 0], map[0 := d])
  }

  function RowConfig(epsTime: real, epsBytes: real): NetModel.Config {
    NetModel.Config(Row(), map[Resource.Link(0) := 1.0, Resource.Link(1) := 1.0, Resource.Link(2) := 1.0, Resource.Link(3) := 1.0],
                    epsTime, epsBytes)
  }

  lemma UnitTable(topo: Topology, cap: Capacities)
    requires forall l | l in topo.links.Keys :: topo.links[l].effective == 1.0 && topo.links[l].halfGroup.None? && Resource.Link(l) in cap
    requires forall r | r in cap.Keys :: r.Link? && r.link in topo.links && cap[r] == 1.0
    requires forall e | e in topo.endpoints.Keys :: topo.endpoints[e] == EndpointSpec(None, None)
    ensures IsCapacityTable(topo, cap)
  {
    forall r | r in cap.Keys
      ensures SetByLink(topo, cap, r)
    {
      assert LinkResource(topo, r.link) == r;
    }
  }

  lemma RowConfigIsValid(epsTime: real, epsBytes: real)
    requires epsTime >= 0.0 && epsBytes >= 0.0
    ensures NetModel.ValidConfig(RowConfig(epsTime, epsBytes))
  {
    RowIsValid();
    UnitTable(RowConfig(epsTime, epsBytes).topo, RowConfig(epsTime, epsBytes).cap);
  }

  lemma BridgedIsValid(k: Kernel)
    requires ValidKernel(k)
    ensures DispatchModel.ValidConfig(Bridged(k))
  {
    var c := Bridged(k);
    var rs := c.replicas;
    assert 0 in c.inv.weight.Keys && 0 in c.inv.chips.Keys;
    assert rs[..|rs| - 1] == [];
    assert Primaries(rs, 0) == 1;
    forall x | x in c.inv.chips.Keys
      ensures HasRoom(c.inv, rs, x)
    {
      assert Used(c.inv, rs, x) == Burden(c.inv, OnlyReplica(), x) && Residents(rs, x) == Here(OnlyReplica(), x);
    }
  }

  lemma BridgedRoutable(k: Kernel)
    requires ValidKernel(k)
    ensures DispatchRuns.AllRoutable(Bridged(k), [OnlyTask()])
  {
    BridgedIsValid(k);
    BridgedEstimateIsTooLong(OnlyTask());
    var c := Bridged(k);
    forall r | r in DispatchModel.ReplicasFor(c, 0)
      ensures DispatchModel.CanServe(c, OnlyTask(), r)
    {
      assert r == OnlyReplica();
    }
  }

  lemma BridgedBinding(k: Kernel) returns (b: Dispatchers.Binding)
    requires ValidKernel(k)
    ensures DispatchRuns.AllRoutable(Bridged(k), [OnlyTask()]) && Dispatchers.PlanOf(Bridged(k), [OnlyTask()]).bindings == [b]
    ensures b.assignment == OnlyTask() && b.replica == OnlyReplica() && b.dispatch == Finite(2.0) && b.combine == Finite(2.0)
  {
    BridgedRoutable(k);
    var c, items := Bridged(k), [OnlyTask()];
    DispatchLaws.PlanBindsEach(c, items);
    b := Dispatchers.PlanOf(c, items).bindings[0];
    assert DispatchLaws.BindsItem(c, items[0], b);
    BridgedEstimateIsTooLong(OnlyTask());
  }

  lemma BridgedRoutes()
    ensures JointRoute(RowRouting(), [0, 1, 2]) == Some([0, 1]) && JointRoute(RowRouting(), [2, 1, 0]) == Some([3, 2])
    ensures Reverse([0, 1, 2]) == [2, 1, 0]
  {
    ThreePoints(RowRouting(), 0, 1, 2);
    ThreePoints(RowRouting(), 2, 1, 0);
    assert [0] + [1] == [0, 1] && [3] + [2] == [3, 2];
  }

  lemma BridgedBatches(d: real)
    ensures Members(BridgedLayer(d), 0) == {0} && FastMembers(BridgedPlan(d), 0) == {0}
    ensures Replicas(BridgedLayer(d)) == {0}
  {
    assert BridgedLayer(d).bindings[0].replica == 0;
    OneReplica(BridgedLayer(d));
  }

  lemma BridgedLaid(k: Kernel, b: Dispatchers.Binding)
    requires ValidKernel(k) && b.assignment == OnlyTask() && b.replica == OnlyReplica()
    ensures BindingLaid(Bridged(k), RowRouting(), [b], BridgedLayer(KernelLatency(k, 1)), 0)
  {
    BridgedIsValid(k);
    BridgedRoutes();
    BridgedBatches(KernelLatency(k, 1));
    BridgedEstimateIsTooLong(OnlyTask());
  }

  lemma BridgedScreened(k: Kernel, b: Dispatchers.Binding)
    requires ValidKernel(k) && b.replica == OnlyReplica() && b.dispatch == Finite(2.0) && b.combine == Finite(2.0)
    ensures JobScreened(Bridged(k), [b], BridgedPlan(KernelLatency(k, 1)), 0)
  {
    BridgedIsValid(k);
    BridgedBatches(KernelLatency(k, 1));
  }

  /** The example is one plan, screened and run. */
  lemma BridgedScreens(k: Kernel)
    requires ValidKernel(k)
    ensures Screens(Bridged(k), [OnlyTask()], RowRouting(), BridgedLayer(KernelLatency(k, 1)), BridgedPlan(KernelLatency(k, 1)))
  {
    var b := BridgedBinding(k);
    RowEstimates(GpuToHome, 2);
    BridgedLaid(k, b);
    BridgedScreened(k, b);
  }

  lemma BridgedLayerIsValid(d: real)
    requires d > 0.0
    ensures OneJob(Row(), BridgedLayer(d))
  {
    var L := BridgedLayer(d);
    RowIsValid();
    assert InGroup(L.outward, 0) && InGroup(L.inward, 0);
    assert ValidGroup(L.outward, 0) && ValidGroup(L.inward, 0);
    assert ValidBinding(Row(), L, 0);
  }

  lemma BridgedFlow(d: real, epsTime: real, epsBytes: real)
    requires d > 0.0 && epsTime >= 0.0 && 0.0 <= epsBytes < 1.0
    ensures ValidTopology(Row()) && ValidFlow(Row(), OutFlowOf(BridgedLayer(d), 0))
    ensures RunsFree(RowConfig(epsTime, epsBytes), OutFlowOf(BridgedLayer(d), 0))
    ensures IdealFinish(Row(), OutFlowOf(BridgedLayer(d), 0)) == 1.0 && RouteLatency(Row(), OutFlowOf(BridgedLayer(d), 0).route) == 0.0
  {
    RowIsValid();
    RowCosts([0, 1]);
  }

  /** The batch of the one job is screened at `late` and over at `early`. */
  ghost predicate Outcome(nc: NetModel.Config, L: Layer, runs: FastRuns, n: NetModel.Net, e: Engine, early: real, late: real) {
    && Sound(nc, n, L, e) && e.execs.Keys == Replicas(L) == {0} && 0 in e.execs && e.execs[0].finish == early
    && 0 in runs && runs[0].finish == Finite(late)
  }

  lemma JobOutcome(nc: NetModel.Config, L: Layer, P: FastPlan, runs: FastRuns, chip: ChipId, d: real) returns (n: NetModel.Net, e: Engine)
    requires NetModel.ValidConfig(nc) && OneJob(nc.topo, L) && ValidFlow(nc.topo, OutFlowOf(L, 0)) && RunsFree(nc, OutFlowOf(L, 0))
    requires SameJobs(L, P) && ValidFast(P) && FastOn(P, runs, chip) && Replicas(L) == {0} && ReplicaOf(L, 0) == 0
    requires 0 in L.chipOf && L.chipOf[0] == chip && 0 in L.duration && 0 in P.duration && L.duration[0] == P.duration[0] == d
    requires P.jobs[0].dispatch == Finite(2.0) && IdealFinish(nc.topo, OutFlowOf(L, 0)) == 1.0
    requires RouteLatency(nc.topo, OutFlowOf(L, 0).route) == 0.0
    ensures Outcome(nc, L, runs, n, e, 1.0 + d, 2.0 + d)
  {
    n, e := LoneOutcome(nc, L, P, runs, chip);
  }

  /** Everything the example is made of fits together. */
  lemma BridgedFits(k: Kernel, d: real, epsTime: real, epsBytes: real)
    requires ValidKernel(k) && d == KernelLatency(k, 1) && epsTime >= 0.0 && 0.0 <= epsBytes < 1.0
    ensures Screens(Bridged(k), [OnlyTask()], RowRouting(), BridgedLayer(d), BridgedPlan(d))
    ensures NetModel.ValidConfig(RowConfig(epsTime, epsBytes)) && OneJob(Row(), BridgedLayer(d))
    ensures SameJobs(BridgedLayer(d), BridgedPlan(d)) && ValidFast(BridgedPlan(d)) && Replicas(BridgedLayer(d)) == {0}
    ensures ValidFlow(Row(), OutFlowOf(BridgedLayer(d), 0)) && RunsFree(RowConfig(epsTime, epsBytes), OutFlowOf(BridgedLayer(d), 0))
    ensures IdealFinish(Row(), OutFlowOf(BridgedLayer(d), 0)) == 1.0 && RouteLatency(Row(), OutFlowOf(BridgedLayer(d), 0).route) == 0.0
  {
    KernelRises(k, 1, 1);
    BridgedScreens(k);
    RowConfigIsValid(epsTime, epsBytes);
    BridgedLayerIsValid(d);
    BridgedFlow(d, epsTime, epsBytes);
    BridgedBatches(d);
    BothBind(Bridged(k), [OnlyTask()], RowRouting(), BridgedLayer(d), BridgedPlan(d));
  }

  /** Screening says the kernel's latency plus two seconds; the event loop, when
      nothing is in its way, takes the latency plus one. This holds for any
      tolerance in time, and for any below one byte, which is what is sent. */
  lemma BridgedScreeningIsLate(k: Kernel, P: FastPlan, runs: FastRuns, epsTime: real, epsBytes: real) returns (n: NetModel.Net, e: Engine)
    requires ValidKernel(k) && P == BridgedPlan(KernelLatency(k, 1)) && ValidFast(P) && FastOn(P, runs, 0)
    requires epsTime >= 0.0 && 0.0 <= epsBytes < 1.0
    ensures Screens(Bridged(k), [OnlyTask()], RowRouting(), BridgedLayer(KernelLatency(k, 1)), P)
    ensures Outcome(RowConfig(epsTime, epsBytes), BridgedLayer(KernelLatency(k, 1)), runs, n, e, 1.0 + KernelLatency(k, 1), 2.0 + KernelLatency(k, 1))
  {
    var d := KernelLatency(k, 1);
    BridgedFits(k, d, epsTime, epsBytes);
    n, e := JobOutcome(RowConfig(epsTime, epsBytes), BridgedLayer(d), P, runs, 0, d);
  }
}
