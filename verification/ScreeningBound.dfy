/** When screening a dispatch plan bounds the event loop that runs it. */
module ScreeningBounds {
  import opened Basics
  import opened Sums
  import opened Communications
  import opened Kernels
  import opened NetTopology
  import opened Layers
  import opened LayerCore
  import opened FastEngines
  import opened FastBound
  import opened Screenings
  import NetModel
  import DispatchModel
  import DispatchRuns
  import Dispatchers
  import DispatchLaws

  // ----- the layer the event loop runs -----

  /** The transfers of a binding follow the routes of h along its path and back,
      and its batch takes the latency of the replica's own kernel. */
  ghost predicate BindingLaid(c: DispatchModel.Config, h: Routing, bindings: seq<Dispatchers.Binding>, L: Layer, k: nat) {
    && DispatchModel.ValidConfig(c) && k < |bindings| && k < |L.bindings|
    && var b, w := bindings[k], c.wiring;
    && b.replica.chip in w.chipAt && b.assignment.home in w.homes && DispatchModel.KernelFor(c, b.replica).Some?
    && var path := DispatchPath(w, b.assignment, b.replica.chip);
    && |Reverse(path)| == |path| && JointRoute(h, path).Some? && JointRoute(h, Reverse(path)).Some?
    && ReplicaOf(L, k) == b.replica.id
    && L.bindings[k].outbound == Path(path[0], path[|path| - 1], JointRoute(h, path).value)
    && L.bindings[k].inbound == Path(path[|path| - 1], path[0], JointRoute(h, Reverse(path)).value)
    && b.replica.id in L.chipOf && L.chipOf[b.replica.id] == b.replica.chip
    && Members(L, b.replica.id) != {} && b.replica.id in L.duration
    && L.duration[b.replica.id] == KernelLatency(DispatchModel.KernelFor(c, b.replica).value, |Members(L, b.replica.id)|)
  }

  ghost predicate IsLaid(c: DispatchModel.Config, h: Routing, bindings: seq<Dispatchers.Binding>, L: Layer) {
    && |L.bindings| == |bindings| && L.hiddenBytes == h.bytes
    && forall k {:trigger BindingLaid(c, h, bindings, L, k)} | 0 <= k < |bindings| :: BindingLaid(c, h, bindings, L, k)
  }

  predicate KnownChips(w: Wiring, topo: Topology) {
    forall chip | chip in w.chipAt.Keys :: w.chipAt[chip] in topo.endpoints
  }

  /** One plan, screened as P and run as L over the routes the estimates assume. */
  ghost predicate Screens(c: DispatchModel.Config, items: seq<Assignment>, g: Routing, L: Layer, P: FastPlan) {
    && DispatchRuns.AllRoutable(c, items) && Estimates(c.wiring, g) && KnownChips(c.wiring, g.topo)
    && IsLaid(c, g, Dispatchers.PlanOf(c, items).bindings, L) && IsScreenPlan(c, Dispatchers.PlanOf(c, items).bindings, P)
  }

  lemma BothBind(c: DispatchModel.Config, items: seq<Assignment>, g: Routing, L: Layer, P: FastPlan)
    requires Screens(c, items, g, L, P)
    ensures SameJobs(L, P) && ValidFast(P)
  {
    var bindings := Dispatchers.PlanOf(c, items).bindings;
    ScreenPlanIsValid(c, bindings, P);
    forall a | 0 <= a < |L.bindings|
      ensures SameJob(L, P, a)
    {
      assert BindingLaid(c, g, bindings, L, a) && JobScreened(c, bindings, P, a);
    }
  }

  // ----- estimates and flows -----

  lemma PathIdeal(g: Routing, path: seq<EndpointId>, flow: Flow)
    requires ValidRouting(g) && |path| >= 2 && JointRoute(g, path).Some?
    requires flow == FlowOver(g, path[0], path[|path| - 1], JointRoute(g, path).value).(id := flow.id)
    ensures ValidFlow(g.topo, flow) && IdealFinish(g.topo, flow) >= 0.0 && PathTime(g, path) == Some(IdealFinish(g.topo, flow))
  {
    JointIsValid(g, path);
  }

  lemma LaidFlow(c: DispatchModel.Config, g: Routing, bindings: seq<Dispatchers.Binding>, L: Layer, k: nat)
    requires ValidRouting(g) && BindingLaid(c, g, bindings, L, k) && L.hiddenBytes == g.bytes
    ensures ValidTopology(g.topo) && ValidFlow(g.topo, OutFlowOf(L, k)) && IdealFinish(g.topo, OutFlowOf(L, k)) >= 0.0
    ensures PathTime(g, DispatchPath(c.wiring, bindings[k].assignment, bindings[k].replica.chip)) == Some(IdealFinish(g.topo, OutFlowOf(L, k)))
  {
    PathIdeal(g, DispatchPath(c.wiring, bindings[k].assignment, bindings[k].replica.chip), OutFlowOf(L, k));
  }

  /** A finite estimate is no longer than the flow it stands for, exactly when
      it does not serialize twice. */
  lemma EstimateFitsIff(c: DispatchModel.Config, g: Routing, bindings: seq<Dispatchers.Binding>, L: Layer, k: nat)
    requires Estimates(c.wiring, g) && KnownChips(c.wiring, g.topo) && BindingLaid(c, g, bindings, L, k) && L.hiddenBytes == g.bytes
    requires DispatchLaws.BindsItem(c, bindings[k].assignment, bindings[k]) && bindings[k].dispatch.Finite?
    ensures ValidTopology(g.topo) && ValidFlow(g.topo, OutFlowOf(L, k)) && bindings[k].dispatch.value >= 0.0
    ensures bindings[k].dispatch.value <= IdealFinish(g.topo, OutFlowOf(L, k))
      <==> !SerializesTwice(c.wiring, bindings[k].assignment, bindings[k].replica.chip)
  {
    LaidFlow(c, g, bindings, L, k);
    EstimateVersusFlow(c.wiring, g, bindings[k].assignment, bindings[k].replica.chip);
  }

  /** The expert's own kernel model is no slower than that of the chip. */
  ghost predicate NoSlower(c: DispatchModel.Config, b: Dispatchers.Binding, m: nat) {
    && DispatchModel.ValidConfig(c) && m > 0 && b.replica.expert in c.general && DispatchModel.KernelFor(c, b.replica).Some?
    && KernelLatency(c.general[b.replica.expert], m) <= KernelLatency(DispatchModel.KernelFor(c, b.replica).value, m)
  }

  /** Binding k is estimated no longer than it takes. */
  ghost predicate Honest(c: DispatchModel.Config, bindings: seq<Dispatchers.Binding>, L: Layer, k: nat) {
    && k < |bindings|
    && var b := bindings[k];
    && b.replica.chip in c.wiring.chipAt && b.assignment.home in c.wiring.homes
    && (b.dispatch.Infinite? || !SerializesTwice(c.wiring, b.assignment, b.replica.chip))
    && NoSlower(c, b, |Members(L, b.replica.id)|)
  }

  lemma HonestFits(c: DispatchModel.Config, items: seq<Assignment>, g: Routing, L: Layer, P: FastPlan, k: nat)
    requires Screens(c, items, g, L, P) && k < |L.bindings| && Honest(c, Dispatchers.PlanOf(c, items).bindings, L, k)
    ensures JobFits(g.topo, L, P, k)
  {
    var bindings := Dispatchers.PlanOf(c, items).bindings;
    BothBind(c, items, g, L, P);
    SameBatches(L, P);
    assert BindingLaid(c, g, bindings, L, k) && JobScreened(c, bindings, P, k);
    DispatchLaws.PlanBindsEach(c, items);
    assert DispatchLaws.BindsItem(c, items[k], bindings[k]);
    LaidFlow(c, g, bindings, L, k);
    if bindings[k].dispatch.Finite? { EstimateFitsIff(c, g, bindings, L, k); }
  }

  ghost predicate AllHonest(c: DispatchModel.Config, bindings: seq<Dispatchers.Binding>, L: Layer) {
    forall k {:trigger Honest(c, bindings, L, k)} | 0 <= k < |bindings| :: Honest(c, bindings, L, k)
  }

  lemma PlanFits(c: DispatchModel.Config, items: seq<Assignment>, g: Routing, L: Layer, P: FastPlan)
    requires Screens(c, items, g, L, P) && AllHonest(c, Dispatchers.PlanOf(c, items).bindings, L)
    ensures SameJobs(L, P) && ValidFast(P) && JobsFit(g.topo, L, P)
  {
    BothBind(c, items, g, L, P);
    forall k | 0 <= k < |L.bindings|
      ensures JobFits(g.topo, L, P, k)
    {
      assert Honest(c, Dispatchers.PlanOf(c, items).bindings, L, k);
      HonestFits(c, items, g, L, P, k);
    }
  }

  // ----- the bound -----

  /** All batches of the layer have run, from time 0, with a dispatch flow for
      every assignment. */
  ghost predicate HasRun(nc: NetModel.Config, n: NetModel.Net, L: Layer, e: Engine) {
    Sound(nc, n, L, e) && ValidLayer(nc.topo, L) && e.execs.Keys == Replicas(L) && L.start == 0.0 && NotShared(L)
  }

  predicate IsExact(nc: NetModel.Config) {
    nc.epsTime == 0.0 && nc.epsBytes == 0.0
  }

  /** Whatever the contention, the screening model is late at most by what the
      tolerances of the network let flows and batches be early: if no estimate
      serializes twice and no kernel model of an expert is slower than that of
      its chip. */
  lemma ScreeningIsBound(c: DispatchModel.Config, items: seq<Assignment>, g: Routing, nc: NetModel.Config, n: NetModel.Net, L: Layer, e: Engine,
                         P: FastPlan, runs: FastRuns, chip: ChipId, i: nat, slack: real)
    requires Screens(c, items, g, L, P) && HasRun(nc, n, L, e) && nc.topo == g.topo && chip in Chips(L) && WithinSlack(nc, L, slack)
    requires AllHonest(c, Dispatchers.PlanOf(c, items).bindings, L)
    requires ValidFast(P) && FastOn(P, runs, chip) && i < |FastOrder(P, chip)|
    ensures chip in e.log && Bounded(L, e, P, runs, chip, i, slack + Repeated(|e.log[chip]|, nc.epsTime))
  {
    PlanFits(c, items, g, L, P);
    FastNeverLater(nc, n, L, e, P, runs, chip, i, slack);
  }

  /** With no tolerance: exactly never late. */
  lemma ScreeningIsExact(c: DispatchModel.Config, items: seq<Assignment>, g: Routing, nc: NetModel.Config, n: NetModel.Net, L: Layer, e: Engine,
                         P: FastPlan, runs: FastRuns, chip: ChipId, i: nat)
    requires Screens(c, items, g, L, P) && HasRun(nc, n, L, e) && nc.topo == g.topo && chip in Chips(L) && IsExact(nc)
    requires AllHonest(c, Dispatchers.PlanOf(c, items).bindings, L)
    requires ValidFast(P) && FastOn(P, runs, chip) && i < |FastOrder(P, chip)|
    ensures Bounded(L, e, P, runs, chip, i, 0.0)
  {
    PlanFits(c, items, g, L, P);
    FastIsLowerBound(nc, n, L, e, P, runs, chip, i);
  }

  lemma HomeBinding(c: DispatchModel.Config, g: Routing, bindings: seq<Dispatchers.Binding>, L: Layer, P: FastPlan, k: nat)
    requires c.wiring.mode == HomeResident && c.onChip == map[]
    requires BindingLaid(c, g, bindings, L, k) && JobScreened(c, bindings, P, k) && DispatchLaws.BindsItem(c, bindings[k].assignment, bindings[k])
    ensures Honest(c, bindings, L, k) && P.jobs[k].dispatch.Finite?
  {
  }

  lemma HomeIsHonest(c: DispatchModel.Config, items: seq<Assignment>, g: Routing, L: Layer, P: FastPlan)
    requires Screens(c, items, g, L, P) && c.wiring.mode == HomeResident && c.onChip == map[]
    ensures AllHonest(c, Dispatchers.PlanOf(c, items).bindings, L)
    ensures forall k | 0 <= k < |P.jobs| :: P.jobs[k].dispatch.Finite?
  {
    var bindings := Dispatchers.PlanOf(c, items).bindings;
    DispatchLaws.PlanBindsEach(c, items);
    forall k | 0 <= k < |bindings|
      ensures Honest(c, bindings, L, k) && P.jobs[k].dispatch.Finite?
    {
      assert BindingLaid(c, g, bindings, L, k) && JobScreened(c, bindings, P, k) && DispatchLaws.BindsItem(c, items[k], bindings[k]);
      HomeBinding(c, g, bindings, L, P, k);
    }
  }

  /** Dispatching from resident homes, with kernels per expert, every batch is
      screened at a finite time, and late at most by the tolerances. This covers
      the estimate that leaves out the home leg. */
  lemma HomeResidentIsBound(c: DispatchModel.Config, items: seq<Assignment>, g: Routing, nc: NetModel.Config, n: NetModel.Net, L: Layer, e: Engine,
                            P: FastPlan, runs: FastRuns, chip: ChipId, i: nat, slack: real)
    requires Screens(c, items, g, L, P) && HasRun(nc, n, L, e) && nc.topo == g.topo && chip in Chips(L) && WithinSlack(nc, L, slack)
    requires c.wiring.mode == HomeResident && c.onChip == map[]
    requires ValidFast(P) && FastOn(P, runs, chip) && i < |FastOrder(P, chip)|
    ensures chip in e.log && Bounded(L, e, P, runs, chip, i, slack + Repeated(|e.log[chip]|, nc.epsTime))
    ensures runs[FastOrder(P, chip)[i]].finish.Finite?
  {
    HomeIsHonest(c, items, g, L, P);
    ScreeningIsBound(c, items, g, nc, n, L, e, P, runs, chip, i, slack);
    var r := FastOrder(P, chip)[i];
    var a: nat :| a in FastMembers(P, r) && P.jobs[a].dispatch == FastArrival(P, r);
  }

  /** With no tolerance: exactly never late. */
  lemma HomeResidentIsExact(c: DispatchModel.Config, items: seq<Assignment>, g: Routing, nc: NetModel.Config, n: NetModel.Net, L: Layer, e: Engine,
                            P: FastPlan, runs: FastRuns, chip: ChipId, i: nat)
    requires Screens(c, items, g, L, P) && HasRun(nc, n, L, e) && nc.topo == g.topo && chip in Chips(L) && IsExact(nc)
    requires c.wiring.mode == HomeResident && c.onChip == map[]
    requires ValidFast(P) && FastOn(P, runs, chip) && i < |FastOrder(P, chip)|
    ensures Bounded(L, e, P, runs, chip, i, 0.0)
  {
    HomeIsHonest(c, items, g, L, P);
    ScreeningIsExact(c, items, g, nc, n, L, e, P, runs, chip, i);
  }
}
