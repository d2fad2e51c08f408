/** Screening a dispatch plan, and the layer the event loop runs from it. */
module Screenings {
  import opened Basics
  import opened Communications
  import opened Kernels
  import opened ReplicaPlans
  import opened Layers
  import opened FastEngines
  import opened Sorting
  import DispatchModel
  import DispatchRuns
  import Dispatchers
  import DispatchLaws

  // ----- the plan the screening model works from -----

  /** Job k is binding k, with the kernel of its expert. */
  ghost predicate JobScreened(c: DispatchModel.Config, bindings: seq<Dispatchers.Binding>, P: FastPlan, k: nat) {
    && DispatchModel.ValidConfig(c) && k < |bindings| && k < |P.jobs|
    && var b := bindings[k];
    && P.jobs[k] == FastJob(b.replica.id, b.dispatch, b.combine)
    && b.replica.id in P.chipOf && P.chipOf[b.replica.id] == b.replica.chip
    && b.replica.expert in c.general && FastMembers(P, b.replica.id) != {} && b.replica.id in P.duration
    && P.duration[b.replica.id] == KernelLatency(c.general[b.replica.expert], |FastMembers(P, b.replica.id)|)
  }

  ghost predicate IsScreenPlan(c: DispatchModel.Config, bindings: seq<Dispatchers.Binding>, P: FastPlan) {
    |P.jobs| == |bindings| && forall k {:trigger JobScreened(c, bindings, P, k)} | 0 <= k < |bindings| :: JobScreened(c, bindings, P, k)
  }

  /** Bindings to one replica agree about it. */
  predicate Agrees(bindings: seq<Dispatchers.Binding>, j: nat, k: nat) {
    j < |bindings| && k < |bindings| && (bindings[j].replica.id == bindings[k].replica.id ==> bindings[j].replica == bindings[k].replica)
  }

  ghost predicate AllAgree(bindings: seq<Dispatchers.Binding>) {
    forall j: nat, k: nat {:trigger Agrees(bindings, j, k)} | j < |bindings| && k < |bindings| :: Agrees(bindings, j, k)
  }

  lemma PlanAgrees(c: DispatchModel.Config, items: seq<Assignment>)
    requires DispatchRuns.AllRoutable(c, items)
    ensures AllAgree(Dispatchers.PlanOf(c, items).bindings)
  {
    var bindings := Dispatchers.PlanOf(c, items).bindings;
    DispatchLaws.PlanBindsEach(c, items);
    forall j: nat, k: nat | j < |bindings| && k < |bindings|
      ensures Agrees(bindings, j, k)
    {
      assert DispatchLaws.BindsItem(c, items[j], bindings[j]) && DispatchLaws.BindsItem(c, items[k], bindings[k]);
      if bindings[j].replica.id == bindings[k].replica.id {
        DispatchModel.SameReplica(c, bindings[j].replica, bindings[k].replica);
      }
    }
  }

  function JobsOf(bindings: seq<Dispatchers.Binding>): seq<FastJob> {
    seq(|bindings|, k requires 0 <= k < |bindings| => FastJob(bindings[k].replica.id, bindings[k].dispatch, bindings[k].combine))
  }

  /** What is known of the first n bindings. */
  ghost predicate KnownUpTo(c: DispatchModel.Config, bindings: seq<Dispatchers.Binding>, P: FastPlan, n: nat) {
    forall k {:trigger JobScreened(c, bindings, P, k)} | 0 <= k < n && k < |bindings| :: JobScreened(c, bindings, P, k)
  }

  lemma OneMoreJob(c: DispatchModel.Config, bindings: seq<Dispatchers.Binding>, P: FastPlan, P': FastPlan, n: nat)
    requires DispatchModel.ValidConfig(c) && AllAgree(bindings) && n < |bindings| && KnownUpTo(c, bindings, P, n)
    requires P.jobs == P'.jobs == JobsOf(bindings) && bindings[n].replica.expert in c.general && FastMembers(P, bindings[n].replica.id) != {}
    requires var r := bindings[n].replica;
      P'.chipOf == P.chipOf[r.id := r.chip]
      && P'.duration == P.duration[r.id := KernelLatency(c.general[r.expert], |FastMembers(P, r.id)|)]
    ensures KnownUpTo(c, bindings, P', n + 1)
  {
    forall k | 0 <= k < n + 1 && k < |bindings|
      ensures JobScreened(c, bindings, P', k)
    {
      assert FastMembers(P', bindings[k].replica.id) == FastMembers(P, bindings[k].replica.id);
      if k < n { assert JobScreened(c, bindings, P, k) && Agrees(bindings, k, n); }
    }
  }

  lemma NextIsMember(bindings: seq<Dispatchers.Binding>, P: FastPlan, n: nat)
    requires n < |bindings| && P.jobs == JobsOf(bindings)
    ensures FastMembers(P, bindings[n].replica.id) != {}
  {
    assert n in FastMembers(P, bindings[n].replica.id);
  }

  lemma ScreenPlanIsValid(c: DispatchModel.Config, bindings: seq<Dispatchers.Binding>, P: FastPlan)
    requires IsScreenPlan(c, bindings, P)
    ensures ValidFast(P)
  {
    forall a | 0 <= a < |P.jobs|
      ensures KnownJob(P, a)
    {
      assert JobScreened(c, bindings, P, a);
    }
  }

  /** The jobs, chips and latencies of the bindings. The lookup by expert alone
      fails for an expert that has kernels only per chip. */
  method MakeScreenPlan(c: DispatchModel.Config, bindings: seq<Dispatchers.Binding>) returns (r: Option<FastPlan>)
    requires DispatchModel.ValidConfig(c) && AllAgree(bindings)
    ensures r.Some? <==> forall b | b in bindings :: b.replica.expert in c.general
    ensures r.Some? ==> IsScreenPlan(c, bindings, r.value) && ValidFast(r.value)
  {
    var P := FastPlan(JobsOf(bindings), map[], map[]);
    for n := 0 to |bindings|
      invariant P.jobs == JobsOf(bindings) && KnownUpTo(c, bindings, P, n)
      invariant forall b | b in bindings[..n] :: b.replica.expert in c.general
    {
      var s := bindings[n].replica;
      if s.expert !in c.general {
        assert bindings[n] in bindings;
        return None;
      }
      NextIsMember(bindings, P, n);
      assert bindings[..n + 1] == bindings[..n] + [bindings[n]];
      var P' := P.(chipOf := P.chipOf[s.id := s.chip],
                   duration := P.duration[s.id := KernelLatency(c.general[s.expert], |FastMembers(P, s.id)|)]);
      OneMoreJob(c, bindings, P, P', n);
      P := P';
    }
    assert bindings[..|bindings|] == bindings;
    ScreenPlanIsValid(c, bindings, P);
    r := Some(P);
  }

  // ----- screening a window -----

  datatype ScreenError = NoAssignments | SeveralLayers | NotPlanned(error: DispatchError) | NoExpertKernel

  datatype Screened = Screened(plan: FastPlan, runs: FastRuns, combined: map<AssignmentId, Cost>)

  predicate OneLayer(items: seq<Assignment>) {
    forall a, b | a in items && b in items :: a.layer == b.layer
  }

  predicate HasKernel(c: DispatchModel.Config, a: Assignment) {
    a.expert in c.general
  }

  /** Every batch runs once on its chip by the recurrence, and every assignment
      comes back after its batch. */
  ghost predicate IsScreened(c: DispatchModel.Config, bindings: seq<Dispatchers.Binding>, s: Screened) {
    && IsScreenPlan(c, bindings, s.plan) && ValidFast(s.plan) && s.runs.Keys == FastReplicas(s.plan)
    && (forall chip {:trigger FastOn(s.plan, s.runs, chip)} | chip in FastChips(s.plan) :: FastOn(s.plan, s.runs, chip))
    && s.combined.Keys == FirstNats(|bindings|)
    && forall k: nat {:trigger s.combined[k]} | k in s.combined.Keys && k < |bindings| && bindings[k].replica.id in s.runs ::
         s.combined[k] == Plus(s.runs[bindings[k].replica.id].finish, bindings[k].combine)
  }

  lemma SameExperts(c: DispatchModel.Config, bindings: seq<Dispatchers.Binding>, items: seq<Assignment>)
    requires |bindings| == |items| && forall k | 0 <= k < |items| :: bindings[k].replica.expert == items[k].expert
    ensures (forall b | b in bindings :: b.replica.expert in c.general) <==> forall a | a in items :: HasKernel(c, a)
  {
    if forall b | b in bindings :: b.replica.expert in c.general {
      forall a | a in items
        ensures HasKernel(c, a)
      {
        var k :| 0 <= k < |items| && items[k] == a;
        assert bindings[k] in bindings;
      }
    }
    if forall a | a in items :: HasKernel(c, a) {
      forall b | b in bindings
        ensures b.replica.expert in c.general
      {
        var k :| 0 <= k < |bindings| && bindings[k] == b;
        assert HasKernel(c, items[k]);
      }
    }
  }

  lemma BoundExperts(c: DispatchModel.Config, items: seq<Assignment>)
    requires DispatchRuns.AllRoutable(c, items)
    ensures (forall b | b in Dispatchers.PlanOf(c, items).bindings :: b.replica.expert in c.general) <==> forall a | a in items :: HasKernel(c, a)
  {
    var bindings := Dispatchers.PlanOf(c, items).bindings;
    DispatchLaws.PlanBindsEach(c, items);
    forall k | 0 <= k < |items|
      ensures bindings[k].replica.expert == items[k].expert
    {
      assert DispatchLaws.BindsItem(c, items[k], bindings[k]);
    }
    SameExperts(c, bindings, items);
  }

  lemma OrderedMembers(items: seq<Assignment>)
    ensures forall a :: a in Dispatchers.Ordered(items) <==> a in items
  {
    SameElements(Dispatchers.Ordered(items), items);
  }

  lemma JobsAreScreened(c: DispatchModel.Config, bindings: seq<Dispatchers.Binding>, s: Screened)
    requires IsScreenPlan(c, bindings, s.plan) && s.combined.Keys == FirstNats(|s.plan.jobs|)
    requires s.runs.Keys == FastReplicas(s.plan)
    requires forall a: nat | a < |s.plan.jobs| :: s.combined[a] == Plus(s.runs[s.plan.jobs[a].replica].finish, s.plan.jobs[a].combine)
    ensures forall k: nat {:trigger s.combined[k]} | k in s.combined.Keys && k < |bindings| && bindings[k].replica.id in s.runs ::
      s.combined[k] == Plus(s.runs[bindings[k].replica.id].finish, bindings[k].combine)
  {
    forall k: nat | k < |bindings|
      ensures s.plan.jobs[k] == FastJob(bindings[k].replica.id, bindings[k].dispatch, bindings[k].combine)
    {
      assert JobScreened(c, bindings, s.plan, k);
    }
  }

  /** A window of one layer that the dispatcher can plan, with a kernel for each
      of its experts. */
  ghost predicate CanScreen(c: DispatchModel.Config, items: seq<Assignment>) {
    && items != [] && OneLayer(items) && DistinctKeys(items, Dispatchers.IdOf)
    && DispatchRuns.AllRoutable(c, items) && forall a | a in items :: HasKernel(c, a)
  }

  /** `FastMoELayerEngine.run`: succeeds exactly on a window of one layer that
      the dispatcher can plan, with a kernel for each of its experts. */
  method Screen(c: DispatchModel.Config, items: seq<Assignment>) returns (r: Result<Screened, ScreenError>)
    requires DispatchModel.ValidConfig(c)
    ensures r == Err(NoAssignments) <==> items == []
    ensures r == Err(SeveralLayers) <==> items != [] && !OneLayer(items)
    ensures r.Ok? <==> CanScreen(c, items)
    ensures r.Ok? ==> DispatchRuns.AllRoutable(c, Dispatchers.Ordered(items))
    ensures r.Ok? ==> IsScreened(c, Dispatchers.PlanOf(c, Dispatchers.Ordered(items)).bindings, r.value)
  {
    if items == [] { return Err(NoAssignments); }
    if exists a :: a in items && a.layer != items[0].layer { return Err(SeveralLayers); }
    var planned := Dispatchers.Plan(c, items);
    if planned.Err? { return Err(NotPlanned(planned.error)); }
    var ordered, bindings := Dispatchers.Ordered(items), planned.value.bindings;
    OrderedMembers(items);
    PlanAgrees(c, ordered);
    BoundExperts(c, ordered);
    var plan := MakeScreenPlan(c, bindings);
    if plan.None? { return Err(NoExpertKernel); }
    var runs, combined := RunPlan(plan.value);
    var screened := Screened(plan.value, runs, combined);
    JobsAreScreened(c, bindings, screened);
    r := Ok(screened);
  }
}
