/** A literal placement on which load sharing leaves the reachable replica. */
module DispatchExamples {
  import opened Basics
  import opened Communications
  import opened DispatchLaws
  import opened DispatchModel
  import opened DispatchRuns
  import opened Dispatchers
  import opened Kernels
  import opened ReplicaPlans

  /** One expert on a chip next to the ingress, and again on a remote GPU. */
  function Near(): ReplicaSpec {
    ReplicaSpec(0, 0, 0, true)
  }

  function Remote(): ReplicaSpec {
    ReplicaSpec(1, 0, 1, false)
  }

  function TwoCopies(): Config {
    Config(Inventory(map[0 := 1], map[0 := ChipSpec(1, None), 1 := ChipSpec(1, None)]), [Near(), Remote()], {}, map[],
           map[0 := Analytic(1.0, 1.0, 1.0, 1.0, 1.0, 1, 0.0)],
           Wiring(GpuDirect, map[0 := 0], map[0 := 1, 1 := 2], Some(0), [], {2}, RowTime), SplitLoad, map[])
  }

  function Task(id: nat): Assignment {
    Assignment(id, 0, 0, 0, 0, 0, 0)
  }

  lemma TwoCopiesFit()
    ensures ValidPlan(TwoCopies().inv, [Near(), Remote()])
  {
    var inv, rs := TwoCopies().inv, [Near(), Remote()];
    assert rs[..1] == [Near()] && [Near()][..0] == [];
    assert Primaries([Near()], 0) == 1 && Primaries(rs, 0) == 1;
    forall i: nat | i < |rs|
      ensures KnownAt(inv, rs, i)
    {
    }
    forall i: nat, j: nat | i < j < |rs|
      ensures Apart(rs, i, j)
    {
    }
    forall k | k in inv.chips.Keys
      ensures HasRoom(inv, rs, k)
    {
      assert Used(inv, [Near()], k) == Burden(inv, Near(), k) && Residents([Near()], k) == Here(Near(), k);
    }
  }

  lemma TwoCopiesAreValid()
    ensures ValidConfig(TwoCopies())
  {
    TwoCopiesFit();
    assert ValidKernel(TwoCopies().general[0]);
  }

  lemma TwoCopiesServe(id: nat)
    ensures Routable(TwoCopies(), Task(id))
    ensures forall r :: r in ReplicasFor(TwoCopies(), 0) <==> r == Near() || r == Remote()
    ensures Reaches(TwoCopies(), Task(id), Near()) && !Reaches(TwoCopies(), Task(id), Remote())
  {
    var c := TwoCopies();
    assert c.replicas[0] in c.replicas && c.replicas[1] in c.replicas;
    forall r | r in ReplicasFor(c, 0)
      ensures CanServe(c, Task(id), r)
    {
    }
  }

  /** Nothing is bound yet, so both loads are nothing. */
  lemma NearLeads(c: Config)
    requires c == TwoCopies()
    ensures HasSafeLead(c, Empty(c), Task(0))
  {
    TwoCopiesServe(0);
    forall s | s in ReplicasFor(c, 0)
      ensures Lead(c, Empty(c), s) == (Count(0), Finite(0.0))
    {
    }
    assert SafeLead(c, Empty(c), Task(0), Near());
  }

  lemma OnlyNearReaches(r: ReplicaSpec)
    requires r in ReplicasFor(TwoCopies(), 0) && Reaches(TwoCopies(), Task(0), r)
    ensures r == Near()
  {
    TwoCopiesServe(0);
  }

  lemma FirstIsNear(c: Config)
    requires c == TwoCopies() && AllRoutable(c, [Task(0)])
    ensures Load(BindAll(c, [Task(0)]), 0) == 1 && Load(BindAll(c, [Task(0)]), 1) == 0
  {
    var x := FirstChoice(c, Task(0));
    NearLeads(c);
    OnlyNearReaches(x.replica);
    LoadsAfter(c, x);
  }

  lemma LoadsAfter(c: Config, x: Choice)
    requires c == TwoCopies() && Holds(Empty(c), x.replica.id) && x.replica == Near()
    ensures Load(Bound(Empty(c), x), 0) == 1 && Load(Bound(Empty(c), x), 1) == 0
  {
    assert c.replicas[1] in c.replicas;
  }

  lemma FirstChoice(c: Config, a: Assignment) returns (x: Choice)
    requires AllRoutable(c, [a])
    ensures Holds(Empty(c), x.replica.id) && BindAll(c, [a]) == Bound(Empty(c), x)
    ensures x.replica in ReplicasFor(c, a.expert) && (Reaches(c, a, x.replica) <==> HasSafeLead(c, Empty(c), a))
  {
    x := LastStep(c, [a]);
    assert [a][..0] == [];
    ChoiceReachesIff(c, Empty(c), a, x);
  }

  lemma SecondIsRemote(c: Config, items: seq<Assignment>)
    requires AllRoutable(c, items) && |items| == 2 && AllRoutable(c, items[..1]) && !HasSafeLead(c, BindAll(c, items[..1]), items[1])
    ensures |PlanOf(c, items).bindings| == 2 && PlanOf(c, items).bindings[1].dispatch.Infinite?
  {
    PlanBindsEach(c, items);
    BindingReachesIff(c, items, 1);
  }

  lemma SecondIsLed(c: Config, w: Window)
    requires c == TwoCopies() && Load(w, 0) == 1 && Load(w, 1) == 0
    ensures !HasSafeLead(c, w, Task(1))
  {
    TwoCopiesServe(1);
    forall r
      ensures !SafeLead(c, w, Task(1), r)
    {
      assert LeadsBefore(Lead(c, w, Remote()), Lead(c, w, Near()));
    }
  }

  lemma TwoTasksRoutable()
    ensures AllRoutable(TwoCopies(), [Task(0), Task(1)]) && AllRoutable(TwoCopies(), [Task(0)])
  {
    TwoCopiesAreValid();
    TwoCopiesServe(0);
    TwoCopiesServe(1);
  }

  /** Sharing the load, the second of two assignments goes to the remote GPU,
      which it cannot reach, although the other replica is within reach. */
  lemma RemoteGpuIsChosen()
    ensures AllRoutable(TwoCopies(), [Task(0), Task(1)])
    ensures |PlanOf(TwoCopies(), [Task(0), Task(1)]).bindings| == 2
    ensures PlanOf(TwoCopies(), [Task(0), Task(1)]).bindings[1].dispatch.Infinite?
  {
    var c, items := TwoCopies(), [Task(0), Task(1)];
    TwoTasksRoutable();
    assert items[..1] == [Task(0)];
    FirstIsNear(c);
    SecondIsLed(c, BindAll(c, [Task(0)]));
    SecondIsRemote(c, items);
  }
}
