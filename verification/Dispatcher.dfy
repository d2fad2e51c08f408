/** Replica selection for the assignments of one scheduling window. */
module Dispatchers {
  import opened Basics
  import opened Communications
  import opened DispatchModel
  import opened DispatchRuns
  import opened Kernels
  import opened ReplicaPlans
  import opened Sorting

  datatype Binding = Binding(assignment: Assignment, replica: ReplicaSpec, dispatch: Cost, combine: Cost, batch: nat, finish: Cost)

  datatype Batch = Batch(replica: ReplicaSpec, assignments: seq<Assignment>, arrival: Cost, start: Cost, finish: Cost)

  datatype DispatchPlan = DispatchPlan(bindings: seq<Binding>, batches: seq<Batch>)

  // ----- the order of binding -----

  function IdOf(a: Assignment): int {
    a.id
  }

  /** By step, layer, token, and finally the id. */
  predicate Earlier(a: Assignment, b: Assignment) {
    a.step < b.step || (a.step == b.step &&
    (a.layer < b.layer || (a.layer == b.layer &&
    (a.token < b.token || (a.token == b.token && a.id <= b.id)))))
  }

  function InBindingOrder(): (Assignment, Assignment) -> bool {
    (a: Assignment, b: Assignment) => Earlier(a, b)
  }

  function Ordered(items: seq<Assignment>): seq<Assignment> {
    Sort(InBindingOrder(), items)
  }

  lemma BindingOrderIsOrder()
    ensures IsOrder(InBindingOrder())
  {
  }

  lemma IdsUntie(items: seq<Assignment>)
    requires DistinctKeys(items, IdOf)
    ensures Untied(InBindingOrder(), items)
  {
    forall x, y | x in items && y in items && InBindingOrder()(x, y) && InBindingOrder()(y, x)
      ensures x == y
    {
      var i :| 0 <= i < |items| && items[i] == x;
      var j :| 0 <= j < |items| && items[j] == y;
      assert i != j ==> IdOf(items[i]) != IdOf(items[j]);
    }
  }

  // ----- the batches -----

  function ById(): (ReplicaSpec, ReplicaSpec) -> bool {
    (r: ReplicaSpec, s: ReplicaSpec) => r.id <= s.id
  }

  predicate Batchable(c: Config, w: Window, r: ReplicaSpec) {
    Load(w, r.id) > 0 ==> r.id in w.queued && KernelFor(c, r).Some?
  }

  function FinishOn(c: Config, w: Window, r: ReplicaSpec): Cost
    requires ValidConfig(c) && Batchable(c, w, r) && Load(w, r.id) > 0
  {
    BatchFinish(c, r, Arrival(w, r.id), Load(w, r.id))
  }

  function BatchOf(c: Config, w: Window, r: ReplicaSpec): Batch
    requires ValidConfig(c) && Batchable(c, w, r) && Load(w, r.id) > 0
  {
    Batch(r, w.queued[r.id], Arrival(w, r.id), Later(ReadyAt(c, r.id), Arrival(w, r.id)), FinishOn(c, w, r))
  }

  ghost predicate AllBatchable(c: Config, w: Window, rs: seq<ReplicaSpec>) {
    ValidConfig(c) && forall r {:trigger Batchable(c, w, r)} | r in rs :: Batchable(c, w, r)
  }

  /** One batch for every replica that got an assignment. */
  function BatchesOf(c: Config, w: Window, rs: seq<ReplicaSpec>): seq<Batch>
    requires AllBatchable(c, w, rs)
  {
    if rs == [] then [] else
    var front, last := rs[..|rs| - 1], rs[|rs| - 1];
    assert last in rs && Batchable(c, w, last);
    BatchesOf(c, w, front) + if Load(w, last.id) > 0 then [BatchOf(c, w, last)] else []
  }

  predicate Finishable(c: Config, w: Window, x: Choice) {
    Batchable(c, w, x.replica) && Load(w, x.replica.id) > 0
  }

  function BindingOf(c: Config, w: Window, x: Choice): Binding
    requires ValidConfig(c) && Finishable(c, w, x)
  {
    Binding(x.assignment, x.replica, x.dispatch, x.combine, Load(w, x.replica.id), Plus(FinishOn(c, w, x.replica), x.combine))
  }

  ghost predicate AllFinishable(c: Config, w: Window, choices: seq<Choice>) {
    ValidConfig(c) && forall x {:trigger Finishable(c, w, x)} | x in choices :: Finishable(c, w, x)
  }

  function BindingsOf(c: Config, w: Window, choices: seq<Choice>): (bs: seq<Binding>)
    requires AllFinishable(c, w, choices)
    ensures |bs| == |choices|
  {
    if choices == [] then [] else
    var front, last := choices[..|choices| - 1], choices[|choices| - 1];
    assert last in choices && Finishable(c, w, last);
    BindingsOf(c, w, front) + [BindingOf(c, w, last)]
  }

  lemma RunIsComplete(c: Config, items: seq<Assignment>)
    requires AllRoutable(c, items)
    ensures var w := BindAll(c, items);
      AllBatchable(c, w, c.replicas) && AllFinishable(c, w, w.choices)
  {
    var w := BindAll(c, items);
    RunKeepsQueues(c, items);
    RunBindsEach(c, items);
    RunForesees(c, items);
    forall x | x in w.choices
      ensures Finishable(c, w, x)
    {
      var k :| 0 <= k < |w.choices| && w.choices[k] == x;
      assert Foreseen(c, w, w.choices[k]);
      assert ChoiceFits(c, items[k], w.choices[k]);
      assert x.replica.id in Ids(c);
    }
    forall r | r in c.replicas
      ensures Batchable(c, w, r)
    {
      LoadedCanServe(c, items, r);
    }
  }

  lemma LoadedCanServe(c: Config, items: seq<Assignment>, r: ReplicaSpec)
    requires AllRoutable(c, items) && r in c.replicas
    ensures Batchable(c, BindAll(c, items), r)
  {
    var w := BindAll(c, items);
    RunKeepsQueues(c, items);
    RunBindsEach(c, items);
    assert r.id in Ids(c) && Queued(w, r.id);
    if Load(w, r.id) > 0 {
      var a := w.queued[r.id][0];
      assert a in BoundTo(w.choices, r.id);
      BoundMember(w.choices, r.id, a);
      var k :| 0 <= k < |w.choices| && w.choices[k].assignment == a && w.choices[k].replica.id == r.id;
      assert ChoiceFits(c, items[k], w.choices[k]);
      SameReplica(c, r, w.choices[k].replica);
    }
  }

  lemma SortedIsBatchable(c: Config, w: Window, rs: seq<ReplicaSpec>)
    requires AllBatchable(c, w, rs)
    ensures AllBatchable(c, w, Sort(ById(), rs))
  {
    SameElements(Sort(ById(), rs), rs);
  }

  /** The plan for items bound in the given order. */
  ghost function PlanOf(c: Config, items: seq<Assignment>): DispatchPlan
    requires AllRoutable(c, items)
  {
    var w := BindAll(c, items);
    RunIsComplete(c, items);
    SortedIsBatchable(c, w, c.replicas);
    DispatchPlan(BindingsOf(c, w, w.choices), BatchesOf(c, w, Sort(ById(), c.replicas)))
  }

  // ----- planning -----

  /** The best replica for a, or why one of its replicas cannot be scored. */
  method Select(c: Config, w: Window, a: Assignment) returns (r: Result<Choice, DispatchError>)
    requires ValidConfig(c)
    ensures r.Ok? <==> Routable(c, a)
    ensures r.Ok? ==> IsBest(c, w, a, r.value)
  {
    if a.expert !in c.inv.weight { return Err(DispatchError.UnknownExpert); }
    var best: Option<Choice> := None;
    var i := 0;
    while i < |c.replicas|
      invariant 0 <= i <= |c.replicas|
      invariant best.None? ==> forall j | 0 <= j < i :: c.replicas[j].expert != a.expert
      invariant best.Some? ==> Leads(c, w, a, best.value, i)
    {
      var x := c.replicas[i];
      if x.expert == a.expert {
        assert x in ReplicasFor(c, a.expert);
        if KernelFor(c, x).None? { assert !CanServe(c, a, x); return Err(NoKernel); }
        ChipIsWired(c, x);
        var reach := Communication(c.wiring, a, x.chip);
        if reach.Err? { assert !CanServe(c, a, x); return Err(reach.error); }
        var offer := Offer(c, w, a, x);
        if best.None? {
          FirstLeads(c, w, a, i);
          best := Some(offer);
        } else {
          NextLeads(c, w, a, best.value, i);
          if Precedes(ScoreOf(c, w, offer), ScoreOf(c, w, best.value)) { best := Some(offer); }
        }
      } else if best.Some? {
        OtherLeads(c, w, a, best.value, i);
      }
      i := i + 1;
    }
    SomebodyServes(c, a, best.Some?);
    LeaderIsBest(c, w, a, best.value);
    r := Ok(best.value);
  }

  /** x is the best offer of the first i replicas. */
  ghost predicate Leads(c: Config, w: Window, a: Assignment, x: Choice, i: nat) {
    && ValidConfig(c) && i <= |c.replicas| && x.replica in ReplicasFor(c, a.expert)
    && CanServe(c, a, x.replica) && x == Offer(c, w, a, x.replica)
    && forall j {:trigger c.replicas[j]} | 0 <= j < i && c.replicas[j].expert == a.expert ::
      CanServe(c, a, c.replicas[j]) && NoWorse(c, w, x, Offer(c, w, a, c.replicas[j]))
  }

  lemma ChipIsWired(c: Config, r: ReplicaSpec)
    requires ValidConfig(c) && r in c.replicas
    ensures r.chip in c.wiring.chipAt
  {
    var i :| 0 <= i < |c.replicas| && c.replicas[i] == r;
    assert KnownAt(c.inv, c.replicas, i);
  }

  lemma SomebodyServes(c: Config, a: Assignment, found: bool)
    requires ValidConfig(c) && a.expert in c.inv.weight
    requires !found ==> forall j | 0 <= j < |c.replicas| :: c.replicas[j].expert != a.expert
    ensures found
  {
    HasReplica(c, a.expert);
    var r :| r in ReplicasFor(c, a.expert);
    var j :| 0 <= j < |c.replicas| && c.replicas[j] == r;
  }

  lemma FirstLeads(c: Config, w: Window, a: Assignment, i: nat)
    requires ValidConfig(c) && i < |c.replicas| && c.replicas[i].expert == a.expert && CanServe(c, a, c.replicas[i])
    requires forall j | 0 <= j < i :: c.replicas[j].expert != a.expert
    ensures Leads(c, w, a, Offer(c, w, a, c.replicas[i]), i + 1)
  {
    var s := ScoreOf(c, w, Offer(c, w, a, c.replicas[i]));
    OrderIsTotal(s, s, s);
  }

  lemma OtherLeads(c: Config, w: Window, a: Assignment, x: Choice, i: nat)
    requires i < |c.replicas| && c.replicas[i].expert != a.expert && Leads(c, w, a, x, i)
    ensures Leads(c, w, a, x, i + 1)
  {
  }

  lemma NextLeads(c: Config, w: Window, a: Assignment, x: Choice, i: nat)
    requires i < |c.replicas| && c.replicas[i].expert == a.expert && Leads(c, w, a, x, i) && CanServe(c, a, c.replicas[i])
    ensures var y := Offer(c, w, a, c.replicas[i]);
      Leads(c, w, a, if Precedes(ScoreOf(c, w, y), ScoreOf(c, w, x)) then y else x, i + 1)
  {
    var y := Offer(c, w, a, c.replicas[i]);
    var s, t := ScoreOf(c, w, x), ScoreOf(c, w, y);
    OrderIsTotal(t, t, t);
    if Precedes(t, s) {
      forall j | 0 <= j < i && c.replicas[j].expert == a.expert
        ensures CanServe(c, a, c.replicas[j]) && NoWorse(c, w, y, Offer(c, w, a, c.replicas[j]))
      {
        var u := ScoreOf(c, w, Offer(c, w, a, c.replicas[j]));
        assert NoWorse(c, w, x, Offer(c, w, a, c.replicas[j]));
        OrderIsTotal(t, s, u);
        OrderIsTotal(s, t, u);
      }
    }
  }

  lemma LeaderIsBest(c: Config, w: Window, a: Assignment, x: Choice)
    requires Leads(c, w, a, x, |c.replicas|) && a.expert in c.inv.weight
    ensures IsBest(c, w, a, x)
  {
    forall r | r in ReplicasFor(c, a.expert)
      ensures CanServe(c, a, r) && NoWorse(c, w, x, Offer(c, w, a, r))
    {
      var j :| 0 <= j < |c.replicas| && c.replicas[j] == r;
    }
  }

  /** Binds the ordered items one after the other. */
  method BindInOrder(c: Config, items: seq<Assignment>) returns (r: Result<Window, DispatchError>)
    requires ValidConfig(c)
    ensures r.Ok? <==> AllRoutable(c, items)
    ensures r.Ok? ==> r.value == BindAll(c, items)
  {
    var w := Empty(c);
    var n := 0;
    while n < |items|
      invariant 0 <= n <= |items|
      invariant AllRoutable(c, items[..n]) && w == BindAll(c, items[..n])
    {
      var a := items[n];
      assert a in items && items[..n + 1][..n] == items[..n];
      var choice := Select(c, w, a);
      if choice.Err? { return Err(choice.error); }
      RoutableNext(c, items, n);
      ghost var x := LastStep(c, items[..n + 1]);
      BestIsUnique(c, w, a, choice.value, x);
      w := Bound(w, choice.value);
      n := n + 1;
    }
    assert items[..n] == items;
    r := Ok(w);
  }

  lemma RoutableNext(c: Config, items: seq<Assignment>, n: nat)
    requires n < |items| && AllRoutable(c, items[..n]) && Routable(c, items[n])
    ensures AllRoutable(c, items[..n + 1])
  {
    assert items[..n + 1] == items[..n] + [items[n]];
  }

  method MakeBatches(c: Config, w: Window, rs: seq<ReplicaSpec>) returns (batches: seq<Batch>)
    requires AllBatchable(c, w, rs)
    ensures batches == BatchesOf(c, w, rs)
  {
    batches := [];
    assert AllBatchable(c, w, rs[..0]);
    for n := 0 to |rs|
      invariant AllBatchable(c, w, rs[..n]) && batches == BatchesOf(c, w, rs[..n])
    {
      assert rs[n] in rs && Batchable(c, w, rs[n]);
      BatchableNext(c, w, rs, n);
      if Load(w, rs[n].id) > 0 { batches := batches + [BatchOf(c, w, rs[n])]; }
    }
    assert rs[..|rs|] == rs;
  }

  lemma BatchableNext(c: Config, w: Window, rs: seq<ReplicaSpec>, n: nat)
    requires n < |rs| && AllBatchable(c, w, rs)
    ensures AllBatchable(c, w, rs[..n]) && AllBatchable(c, w, rs[..n + 1])
    ensures BatchesOf(c, w, rs[..n + 1]) == BatchesOf(c, w, rs[..n]) + if Load(w, rs[n].id) > 0 then [BatchOf(c, w, rs[n])] else []
  {
    assert rs[..n + 1][..n] == rs[..n];
    forall r | r in rs[..n + 1]
      ensures Batchable(c, w, r)
    {
      assert r in rs;
    }
  }

  method MakeBindings(c: Config, w: Window, choices: seq<Choice>) returns (bindings: seq<Binding>)
    requires AllFinishable(c, w, choices)
    ensures bindings == BindingsOf(c, w, choices)
  {
    bindings := [];
    assert AllFinishable(c, w, choices[..0]);
    for n := 0 to |choices|
      invariant AllFinishable(c, w, choices[..n]) && bindings == BindingsOf(c, w, choices[..n])
    {
      assert choices[n] in choices && Finishable(c, w, choices[n]);
      FinishableNext(c, w, choices, n);
      bindings := bindings + [BindingOf(c, w, choices[n])];
    }
    assert choices[..|choices|] == choices;
  }

  lemma FinishableNext(c: Config, w: Window, choices: seq<Choice>, n: nat)
    requires n < |choices| && AllFinishable(c, w, choices)
    ensures AllFinishable(c, w, choices[..n]) && AllFinishable(c, w, choices[..n + 1])
    ensures Finishable(c, w, choices[n])
    ensures BindingsOf(c, w, choices[..n + 1]) == BindingsOf(c, w, choices[..n]) + [BindingOf(c, w, choices[n])]
  {
    assert choices[..n + 1][..n] == choices[..n] && choices[n] in choices;
    forall x | x in choices[..n + 1]
      ensures Finishable(c, w, x)
    {
      assert x in choices;
    }
  }

  /** `Dispatcher.plan`: succeeds exactly when no id is repeated and every
      replica of every assigned expert can be scored. */
  method Plan(c: Config, items: seq<Assignment>) returns (r: Result<DispatchPlan, DispatchError>)
    requires ValidConfig(c)
    ensures !DistinctKeys(items, IdOf) ==> r == Err(DuplicateAssignment)
    ensures DistinctKeys(items, IdOf) <==> forall i, j | 0 <= i < j < |items| :: items[i].id != items[j].id
    ensures r.Ok? <==> DistinctKeys(items, IdOf) && AllRoutable(c, items)
    ensures r.Ok? ==> AllRoutable(c, Ordered(items)) && r.value == PlanOf(c, Ordered(items))
  {
    CountKeys(items, IdOf);
    if |KeysOf(items, IdOf)| != |items| { return Err(DuplicateAssignment); }
    var ordered := Ordered(items);
    SameElements(ordered, items);
    var bound := BindInOrder(c, ordered);
    if bound.Err? { return Err(bound.error); }
    var w := bound.value;
    RunIsComplete(c, ordered);
    SortedIsBatchable(c, w, c.replicas);
    var batches := MakeBatches(c, w, Sort(ById(), c.replicas));
    var bindings := MakeBindings(c, w, w.choices);
    r := Ok(DispatchPlan(bindings, batches));
  }
}
