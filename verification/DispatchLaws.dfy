/** What a dispatch plan promises, whatever the policy. */
module DispatchLaws {
  import opened Basics
  import opened Communications
  import opened DispatchModel
  import opened DispatchRuns
  import opened Dispatchers
  import opened Kernels
  import opened ReplicaPlans
  import opened Sorting

  /** The plan does not depend on the order in which assignments arrive. */
  lemma PlanIgnoresOrder(c: Config, xs: seq<Assignment>, ys: seq<Assignment>)
    requires multiset(xs) == multiset(ys) && DistinctKeys(xs, IdOf) && AllRoutable(c, Ordered(xs))
    ensures DistinctKeys(ys, IdOf) && AllRoutable(c, Ordered(ys))
    ensures PlanOf(c, Ordered(xs)) == PlanOf(c, Ordered(ys))
  {
    SameKeys(xs, ys, IdOf);
    IdsUntie(xs);
    BindingOrderIsOrder();
    SortIgnoresOrder(InBindingOrder(), xs, ys);
  }

  /** Assignments are bound by step, then layer, then token, then id. */
  lemma BindingOrder(items: seq<Assignment>)
    ensures multiset(Ordered(items)) == multiset(items) && |Ordered(items)| == |items|
    ensures forall i, j {:trigger Ordered(items)[i], Ordered(items)[j]} | 0 <= i < j < |items| ::
      var a, b := Ordered(items)[i], Ordered(items)[j];
      a.step <= b.step && (a.step == b.step ==> a.layer <= b.layer && (a.layer == b.layer ==>
        a.token <= b.token && (a.token == b.token ==> a.id <= b.id)))
  {
    var ordered := Ordered(items);
    BindingOrderIsOrder();
    SameElements(ordered, items);
    SortAscends(InBindingOrder(), items);
    forall i, j | 0 <= i < j < |items|
      ensures Earlier(ordered[i], ordered[j])
    {
      assert InBindingOrder()(ordered[i], ordered[j]);
    }
  }

  // ----- reading a plan -----

  lemma {:induction false} BindingAt(c: Config, w: Window, choices: seq<Choice>, k: nat)
    requires AllFinishable(c, w, choices) && k < |choices|
    ensures Finishable(c, w, choices[k]) && BindingsOf(c, w, choices)[k] == BindingOf(c, w, choices[k])
  {
    var n := |choices| - 1;
    FinishableNext(c, w, choices, n);
    assert choices[..n + 1] == choices;
    if k < n { BindingAt(c, w, choices[..n], k); }
  }

  /** The batches are those of the replicas that have one. */
  lemma {:induction false} BatchMember(c: Config, w: Window, rs: seq<ReplicaSpec>, b: Batch)
    requires AllBatchable(c, w, rs)
    ensures b in BatchesOf(c, w, rs)
      <==> b.replica in rs && Load(w, b.replica.id) > 0 && Batchable(c, w, b.replica) && b == BatchOf(c, w, b.replica)
  {
    if rs != [] {
      var n := |rs| - 1;
      BatchableNext(c, w, rs, n);
      assert rs[..n + 1] == rs && rs == rs[..n] + [rs[n]];
      BatchMember(c, w, rs[..n], b);
    }
  }

  lemma BatchInPlan(c: Config, items: seq<Assignment>, b: Batch)
    requires AllRoutable(c, items)
    ensures var w := BindAll(c, items);
      (b in PlanOf(c, items).batches) <==> b.replica in c.replicas && Load(w, b.replica.id) > 0 && Batchable(c, w, b.replica) && b == BatchOf(c, w, b.replica)
  {
    var w := BindAll(c, items);
    RunIsComplete(c, items);
    SortedIsBatchable(c, w, c.replicas);
    SameElements(Sort(ById(), c.replicas), c.replicas);
    BatchMember(c, w, Sort(ById(), c.replicas), b);
  }

  // ----- every assignment is bound once -----

  /** Binding k is for item k, on a replica of its own expert, at the cost of
      reaching that replica. */
  ghost predicate BindsItem(c: Config, a: Assignment, b: Binding) {
    && b.assignment == a && b.replica in ReplicasFor(c, a.expert) && CanServe(c, a, b.replica)
    && Communication(c.wiring, a, b.replica.chip).value == (b.dispatch, b.combine)
  }

  lemma PlanBindsEach(c: Config, items: seq<Assignment>)
    requires AllRoutable(c, items)
    ensures var bindings := PlanOf(c, items).bindings;
      |bindings| == |items| && forall k {:trigger bindings[k]} | 0 <= k < |items| :: BindsItem(c, items[k], bindings[k])
  {
    var w, bindings := BindAll(c, items), PlanOf(c, items).bindings;
    RunIsComplete(c, items);
    RunBindsEach(c, items);
    forall k | 0 <= k < |items|
      ensures BindsItem(c, items[k], bindings[k])
    {
      BindingAt(c, w, w.choices, k);
      assert ChoiceFits(c, items[k], w.choices[k]);
    }
  }

  /** Item k is a, and was bound to replica r. */
  ghost predicate BoundAt(c: Config, items: seq<Assignment>, k: nat, a: Assignment, r: nat) {
    && AllRoutable(c, items) && k < |items| && items[k] == a
    && k < |BindAll(c, items).choices| && BindAll(c, items).choices[k].replica.id == r
  }

  lemma QueueMember(c: Config, items: seq<Assignment>, r: nat, a: Assignment)
    requires AllRoutable(c, items)
    ensures a in BoundTo(BindAll(c, items).choices, r) <==> exists k :: BoundAt(c, items, k, a, r)
  {
    var choices := BindAll(c, items).choices;
    RunBindsEach(c, items);
    BoundMember(choices, r, a);
    if k :| 0 <= k < |choices| && choices[k].assignment == a && choices[k].replica.id == r {
      assert ChoiceFits(c, items[k], choices[k]);
      assert BoundAt(c, items, k, a, r);
    }
    if k: nat :| BoundAt(c, items, k, a, r) {
      assert ChoiceFits(c, items[k], choices[k]);
    }
  }

  lemma BatchQueue(c: Config, items: seq<Assignment>, b: Batch)
    requires AllRoutable(c, items) && b in PlanOf(c, items).batches
    ensures b.replica in c.replicas && b.assignments == BoundTo(BindAll(c, items).choices, b.replica.id)
  {
    BatchInPlan(c, items, b);
    RunKeepsQueues(c, items);
    assert b.replica.id in Ids(c) && Queued(BindAll(c, items), b.replica.id);
  }

  /** A batch holds exactly the assignments bound to its replica. */
  lemma BatchHoldsItsBindings(c: Config, items: seq<Assignment>, b: Batch, a: Assignment)
    requires AllRoutable(c, items) && b in PlanOf(c, items).batches
    ensures a in b.assignments <==> exists k :: BoundAt(c, items, k, a, b.replica.id)
  {
    BatchQueue(c, items, b);
    QueueMember(c, items, b.replica.id, a);
  }

  lemma BoundIsBatched(c: Config, items: seq<Assignment>, k: nat) returns (b: Batch)
    requires AllRoutable(c, items) && k < |items|
    ensures b in PlanOf(c, items).batches && items[k] in b.assignments
  {
    var w := BindAll(c, items);
    RunIsComplete(c, items);
    RunBindsEach(c, items);
    var x := w.choices[k];
    assert ChoiceFits(c, items[k], x) && x in w.choices && Finishable(c, w, x);
    b := BatchOf(c, w, x.replica);
    BatchInPlan(c, items, b);
    assert BoundAt(c, items, k, items[k], x.replica.id);
    BatchHoldsItsBindings(c, items, b, items[k]);
  }

  lemma BoundOnce(c: Config, items: seq<Assignment>, j: nat, k: nat, a: Assignment, r: nat, s: nat)
    requires DistinctKeys(items, IdOf) && BoundAt(c, items, j, a, r) && BoundAt(c, items, k, a, s)
    ensures r == s
  {
    DistinctPlaces(items, j, k);
  }

  lemma DistinctPlaces(items: seq<Assignment>, j: nat, k: nat)
    requires DistinctKeys(items, IdOf) && j < |items| && k < |items|
    ensures items[j] == items[k] ==> j == k
  {
    if j < k {
      assert IdOf(items[j]) != IdOf(items[k]);
    } else if k < j {
      assert IdOf(items[k]) != IdOf(items[j]);
    }
  }

  lemma SameBatch(c: Config, items: seq<Assignment>, b: Batch, d: Batch)
    requires AllRoutable(c, items) && b in PlanOf(c, items).batches && d in PlanOf(c, items).batches
    requires b.replica.id == d.replica.id
    ensures b == d
  {
    BatchInPlan(c, items, b);
    BatchInPlan(c, items, d);
    SameReplica(c, b.replica, d.replica);
  }

  /** An assignment is in one batch only. */
  lemma OneBatchEach(c: Config, items: seq<Assignment>, b: Batch, d: Batch, a: Assignment)
    requires AllRoutable(c, items) && DistinctKeys(items, IdOf)
    requires b in PlanOf(c, items).batches && d in PlanOf(c, items).batches && a in b.assignments && a in d.assignments
    ensures b == d
  {
    BatchHoldsItsBindings(c, items, b, a);
    BatchHoldsItsBindings(c, items, d, a);
    var j: nat :| BoundAt(c, items, j, a, b.replica.id);
    var k: nat :| BoundAt(c, items, k, a, d.replica.id);
    BoundOnce(c, items, j, k, a, b.replica.id, d.replica.id);
    SameBatch(c, items, b, d);
  }

  lemma {:induction false} BoundCount(choices: seq<Choice>, r: nat, a: Assignment)
    requires forall i, j | 0 <= i < j < |choices| :: choices[i].assignment != choices[j].assignment
    ensures Occurrences(BoundTo(choices, r), a) <= 1
  {
    if choices != [] {
      var n := |choices| - 1;
      var front := choices[..n];
      BoundCount(front, r, a);
      if choices[n].replica.id == r {
        OccurrencesAppend(BoundTo(front, r), a, choices[n].assignment);
        BoundMember(front, r, a);
        OccursIffMember(BoundTo(front, r), a);
      } else {
        assert BoundTo(choices, r) == BoundTo(front, r);
      }
    }
  }

  /** The batches partition the assignments: each is in exactly one batch, once,
      and that is a batch of its own expert. */
  lemma PlanPartitions(c: Config, items: seq<Assignment>, a: Assignment)
    requires AllRoutable(c, items) && DistinctKeys(items, IdOf)
    ensures a in items <==> exists b :: b in PlanOf(c, items).batches && a in b.assignments
    ensures forall b | b in PlanOf(c, items).batches && a in b.assignments ::
      b.replica in ReplicasFor(c, a.expert) && Occurrences(b.assignments, a) == 1
    ensures forall b, d | b in PlanOf(c, items).batches && d in PlanOf(c, items).batches && a in b.assignments && a in d.assignments :: b == d
  {
    if a in items {
      var k :| 0 <= k < |items| && items[k] == a;
      var b := BoundIsBatched(c, items, k);
    }
    forall b | b in PlanOf(c, items).batches && a in b.assignments
      ensures a in items && b.replica in ReplicasFor(c, a.expert) && Occurrences(b.assignments, a) == 1
    {
      MemberOfBatch(c, items, b, a);
    }
    forall b, d | b in PlanOf(c, items).batches && d in PlanOf(c, items).batches && a in b.assignments && a in d.assignments
      ensures b == d
    {
      OneBatchEach(c, items, b, d, a);
    }
  }

  lemma MemberOfBatch(c: Config, items: seq<Assignment>, b: Batch, a: Assignment)
    requires AllRoutable(c, items) && DistinctKeys(items, IdOf) && b in PlanOf(c, items).batches && a in b.assignments
    ensures a in items && b.replica in ReplicasFor(c, a.expert) && Occurrences(b.assignments, a) == 1
  {
    var choices := BindAll(c, items).choices;
    BatchHoldsItsBindings(c, items, b, a);
    BatchQueue(c, items, b);
    RunBindsEach(c, items);
    var k: nat :| BoundAt(c, items, k, a, b.replica.id);
    assert ChoiceFits(c, items[k], choices[k]);
    SameReplica(c, b.replica, choices[k].replica);
    ChoicesAreDistinct(c, items, choices);
    BoundCount(choices, b.replica.id, a);
    OccursIffMember(b.assignments, a);
  }

  lemma ChoicesAreDistinct(c: Config, items: seq<Assignment>, choices: seq<Choice>)
    requires ChoicesFit(c, items, choices) && DistinctKeys(items, IdOf)
    ensures forall i, j | 0 <= i < j < |choices| :: choices[i].assignment != choices[j].assignment
  {
    forall i, j | 0 <= i < j < |choices|
      ensures choices[i].assignment != choices[j].assignment
    {
      assert ChoiceFits(c, items[i], choices[i]) && ChoiceFits(c, items[j], choices[j]);
      assert IdOf(items[i]) != IdOf(items[j]);
    }
  }

  // ----- greedy choice -----

  /** x is the best offer for a after the items of the prefix. */
  ghost predicate BestNow(c: Config, prefix: seq<Assignment>, a: Assignment, x: Choice) {
    AllRoutable(c, prefix) && IsBest(c, BindAll(c, prefix), a, x)
  }

  /** `BestNow`, to be opened by naming it. */
  ghost predicate BestAfter(c: Config, prefix: seq<Assignment>, a: Assignment, x: Choice) {
    forall p {:trigger BestNow(c, p, a, x)} | p == prefix :: BestNow(c, p, a, x)
  }

  lemma ChoicesGrow(c: Config, items: seq<Assignment>) returns (x: Choice)
    requires AllRoutable(c, items) && items != []
    ensures AllRoutable(c, items[..|items| - 1]) && BestAfter(c, items[..|items| - 1], items[|items| - 1], x)
    ensures |BindAll(c, items[..|items| - 1]).choices| == |items| - 1
    ensures BindAll(c, items).choices == BindAll(c, items[..|items| - 1]).choices + [x]
  {
    x := LastStep(c, items);
    RunBindsEach(c, items[..|items| - 1]);
  }

  lemma RoutableFront(c: Config, items: seq<Assignment>)
    requires AllRoutable(c, items) && items != []
    ensures AllRoutable(c, items[..|items| - 1])
  {
    var x := LastStep(c, items);
  }

  lemma LastIsBest(c: Config, items: seq<Assignment>)
    requires AllRoutable(c, items) && items != []
    ensures var n := |items| - 1; n < |BindAll(c, items).choices| && BestAfter(c, items[..n], items[n], BindAll(c, items).choices[n])
  {
    var x := ChoicesGrow(c, items);
  }

  lemma EarlierChoice(c: Config, items: seq<Assignment>, k: nat)
    requires AllRoutable(c, items) && k + 1 < |items|
    ensures AllRoutable(c, items[..|items| - 1])
    ensures k < |BindAll(c, items[..|items| - 1]).choices| && k < |BindAll(c, items).choices|
    ensures BindAll(c, items).choices[k] == BindAll(c, items[..|items| - 1]).choices[k]
  {
    var x := ChoicesGrow(c, items);
  }

  lemma {:induction false} ChoiceIsBest(c: Config, items: seq<Assignment>, k: nat)
    requires AllRoutable(c, items) && k < |items|
    ensures k < |BindAll(c, items).choices| && BestAfter(c, items[..k], items[k], BindAll(c, items).choices[k])
  {
    if k + 1 == |items| {
      LastIsBest(c, items);
    } else {
      var front := items[..|items| - 1];
      RoutableFront(c, items);
      ChoiceIsBest(c, front, k);
      EarlierChoice(c, items, k);
      assert front[..k] == items[..k] && front[k] == items[k];
    }
  }

  // ----- the choice in terms of the bindings made before -----

  /** How many assignments the bindings give to r. */
  function Share(bindings: seq<Binding>, r: nat): nat {
    if bindings == [] then 0
    else Share(bindings[..|bindings| - 1], r) + if bindings[|bindings| - 1].replica.id == r then 1 else 0
  }

  /** The latest activation on r: of the bindings, or one that takes `own`. */
  function LatestOn(bindings: seq<Binding>, r: nat, own: Cost): (t: Cost)
    ensures !Below(t, own) && !Below(t, Finite(0.0))
    ensures forall j | 0 <= j < |bindings| && bindings[j].replica.id == r :: !Below(t, bindings[j].dispatch)
    ensures t == own || t == Finite(0.0) || exists j :: 0 <= j < |bindings| && bindings[j].replica.id == r && bindings[j].dispatch == t
  {
    if bindings == [] then Later(Finite(0.0), own) else
    var front, last := bindings[..|bindings| - 1], bindings[|bindings| - 1];
    var t := LatestOn(front, r, own);
    if last.replica.id == r then Later(t, last.dispatch) else t
  }

  /** What a replica offers to the next assignment. */
  datatype Standing = Standing(distance: Cost, load: nat, ready: real, done: Cost, brain: bool, id: nat)

  /** After the earlier bindings: r starts when it is ready and the last of its
      activations is there, computes one assignment more than it has, and sends
      the result back. */
  function StandingOf(c: Config, earlier: seq<Binding>, a: Assignment, r: ReplicaSpec): Standing
    requires ValidConfig(c) && CanServe(c, a, r)
  {
    var there := Communication(c.wiring, a, r.chip).value;
    var load, ready := Share(earlier, r.id), if r.id in c.ready then c.ready[r.id] else 0.0;
    Standing(Plus(there.0, there.1), load, ready, Plus(DoneOn(c, r, ready, LatestOn(earlier, r.id, there.0), load), there.1),
             r.chip in c.brains, r.id)
  }

  /** A batch of load + 1 takes its kernel time from when r is ready and its
      last activation is there. */
  function DoneOn(c: Config, r: ReplicaSpec, ready: real, arrival: Cost, load: nat): Cost
    requires ValidConfig(c) && KernelFor(c, r).Some?
  {
    var kernel := if (r.expert, r.chip) in c.onChip then c.onChip[(r.expert, r.chip)] else c.general[r.expert];
    Plus(Later(Finite(ready), arrival), Finite(KernelLatency(kernel, load + 1)))
  }

  predicate InTurn(x: Cost, y: Cost, rest: bool) {
    !Below(y, x) && (x == y ==> rest)
  }

  /** x is no worse than y by the criteria of the policy, one after the other. */
  predicate Preferred(p: Policy, x: Standing, y: Standing) {
    match p
    case Nearest =>
      InTurn(x.distance, y.distance, x.load <= y.load && (x.load == y.load ==> InTurn(x.done, y.done, x.id <= y.id)))
    case BrainFirst =>
      && (y.brain ==> x.brain)
      && (x.brain == y.brain ==> InTurn(x.done, y.done, InTurn(x.distance, y.distance, x.id <= y.id)))
    case SplitLoad =>
      x.load <= y.load && (x.load == y.load ==> InTurn(x.done, y.done, InTurn(x.distance, y.distance, x.id <= y.id)))
    case LeastLoaded =>
      && x.load <= y.load
      && (x.load == y.load ==> x.ready <= y.ready && (x.ready == y.ready ==> InTurn(x.distance, y.distance, x.id <= y.id)))
    case EarliestFinish =>
      InTurn(x.done, y.done, InTurn(x.distance, y.distance, x.load <= y.load && (x.load == y.load ==> x.id <= y.id)))
  }

  lemma PrefixKept(choices: seq<Choice>, x: Choice, k: nat)
    requires k <= |choices|
    ensures (choices + [x])[..k] == choices[..k]
  {
  }

  lemma {:induction false} EarlierChoices(c: Config, items: seq<Assignment>, k: nat)
    requires AllRoutable(c, items) && k <= |items|
    ensures AllRoutable(c, items[..k]) && |BindAll(c, items).choices| == |items|
    ensures BindAll(c, items).choices[..k] == BindAll(c, items[..k]).choices
  {
    if k == |items| {
      RunBindsEach(c, items);
      assert items[..k] == items;
    } else {
      var front := items[..|items| - 1];
      assert front[..k] == items[..k];
      var x := ChoicesGrow(c, items);
      EarlierChoices(c, front, k);
      PrefixKept(BindAll(c, front).choices, x, k);
    }
  }

  /** Bindings that go where the choices go. */
  ghost predicate Follow(bindings: seq<Binding>, choices: seq<Choice>) {
    |bindings| == |choices| && forall j {:trigger bindings[j]} | 0 <= j < |choices| ::
      bindings[j].replica == choices[j].replica && bindings[j].dispatch == choices[j].dispatch
  }

  lemma BindingsFollow(c: Config, w: Window, choices: seq<Choice>)
    requires AllFinishable(c, w, choices)
    ensures Follow(BindingsOf(c, w, choices), choices)
  {
    forall j | 0 <= j < |choices|
      ensures BindingsOf(c, w, choices)[j].replica == choices[j].replica && BindingsOf(c, w, choices)[j].dispatch == choices[j].dispatch
    {
      BindingAt(c, w, choices, j);
    }
  }

  lemma FollowFront(bindings: seq<Binding>, choices: seq<Choice>, k: nat)
    requires Follow(bindings, choices) && k <= |choices|
    ensures Follow(bindings[..k], choices[..k])
  {
  }

  lemma PlanFollows(c: Config, items: seq<Assignment>)
    requires AllRoutable(c, items)
    ensures |BindAll(c, items).choices| == |items| && Follow(PlanOf(c, items).bindings, BindAll(c, items).choices)
  {
    var w := BindAll(c, items);
    RunIsComplete(c, items);
    RunBindsEach(c, items);
    BindingsFollow(c, w, w.choices);
  }

  lemma {:induction false} FollowCounts(bindings: seq<Binding>, choices: seq<Choice>, r: nat, own: Cost)
    requires Follow(bindings, choices)
    ensures Share(bindings, r) == |BoundTo(choices, r)|
    ensures LatestOn(bindings, r, own) == Later(LastArrival(choices, r), own)
  {
    if bindings != [] {
      var n := |bindings| - 1;
      assert Follow(bindings[..n], choices[..n]);
      FollowCounts(bindings[..n], choices[..n], r, own);
    }
  }

  /** The window counts what the bindings say. */
  ghost predicate Counts(c: Config, w: Window, earlier: seq<Binding>, r: ReplicaSpec) {
    && Load(w, r.id) == Share(earlier, r.id)
    && forall own {:trigger LatestOn(earlier, r.id, own)} :: LatestOn(earlier, r.id, own) == Later(Arrival(w, r.id), own)
  }

  lemma WindowCounts(c: Config, prefix: seq<Assignment>, earlier: seq<Binding>, r: ReplicaSpec)
    requires AllRoutable(c, prefix) && Follow(earlier, BindAll(c, prefix).choices) && r in c.replicas
    ensures Counts(c, BindAll(c, prefix), earlier, r)
  {
    var w := BindAll(c, prefix);
    RunKeepsQueues(c, prefix);
    assert r.id in Ids(c) && Queued(w, r.id);
    FollowCounts(earlier, w.choices, r.id, Infinite);
    forall own
      ensures LatestOn(earlier, r.id, own) == Later(Arrival(w, r.id), own)
    {
      FollowCounts(earlier, w.choices, r.id, own);
    }
  }

  /** The offer x stands as s. */
  ghost predicate Stands(c: Config, w: Window, x: Choice, s: Standing) {
    && s.distance == Plus(x.dispatch, x.combine) && s.load == Load(w, x.replica.id) && Finite(s.ready) == ReadyAt(c, x.replica.id)
    && s.done == x.finish && s.id == x.replica.id && (s.brain <==> x.replica.chip in c.brains)
  }

  lemma OfferStands(c: Config, w: Window, earlier: seq<Binding>, a: Assignment, r: ReplicaSpec)
    requires ValidConfig(c) && CanServe(c, a, r) && Counts(c, w, earlier, r)
    ensures Stands(c, w, Offer(c, w, a, r), StandingOf(c, earlier, a, r))
  {
    var there := Communication(c.wiring, a, r.chip).value;
    OfferIs(c, w, a, r, LatestOn(earlier, r.id, there.0), Share(earlier, r.id) + 1);
    BatchIs(c, r, LatestOn(earlier, r.id, there.0), Share(earlier, r.id));
  }

  lemma OfferIs(c: Config, w: Window, a: Assignment, r: ReplicaSpec, arrival: Cost, m: nat)
    requires ValidConfig(c) && CanServe(c, a, r)
    requires arrival == Later(Arrival(w, r.id), Communication(c.wiring, a, r.chip).value.0) && m == Load(w, r.id) + 1
    ensures var there := Communication(c.wiring, a, r.chip).value;
      Offer(c, w, a, r) == Choice(a, r, there.0, there.1, Plus(BatchFinish(c, r, arrival, m), there.1))
  {
  }

  lemma BatchIs(c: Config, r: ReplicaSpec, arrival: Cost, load: nat)
    requires ValidConfig(c) && KernelFor(c, r).Some?
    ensures BatchFinish(c, r, arrival, load + 1) == DoneOn(c, r, if r.id in c.ready then c.ready[r.id] else 0.0, arrival, load)
  {
  }

  /** No score precedes a exactly if a is no worse, one criterion after the
      other. */
  lemma ScoresInTurn(a: Score, b: Score)
    ensures !Precedes(b, a) <==> InTurn(a.first, b.first, InTurn(a.second, b.second, InTurn(a.third, b.third, a.id <= b.id)))
  {
  }

  lemma CountsInTurn(m: nat, n: nat, rest: bool)
    ensures InTurn(Count(m), Count(n), rest) <==> m <= n && (m == n ==> rest)
  {
  }

  lemma NoWorsePrefers(c: Config, w: Window, x: Choice, y: Choice, s: Standing, t: Standing)
    requires Stands(c, w, x, s) && Stands(c, w, y, t)
    ensures NoWorse(c, w, x, y) <==> Preferred(c.policy, s, t)
  {
    ScoresInTurn(ScoreOf(c, w, x), ScoreOf(c, w, y));
    match c.policy
    case Nearest => CountsInTurn(s.load, t.load, InTurn(s.done, t.done, s.id <= t.id));
    case SplitLoad => CountsInTurn(s.load, t.load, InTurn(s.done, t.done, InTurn(s.distance, t.distance, s.id <= t.id)));
    case LeastLoaded =>
      CountsInTurn(s.load, t.load, InTurn(ReadyAt(c, s.id), ReadyAt(c, t.id), InTurn(s.distance, t.distance, s.id <= t.id)));
    case EarliestFinish => CountsInTurn(s.load, t.load, s.id <= t.id);
    case BrainFirst =>
  }

  /** Binding k of a plan goes to the replica that, after the bindings before
      it, no other replica of the expert is ahead of by the policy's criteria:
      distance, load, readiness, when it would be done, or being on a brain chip. */
  lemma PolicyIsKept(c: Config, items: seq<Assignment>, k: nat, r: ReplicaSpec)
    requires AllRoutable(c, items) && k < |items| && r in ReplicasFor(c, items[k].expert)
    ensures |PlanOf(c, items).bindings| == |items| && CanServe(c, items[k], r) && CanServe(c, items[k], PlanOf(c, items).bindings[k].replica)
    ensures var bs := PlanOf(c, items).bindings;
      Preferred(c.policy, StandingOf(c, bs[..k], items[k], bs[k].replica), StandingOf(c, bs[..k], items[k], r))
  {
    var bs, choices := PlanOf(c, items).bindings, BindAll(c, items).choices;
    ChoiceIsBest(c, items, k);
    PlanFollows(c, items);
    EarlierChoices(c, items, k);
    FollowFront(bs, choices, k);
    PreferredAfter(c, items[..k], items[k], bs[..k], choices[k], r);
  }

  lemma PreferredAfter(c: Config, prefix: seq<Assignment>, a: Assignment, earlier: seq<Binding>, x: Choice, r: ReplicaSpec)
    requires BestAfter(c, prefix, a, x) && r in ReplicasFor(c, a.expert)
    requires AllRoutable(c, prefix) && Follow(earlier, BindAll(c, prefix).choices)
    ensures CanServe(c, a, r) && CanServe(c, a, x.replica)
    ensures Preferred(c.policy, StandingOf(c, earlier, a, x.replica), StandingOf(c, earlier, a, r))
  {
    assert BestNow(c, prefix, a, x);
    WindowCounts(c, prefix, earlier, x.replica);
    WindowCounts(c, prefix, earlier, r);
    BestIsPreferred(c, BindAll(c, prefix), a, earlier, x, r);
  }

  lemma BestIsPreferred(c: Config, w: Window, a: Assignment, earlier: seq<Binding>, x: Choice, r: ReplicaSpec)
    requires IsBest(c, w, a, x) && r in ReplicasFor(c, a.expert) && Counts(c, w, earlier, x.replica) && Counts(c, w, earlier, r)
    ensures CanServe(c, a, r) && CanServe(c, a, x.replica)
    ensures Preferred(c.policy, StandingOf(c, earlier, a, x.replica), StandingOf(c, earlier, a, r))
  {
    assert CanServe(c, a, r) && CanServe(c, a, x.replica) && NoWorse(c, w, x, Offer(c, w, a, r));
    OfferStands(c, w, earlier, a, x.replica);
    OfferStands(c, w, earlier, a, r);
    NoWorsePrefers(c, w, x, Offer(c, w, a, r), StandingOf(c, earlier, a, x.replica), StandingOf(c, earlier, a, r));
  }

  // ----- replicas out of reach -----

  /** What a policy compares before it looks at any cost. */
  function Lead(c: Config, w: Window, r: ReplicaSpec): (Cost, Cost) {
    match c.policy
    case Nearest => (Finite(0.0), Finite(0.0))
    case EarliestFinish => (Finite(0.0), Finite(0.0))
    case BrainFirst => (Finite(if r.chip in c.brains then 0.0 else 1.0), Finite(0.0))
    case SplitLoad => (Count(Load(w, r.id)), Finite(0.0))
    case LeastLoaded => (Count(Load(w, r.id)), ReadyAt(c, r.id))
  }

  predicate LeadsBefore(a: (Cost, Cost), b: (Cost, Cost)) {
    Below(a.0, b.0) || (a.0 == b.0 && Below(a.1, b.1))
  }

  predicate Reaches(c: Config, a: Assignment, r: ReplicaSpec) {
    r.chip in c.wiring.chipAt && !OutOfReach(c.wiring, a, r.chip)
  }

  /** r is within reach, and no replica out of reach is ahead of it. */
  ghost predicate SafeLead(c: Config, w: Window, a: Assignment, r: ReplicaSpec) {
    && r in ReplicasFor(c, a.expert) && Reaches(c, a, r)
    && forall s {:trigger Lead(c, w, s)} | s in ReplicasFor(c, a.expert) && !Reaches(c, a, s) :: !LeadsBefore(Lead(c, w, s), Lead(c, w, r))
  }

  ghost predicate HasSafeLead(c: Config, w: Window, a: Assignment) {
    exists r :: SafeLead(c, w, a, r)
  }

  lemma OfferReach(c: Config, w: Window, a: Assignment, r: ReplicaSpec)
    requires ValidConfig(c) && CanServe(c, a, r)
    ensures Reaches(c, a, r) <==> Offer(c, w, a, r).dispatch.Finite?
    ensures !Reaches(c, a, r) ==> Offer(c, w, a, r).combine.Infinite? && Offer(c, w, a, r).finish.Infinite?
    ensures Reaches(c, a, r) ==> Offer(c, w, a, r).combine.Finite?
  {
  }

  /** With the same lead, a replica within reach comes before one out of reach. */
  lemma ReachOrder(c: Config, w: Window, x: Choice, y: Choice)
    requires x.dispatch.Finite? && x.combine.Finite? && y.dispatch.Infinite? && y.combine.Infinite? && y.finish.Infinite?
    ensures Precedes(ScoreOf(c, w, x), ScoreOf(c, w, y)) <==> !LeadsBefore(Lead(c, w, y.replica), Lead(c, w, x.replica))
  {
  }

  lemma ReachPrecedes(c: Config, w: Window, a: Assignment, r: ReplicaSpec, s: ReplicaSpec)
    requires ValidConfig(c) && CanServe(c, a, r) && CanServe(c, a, s) && Reaches(c, a, r) && !Reaches(c, a, s)
    ensures Precedes(ScoreOf(c, w, Offer(c, w, a, r)), ScoreOf(c, w, Offer(c, w, a, s))) <==> !LeadsBefore(Lead(c, w, s), Lead(c, w, r))
  {
    OfferReach(c, w, a, r);
    OfferReach(c, w, a, s);
    ReachOrder(c, w, Offer(c, w, a, r), Offer(c, w, a, s));
  }

  /** The chosen replica is within reach exactly when some replica within reach
      is not led by one out of reach: by load or by being on a brain chip, which
      are compared before any cost. */
  lemma ChoiceReachesIff(c: Config, w: Window, a: Assignment, x: Choice)
    requires IsBest(c, w, a, x)
    ensures x.dispatch.Finite? <==> Reaches(c, a, x.replica)
    ensures Reaches(c, a, x.replica) <==> HasSafeLead(c, w, a)
  {
    assert CanServe(c, a, x.replica);
    OfferReach(c, w, a, x.replica);
    if Reaches(c, a, x.replica) {
      forall s | s in ReplicasFor(c, a.expert) && !Reaches(c, a, s)
        ensures !LeadsBefore(Lead(c, w, s), Lead(c, w, x.replica))
      {
        BestBeats(c, w, a, x, s);
      }
      assert SafeLead(c, w, a, x.replica);
    }
    if r :| SafeLead(c, w, a, r) {
      if !Reaches(c, a, x.replica) { LedIsWorse(c, w, a, x, r); }
    }
  }

  lemma BestBeats(c: Config, w: Window, a: Assignment, x: Choice, s: ReplicaSpec)
    requires IsBest(c, w, a, x) && Reaches(c, a, x.replica) && s in ReplicasFor(c, a.expert) && !Reaches(c, a, s)
    ensures !LeadsBefore(Lead(c, w, s), Lead(c, w, x.replica))
  {
    assert CanServe(c, a, x.replica) && CanServe(c, a, s) && NoWorse(c, w, x, Offer(c, w, a, s));
    ReachPrecedes(c, w, a, x.replica, s);
    OrderIsTotal(ScoreOf(c, w, x), ScoreOf(c, w, Offer(c, w, a, s)), ScoreOf(c, w, x));
    OfferReach(c, w, a, x.replica);
    OfferReach(c, w, a, s);
  }

  lemma LedIsWorse(c: Config, w: Window, a: Assignment, x: Choice, r: ReplicaSpec)
    requires IsBest(c, w, a, x) && SafeLead(c, w, a, r)
    ensures Reaches(c, a, x.replica)
  {
    assert CanServe(c, a, x.replica) && CanServe(c, a, r) && NoWorse(c, w, x, Offer(c, w, a, r));
    if !Reaches(c, a, x.replica) {
      ReachPrecedes(c, w, a, r, x.replica);
    }
  }

  /** Over a whole plan: an assignment's cost is finite exactly when its replica
      is within reach, and that is so exactly when, at the time it was bound, a
      replica within reach was not led by one out of reach. */
  lemma BindingReachesIff(c: Config, items: seq<Assignment>, k: nat)
    requires AllRoutable(c, items) && k < |items|
    ensures AllRoutable(c, items[..k]) && k < |PlanOf(c, items).bindings|
    ensures PlanOf(c, items).bindings[k].dispatch.Finite? <==> HasSafeLead(c, BindAll(c, items[..k]), items[k])
  {
    ChoiceIsBest(c, items, k);
    ReachAfter(c, items[..k], items[k], BindAll(c, items).choices[k]);
    RunIsComplete(c, items);
    RunBindsEach(c, items);
    BindingAt(c, BindAll(c, items), BindAll(c, items).choices, k);
  }

  lemma ReachAfter(c: Config, prefix: seq<Assignment>, a: Assignment, x: Choice)
    requires BestAfter(c, prefix, a, x)
    ensures AllRoutable(c, prefix)
    ensures x.dispatch.Finite? <==> HasSafeLead(c, BindAll(c, prefix), a)
  {
    assert BestNow(c, prefix, a, x);
    ChoiceReachesIff(c, BindAll(c, prefix), a, x);
  }

  // ----- times -----

  /** The finish foreseen when an assignment was bound is at most the finish
      the plan predicts for it. */
  lemma ScoreIsLowerBound(c: Config, items: seq<Assignment>, k: nat)
    requires AllRoutable(c, items) && k < |items|
    ensures k < |BindAll(c, items).choices| && k < |PlanOf(c, items).bindings|
    ensures !Below(PlanOf(c, items).bindings[k].finish, BindAll(c, items).choices[k].finish)
  {
    var w := BindAll(c, items);
    RunIsComplete(c, items);
    RunBindsEach(c, items);
    RunForesees(c, items);
    BindingAt(c, w, w.choices, k);
    assert Foreseen(c, w, w.choices[k]);
  }

  /** A batch starts when its replica is ready and its last activation has
      arrived, and lasts as long as its kernel takes for that many. */
  lemma BatchTimes(c: Config, items: seq<Assignment>, k: nat, b: Batch)
    requires AllRoutable(c, items) && k < |items| && b in PlanOf(c, items).batches
    requires k < |PlanOf(c, items).bindings| && PlanOf(c, items).bindings[k].replica == b.replica
    ensures KernelFor(c, b.replica).Some? && |b.assignments| > 0
    ensures !Below(b.arrival, PlanOf(c, items).bindings[k].dispatch)
    ensures !Below(b.start, b.arrival) && !Below(b.start, ReadyAt(c, b.replica.id)) && (b.start == b.arrival || b.start == ReadyAt(c, b.replica.id))
    ensures b.finish == Plus(b.start, Finite(KernelLatency(KernelFor(c, b.replica).value, |b.assignments|)))
    ensures PlanOf(c, items).bindings[k].finish == Plus(b.finish, PlanOf(c, items).bindings[k].combine)
    ensures PlanOf(c, items).bindings[k].batch == |b.assignments|
  {
    var w := BindAll(c, items);
    RunIsComplete(c, items);
    RunBindsEach(c, items);
    RunKeepsQueues(c, items);
    BatchInPlan(c, items, b);
    BindingAt(c, w, w.choices, k);
    assert b.replica.id in Ids(c) && Queued(w, b.replica.id);
    ArrivalIsLast(w.choices, b.replica.id);
  }

  // ----- balance -----

  lemma {:induction false} ShareIsBound(c: Config, w: Window, choices: seq<Choice>, r: nat)
    requires AllFinishable(c, w, choices)
    ensures Share(BindingsOf(c, w, choices), r) == |BoundTo(choices, r)|
  {
    if choices != [] {
      var n := |choices| - 1;
      FinishableNext(c, w, choices, n);
      assert choices[..n + 1] == choices;
      ShareIsBound(c, w, choices[..n], r);
      var bs := BindingsOf(c, w, choices);
      assert bs[..|bs| - 1] == BindingsOf(c, w, choices[..n]);
    }
  }

  lemma ShareIsLoad(c: Config, items: seq<Assignment>, r: ReplicaSpec)
    requires AllRoutable(c, items) && r in c.replicas
    ensures Share(PlanOf(c, items).bindings, r.id) == Load(BindAll(c, items), r.id)
  {
    var w := BindAll(c, items);
    RunIsComplete(c, items);
    RunKeepsQueues(c, items);
    assert r.id in Ids(c) && Queued(w, r.id);
    ShareIsBound(c, w, w.choices, r.id);
  }

  /** Under `split` and `least_loaded` the shares of two replicas of one expert
      differ by at most one. */
  lemma PlanBalances(c: Config, items: seq<Assignment>, r: ReplicaSpec, s: ReplicaSpec)
    requires AllRoutable(c, items) && SharesLoad(c.policy) && r in c.replicas && s in c.replicas && r.expert == s.expert
    ensures var bs := PlanOf(c, items).bindings; -1 <= Share(bs, r.id) - Share(bs, s.id) <= 1
  {
    RunBalances(c, items);
    ShareIsLoad(c, items, r);
    ShareIsLoad(c, items, s);
    assert EvenPair(BindAll(c, items), r, s) && EvenPair(BindAll(c, items), s, r);
  }
}
