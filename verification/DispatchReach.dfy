/** When a dispatch plan keeps to the replicas within reach, in terms of the
    window and the placement alone. */
module DispatchReach {
  import opened Basics
  import opened Communications
  import opened DispatchLaws
  import opened DispatchModel
  import opened DispatchRuns
  import opened Dispatchers
  import opened ReplicaPlans

  /** Binding k of the plan is within reach. */
  ghost predicate BoundWithin(c: Config, items: seq<Assignment>, k: nat)
    requires AllRoutable(c, items)
  {
    k < |PlanOf(c, items).bindings| && PlanOf(c, items).bindings[k].dispatch.Finite?
  }

  // ----- policies that do not look at the load -----

  lemma LeadIsFixed(c: Config, w: Window, v: Window, a: Assignment)
    requires !SharesLoad(c.policy)
    ensures HasSafeLead(c, w, a) <==> HasSafeLead(c, v, a)
  {
    forall r
      ensures SafeLead(c, w, a, r) <==> SafeLead(c, v, a, r)
    {
      assert forall s :: Lead(c, w, s) == Lead(c, v, s);
    }
  }

  /** Some replica within reach is not led by one out of reach: under nearest
      and earliest-finish any replica within reach is enough, under brain-first
      it must be on a brain chip, or no replica out of reach may be. */
  ghost predicate InReach(c: Config, a: Assignment) {
    exists r {:trigger Reaches(c, a, r)} :: r in ReplicasFor(c, a.expert) && Reaches(c, a, r)
      && (c.policy == BrainFirst && r.chip !in c.brains ==>
           forall s {:trigger Reaches(c, a, s)} | s in ReplicasFor(c, a.expert) && !Reaches(c, a, s) :: s.chip !in c.brains)
  }

  lemma SafeUpFront(c: Config, a: Assignment)
    requires !SharesLoad(c.policy)
    ensures HasSafeLead(c, Empty(c), a) <==> InReach(c, a)
  {
    if HasSafeLead(c, Empty(c), a) {
      var r :| SafeLead(c, Empty(c), a, r);
      forall s | s in ReplicasFor(c, a.expert) && !Reaches(c, a, s)
        ensures c.policy == BrainFirst && r.chip !in c.brains ==> s.chip !in c.brains
      {
        assert !LeadsBefore(Lead(c, Empty(c), s), Lead(c, Empty(c), r));
      }
      assert Reaches(c, a, r);
    }
    if InReach(c, a) {
      var r :| r in ReplicasFor(c, a.expert) && Reaches(c, a, r)
        && (c.policy == BrainFirst && r.chip !in c.brains ==>
             forall s {:trigger Reaches(c, a, s)} | s in ReplicasFor(c, a.expert) && !Reaches(c, a, s) :: s.chip !in c.brains);
      assert SafeLead(c, Empty(c), a, r);
    }
  }

  /** Under nearest, earliest-finish and brain-first, whether a binding is within
      reach depends on its assignment and the placement alone. */
  lemma FixedReachesIff(c: Config, items: seq<Assignment>, k: nat)
    requires AllRoutable(c, items) && k < |items| && !SharesLoad(c.policy)
    ensures BoundWithin(c, items, k) <==> InReach(c, items[k])
  {
    BindingReachesIff(c, items, k);
    LeadIsFixed(c, BindAll(c, items[..k]), Empty(c), items[k]);
    SafeUpFront(c, items[k]);
  }

  // ----- policies that share the load -----

  /** The places of the expert's assignments in the window. */
  function UsesOf(items: seq<Assignment>, e: ExpertId): set<nat> {
    set k: nat | k < |items| && items[k].expert == e
  }

  /** The same without place k. */
  function OthersOf(items: seq<Assignment>, e: ExpertId, k: nat): set<nat> {
    set j: nat | j < |items| && items[j].expert == e && j != k
  }

  /** The places of the choices that went to r. */
  function Places(choices: seq<Choice>, r: nat): set<nat> {
    set k: nat | k < |choices| && choices[k].replica.id == r
  }

  lemma {:induction false} PlacesCount(choices: seq<Choice>, r: nat)
    ensures |Places(choices, r)| == |BoundTo(choices, r)|
  {
    if choices != [] {
      var n := |choices| - 1;
      PlacesCount(choices[..n], r);
      if choices[n].replica.id == r {
        assert Places(choices, r) == Places(choices[..n], r) + {n};
      } else {
        assert Places(choices, r) == Places(choices[..n], r);
      }
    }
  }

  lemma LoadIsPlaces(c: Config, items: seq<Assignment>, r: ReplicaSpec)
    requires AllRoutable(c, items) && r in c.replicas
    ensures Load(BindAll(c, items), r.id) == |Places(BindAll(c, items).choices, r.id)|
  {
    RunKeepsQueues(c, items);
    assert r.id in Ids(c) && Queued(BindAll(c, items), r.id);
    PlacesCount(BindAll(c, items).choices, r.id);
  }

  lemma FrontChoices(items: seq<Assignment>, all: seq<Choice>, front: seq<Choice>, x: Choice, k: nat)
    requires |items| == |front| + 1 && k <= |front| && all == front + [x]
    ensures all[..k] == front[..k] && items[..|items| - 1][..k] == items[..k]
  {
  }

  /** What was chosen stays chosen. */
  lemma {:induction false} PrefixChoices(c: Config, items: seq<Assignment>, k: nat)
    requires AllRoutable(c, items) && k <= |items|
    ensures AllRoutable(c, items[..k]) && |BindAll(c, items).choices| == |items|
    ensures BindAll(c, items[..k]).choices == BindAll(c, items).choices[..k]
  {
    if k == |items| {
      RunBindsEach(c, items);
      assert items[..k] == items;
    } else {
      var x := ChoicesGrow(c, items);
      var front := items[..|items| - 1];
      PrefixChoices(c, front, k);
      FrontChoices(items, BindAll(c, items).choices, BindAll(c, front).choices, x, k);
    }
  }

  /** The replicas that the given choices went to. */
  function Chosen(choices: seq<Choice>, places: set<nat>): set<ReplicaSpec> {
    set k | k in places && k < |choices| :: choices[k].replica
  }

  predicate ChosenApart(choices: seq<Choice>, j: nat, k: nat) {
    j < |choices| && k < |choices| && (j != k ==> choices[j].replica != choices[k].replica)
  }

  lemma {:induction false} ChosenCount(choices: seq<Choice>, places: set<nat>)
    requires forall k | k in places :: k < |choices|
    ensures |Chosen(choices, places)| <= |places|
    ensures (forall j, k {:trigger ChosenApart(choices, j, k)} | j in places && k in places :: ChosenApart(choices, j, k)) ==> |Chosen(choices, places)| == |places|
    decreases places
  {
    if places != {} {
      var k :| k in places;
      var rest := places - {k};
      ChosenCount(choices, rest);
      assert Chosen(choices, places) == Chosen(choices, rest) + {choices[k].replica};
      if forall i, j {:trigger ChosenApart(choices, i, j)} | i in places && j in places :: ChosenApart(choices, i, j) {
        forall j | j in rest
          ensures choices[j].replica != choices[k].replica
        {
          assert ChosenApart(choices, j, k);
        }
      }
    }
  }

  /** Assignments of one expert all reach the same of its replicas. */
  ghost predicate ReachIs(c: Config, items: seq<Assignment>, e: ExpertId, near: set<ReplicaSpec>) {
    forall a, r {:trigger Reaches(c, a, r)} | a in items && a.expert == e && r in ReplicasFor(c, e) :: Reaches(c, a, r) <==> r in near
  }

  /** Before any cost only the load tells the expert's replicas apart. */
  ghost predicate LedByLoad(c: Config, e: ExpertId) {
    && SharesLoad(c.policy)
    && (c.policy == LeastLoaded ==> forall r, s | r in ReplicasFor(c, e) && s in ReplicasFor(c, e) :: ReadyAt(c, r.id) == ReadyAt(c, s.id))
  }

  lemma LeadIsLoad(c: Config, w: Window, r: ReplicaSpec, s: ReplicaSpec, e: ExpertId)
    requires LedByLoad(c, e) && r in ReplicasFor(c, e) && s in ReplicasFor(c, e)
    ensures LeadsBefore(Lead(c, w, s), Lead(c, w, r)) <==> Load(w, s.id) < Load(w, r.id)
  {
  }

  /** Choice k is for item k, and within reach exactly when it is near. */
  lemma ChoiceIsNear(c: Config, items: seq<Assignment>, e: ExpertId, near: set<ReplicaSpec>, k: nat)
    requires AllRoutable(c, items) && ReachIs(c, items, e, near) && k in UsesOf(items, e)
    ensures k < |BindAll(c, items).choices| && BindAll(c, items).choices[k].replica in ReplicasFor(c, e)
    ensures BoundWithin(c, items, k) <==> BindAll(c, items).choices[k].replica in near
  {
    var w := BindAll(c, items);
    RunBindsEach(c, items);
    RunIsComplete(c, items);
    BindingAt(c, w, w.choices, k);
    assert ChoiceFits(c, items[k], w.choices[k]) && items[k] in items;
    OfferReach(c, w, items[k], w.choices[k].replica);
  }

  lemma Elsewhere(c: Config, items: seq<Assignment>, e: ExpertId, r: ReplicaSpec, k: nat)
    requires AllRoutable(c, items) && r in ReplicasFor(c, e) && k in Places(BindAll(c, items).choices, r.id)
    ensures k in UsesOf(items, e) && BindAll(c, items).choices[k].replica == r
  {
    RunBindsEach(c, items);
    assert ChoiceFits(c, items[k], BindAll(c, items).choices[k]);
    SameReplica(c, r, BindAll(c, items).choices[k].replica);
  }

  lemma PrefixPlaces(choices: seq<Choice>, k: nat, r: nat)
    requires k <= |choices|
    ensures Places(choices[..k], r) <= Places(choices, r) && forall j | j in Places(choices[..k], r) :: j < k
  {
  }

  /** A replica with load at place k was chosen before. */
  lemma LoadedBefore(c: Config, items: seq<Assignment>, e: ExpertId, r: ReplicaSpec, k: nat) returns (j: nat)
    requires AllRoutable(c, items) && k <= |items| && r in ReplicasFor(c, e)
    requires AllRoutable(c, items[..k]) && Load(BindAll(c, items[..k]), r.id) > 0
    ensures j < k && j in UsesOf(items, e) && j < |BindAll(c, items).choices| && BindAll(c, items).choices[j].replica == r
  {
    LoadIsPlaces(c, items[..k], r);
    PrefixChoices(c, items, k);
    var places := Places(BindAll(c, items[..k]).choices, r.id);
    assert places != {};
    j :| j in places;
    PrefixPlaces(BindAll(c, items).choices, k, r.id);
    Elsewhere(c, items, e, r, j);
  }

  lemma ChosenBefore(c: Config, items: seq<Assignment>, e: ExpertId, k: nat, r: ReplicaSpec)
    requires AllRoutable(c, items) && r in ReplicasFor(c, e) && k in UsesOf(items, e)
    requires AllRoutable(c, items[..k]) && Load(BindAll(c, items[..k]), r.id) > 0
    ensures r in Chosen(BindAll(c, items).choices, OthersOf(items, e, k))
  {
    var j := LoadedBefore(c, items, e, r, k);
    assert j in OthersOf(items, e, k);
  }

  lemma CrowdCount(choices: seq<Choice>, items: seq<Assignment>, e: ExpertId, k: nat, near: set<ReplicaSpec>)
    requires k in UsesOf(items, e) && |choices| == |items| && near <= Chosen(choices, OthersOf(items, e, k))
    ensures |near| < |UsesOf(items, e)|
  {
    var others := OthersOf(items, e, k);
    assert UsesOf(items, e) == others + {k};
    ChosenCount(choices, others);
    SmallerSet(near, Chosen(choices, others));
  }

  /** An assignment goes out of reach only when every replica within reach has
      one already. */
  lemma LostIsCrowded(c: Config, items: seq<Assignment>, e: ExpertId, near: set<ReplicaSpec>, k: nat)
    requires AllRoutable(c, items) && LedByLoad(c, e) && near <= ReplicasFor(c, e) && ReachIs(c, items, e, near)
    requires k in UsesOf(items, e) && !BoundWithin(c, items, k)
    ensures |near| < |UsesOf(items, e)| && near != ReplicasFor(c, e)
  {
    BindingReachesIff(c, items, k);
    ChoiceIsNear(c, items, e, near, k);
    PrefixChoices(c, items, |items|);
    forall r | r in near
      ensures r in Chosen(BindAll(c, items).choices, OthersOf(items, e, k))
    {
      NotSafe(c, items, e, near, k, r);
      ChosenBefore(c, items, e, k, r);
    }
    CrowdCount(BindAll(c, items).choices, items, e, k, near);
  }

  lemma NotSafe(c: Config, items: seq<Assignment>, e: ExpertId, near: set<ReplicaSpec>, k: nat, r: ReplicaSpec)
    requires AllRoutable(c, items) && LedByLoad(c, e) && ReachIs(c, items, e, near) && k in UsesOf(items, e)
    requires AllRoutable(c, items[..k]) && !HasSafeLead(c, BindAll(c, items[..k]), items[k]) && r in near && r in ReplicasFor(c, e)
    ensures Load(BindAll(c, items[..k]), r.id) > 0
  {
    var w := BindAll(c, items[..k]);
    assert items[k] in items && Reaches(c, items[k], r);
    assert !SafeLead(c, w, items[k], r);
    var s :| s in ReplicasFor(c, e) && !Reaches(c, items[k], s) && LeadsBefore(Lead(c, w, s), Lead(c, w, r));
    LeadIsLoad(c, w, r, s, e);
  }

  /** With a replica out of reach that got nothing, every other got one at most. */
  lemma SpreadThin(c: Config, items: seq<Assignment>, e: ExpertId, near: set<ReplicaSpec>, s: ReplicaSpec)
    requires AllRoutable(c, items) && SharesLoad(c.policy) && ReachIs(c, items, e, near) && s in ReplicasFor(c, e) && s !in near
    requires forall k {:trigger BoundWithin(c, items, k)} | k in UsesOf(items, e) :: BoundWithin(c, items, k)
    ensures |UsesOf(items, e)| <= |near|
  {
    var choices, uses := BindAll(c, items).choices, UsesOf(items, e);
    RunBindsEach(c, items);
    forall k | k in uses
      ensures k < |choices| && choices[k].replica in near
    {
      ChoiceIsNear(c, items, e, near, k);
      assert BoundWithin(c, items, k);
    }
    NothingOn(c, items, e, s, near);
    forall j, k | j in uses && k in uses
      ensures ChosenApart(choices, j, k)
    {
      ChoiceIsNear(c, items, e, near, j);
      if j != k && choices[j].replica == choices[k].replica { TwiceIsTwo(c, items, e, choices[j].replica, s, j, k); }
    }
    ChosenCount(choices, uses);
    SmallerSet(Chosen(choices, uses), near);
  }

  lemma NothingOn(c: Config, items: seq<Assignment>, e: ExpertId, s: ReplicaSpec, near: set<ReplicaSpec>)
    requires AllRoutable(c, items) && s in ReplicasFor(c, e) && s !in near
    requires forall k | k in UsesOf(items, e) :: k < |BindAll(c, items).choices| && BindAll(c, items).choices[k].replica in near
    ensures Load(BindAll(c, items), s.id) == 0
  {
    LoadIsPlaces(c, items, s);
    forall k | k in Places(BindAll(c, items).choices, s.id)
      ensures false
    {
      Elsewhere(c, items, e, s, k);
    }
    assert Places(BindAll(c, items).choices, s.id) == {};
  }

  lemma TwoPlaces(places: set<nat>, j: nat, k: nat)
    requires j in places && k in places && j != k
    ensures |places| >= 2
  {
    SmallerSet({j, k}, places);
  }

  lemma TwiceIsTwo(c: Config, items: seq<Assignment>, e: ExpertId, r: ReplicaSpec, s: ReplicaSpec, j: nat, k: nat)
    requires AllRoutable(c, items) && SharesLoad(c.policy) && r in ReplicasFor(c, e) && s in ReplicasFor(c, e) && j != k
    requires j in Places(BindAll(c, items).choices, r.id) && k in Places(BindAll(c, items).choices, r.id)
    ensures Load(BindAll(c, items), s.id) > 0
  {
    LoadIsPlaces(c, items, r);
    TwoPlaces(Places(BindAll(c, items).choices, r.id), j, k);
    RunBalances(c, items);
    assert EvenPair(BindAll(c, items), r, s);
  }

  /** Sharing the load, the assignments of an expert all stay within reach
      exactly when all its replicas are within reach or there are no more
      assignments than replicas within reach. */
  lemma SharedReachesIff(c: Config, items: seq<Assignment>, e: ExpertId, near: set<ReplicaSpec>)
    requires AllRoutable(c, items) && LedByLoad(c, e) && near <= ReplicasFor(c, e) && ReachIs(c, items, e, near)
    ensures (forall k {:trigger BoundWithin(c, items, k)} | k in UsesOf(items, e) :: BoundWithin(c, items, k))
      <==> near == ReplicasFor(c, e) || |UsesOf(items, e)| <= |near|
  {
    if k :| k in UsesOf(items, e) && !BoundWithin(c, items, k) {
      LostIsCrowded(c, items, e, near, k);
    } else if near != ReplicasFor(c, e) {
      var s :| s in ReplicasFor(c, e) && s !in near;
      SpreadThin(c, items, e, near, s);
    }
  }

  /** The expert's replicas within reach of a. */
  function NearTo(c: Config, e: ExpertId, a: Assignment): set<ReplicaSpec> {
    set r | r in ReplicasFor(c, e) && Reaches(c, a, r)
  }

  /** With one ingress all assignments reach the same replicas, so the condition
      is on the expert's assignments and the placement. */
  lemma OneIngressReachesIff(c: Config, items: seq<Assignment>, e: ExpertId, a: Assignment)
    requires AllRoutable(c, items) && LedByLoad(c, e) && |c.wiring.gpuIngress| <= 1
    ensures (forall k {:trigger BoundWithin(c, items, k)} | k in UsesOf(items, e) :: BoundWithin(c, items, k))
      <==> NearTo(c, e, a) == ReplicasFor(c, e) || |UsesOf(items, e)| <= |NearTo(c, e, a)|
  {
    forall b
      ensures IngressSource(c.wiring, b) == IngressSource(c.wiring, a)
    {
    }
    SharedReachesIff(c, items, e, NearTo(c, e, a));
  }
}
