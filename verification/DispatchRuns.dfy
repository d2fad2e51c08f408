/** What every run of the dispatcher keeps. */
module DispatchRuns {
  import opened Basics
  import opened Communications
  import opened DispatchModel
  import opened Kernels
  import opened ReplicaPlans

  // ----- a whole run -----

  lemma NoWorseIsOrder(c: Config, w: Window, x: Choice, y: Choice, z: Choice)
    ensures NoWorse(c, w, x, y) || NoWorse(c, w, y, x)
    ensures NoWorse(c, w, x, y) && NoWorse(c, w, y, z) ==> NoWorse(c, w, x, z)
  {
    OrderIsTotal(ScoreOf(c, w, x), ScoreOf(c, w, y), ScoreOf(c, w, z));
  }

  /** x is the best offer in s. */
  ghost predicate LeastIn(c: Config, w: Window, s: set<Choice>, x: Choice) {
    x in s && forall y {:trigger NoWorse(c, w, x, y)} | y in s :: NoWorse(c, w, x, y)
  }

  lemma {:induction false} LeastChoice(c: Config, w: Window, s: set<Choice>) returns (x: Choice)
    requires s != {}
    ensures LeastIn(c, w, s, x)
    decreases s
  {
    x :| x in s;
    NoWorseIsOrder(c, w, x, x, x);
    var rest := s - {x};
    if rest == {} {
      assert forall y | y in s :: y in rest || y == x;
    } else {
      var y := LeastChoice(c, w, rest);
      x := LeastOfTwo(c, w, s, x, y);
    }
  }

  lemma LeastOfTwo(c: Config, w: Window, s: set<Choice>, x: Choice, y: Choice) returns (z: Choice)
    requires x in s && LeastIn(c, w, s - {x}, y)
    ensures LeastIn(c, w, s, z)
  {
    NoWorseIsOrder(c, w, x, y, y);
    NoWorseIsOrder(c, w, x, x, x);
    z := if NoWorse(c, w, x, y) then x else y;
    forall r | r in s
      ensures NoWorse(c, w, z, r)
    {
      if r != x {
        assert r in s - {x} && NoWorse(c, w, y, r);
        NoWorseIsOrder(c, w, x, y, r);
      }
    }
  }

  ghost function Offers(c: Config, w: Window, a: Assignment): set<Choice>
    requires ValidConfig(c) && Routable(c, a)
  {
    set r | r in ReplicasFor(c, a.expert) :: Offer(c, w, a, r)
  }

  lemma BestExists(c: Config, w: Window, a: Assignment)
    requires ValidConfig(c) && Routable(c, a)
    ensures exists x :: IsBest(c, w, a, x)
  {
    HasReplica(c, a.expert);
    var r :| r in ReplicasFor(c, a.expert);
    assert Offer(c, w, a, r) in Offers(c, w, a);
    var x := LeastChoice(c, w, Offers(c, w, a));
    var q :| q in ReplicasFor(c, a.expert) && x == Offer(c, w, a, q);
    forall r | r in ReplicasFor(c, a.expert)
      ensures NoWorse(c, w, x, Offer(c, w, a, r))
    {
      assert Offer(c, w, a, r) in Offers(c, w, a);
    }
    assert IsBest(c, w, a, x);
  }

  ghost function Best(c: Config, w: Window, a: Assignment): (x: Choice)
    requires ValidConfig(c) && Routable(c, a)
    ensures IsBest(c, w, a, x)
  {
    BestExists(c, w, a);
    var x :| IsBest(c, w, a, x);
    x
  }

  ghost predicate AllRoutable(c: Config, items: seq<Assignment>) {
    ValidConfig(c) && forall a {:trigger Routable(c, a)} | a in items :: Routable(c, a)
  }

  predicate Covers(c: Config, w: Window) {
    w.queued.Keys == Ids(c) == w.arrival.Keys
  }

  /** The window after binding the items in order. */
  ghost function BindAll(c: Config, items: seq<Assignment>): (w: Window)
    requires AllRoutable(c, items)
    ensures Covers(c, w)
  {
    if items == [] then Empty(c) else
    var front, last := items[..|items| - 1], items[|items| - 1];
    assert last in items && Routable(c, last);
    var x := Best(c, BindAll(c, front), last);
    assert x.replica.id in Ids(c);
    Bound(BindAll(c, front), x)
  }

  ghost predicate StepsTo(c: Config, v: Window, a: Assignment, x: Choice, w: Window) {
    IsBest(c, v, a, x) && Covers(c, v) && Holds(v, x.replica.id) && w == Bound(v, x)
  }

  /** The last step of a run. */
  lemma LastStep(c: Config, items: seq<Assignment>) returns (x: Choice)
    requires AllRoutable(c, items) && items != []
    ensures AllRoutable(c, items[..|items| - 1])
    ensures StepsTo(c, BindAll(c, items[..|items| - 1]), items[|items| - 1], x, BindAll(c, items))
  {
    var front, last := items[..|items| - 1], items[|items| - 1];
    assert last in items && Routable(c, last);
    x := Best(c, BindAll(c, front), last);
    assert x.replica.id in Ids(c);
  }

  // ----- what is queued where -----

  /** The assignments bound to r, in the order of binding. */
  function BoundTo(choices: seq<Choice>, r: nat): seq<Assignment> {
    if choices == [] then []
    else
      var last := choices[|choices| - 1];
      BoundTo(choices[..|choices| - 1], r) + if last.replica.id == r then [last.assignment] else []
  }

  /** The latest arrival on r. */
  function LastArrival(choices: seq<Choice>, r: nat): Cost {
    if choices == [] then Finite(0.0)
    else
      var last, before := choices[|choices| - 1], LastArrival(choices[..|choices| - 1], r);
      if last.replica.id == r then Later(before, last.dispatch) else before
  }

  predicate Queued(w: Window, r: nat) {
    Holds(w, r) && w.queued[r] == BoundTo(w.choices, r) && w.arrival[r] == LastArrival(w.choices, r)
  }

  ghost predicate QueuesMatch(c: Config, w: Window) {
    forall r {:trigger Queued(w, r)} | r in Ids(c) :: Queued(w, r)
  }

  lemma StepKeepsQueues(c: Config, v: Window, a: Assignment, x: Choice, w: Window)
    requires StepsTo(c, v, a, x, w) && QueuesMatch(c, v)
    ensures QueuesMatch(c, w)
  {
    assert w.choices[..|v.choices|] == v.choices;
    forall r | r in Ids(c)
      ensures Queued(w, r)
    {
      assert Queued(v, r);
    }
  }

  lemma {:induction false} RunKeepsQueues(c: Config, items: seq<Assignment>)
    requires AllRoutable(c, items)
    ensures QueuesMatch(c, BindAll(c, items))
  {
    if items == [] {
      forall r | r in Ids(c)
        ensures Queued(Empty(c), r)
      {
      }
    } else {
      var x := LastStep(c, items);
      RunKeepsQueues(c, items[..|items| - 1]);
      StepKeepsQueues(c, BindAll(c, items[..|items| - 1]), items[|items| - 1], x, BindAll(c, items));
    }
  }

  /** The k-th choice is for the k-th item, on a replica of its own expert. */
  predicate ChoiceFits(c: Config, a: Assignment, x: Choice) {
    && x.assignment == a && x.replica in ReplicasFor(c, a.expert) && CanServe(c, a, x.replica)
    && Communication(c.wiring, a, x.replica.chip).value == (x.dispatch, x.combine)
  }

  ghost predicate ChoicesFit(c: Config, items: seq<Assignment>, choices: seq<Choice>) {
    |choices| == |items| && forall k: nat {:trigger choices[k]} | k < |items| :: ChoiceFits(c, items[k], choices[k])
  }

  lemma BestFits(c: Config, w: Window, a: Assignment, x: Choice)
    requires IsBest(c, w, a, x)
    ensures ChoiceFits(c, a, x)
  {
    assert CanServe(c, a, x.replica);
  }

  lemma {:induction false} RunBindsEach(c: Config, items: seq<Assignment>)
    requires AllRoutable(c, items)
    ensures ChoicesFit(c, items, BindAll(c, items).choices)
  {
    if items != [] {
      var x := LastStep(c, items);
      var n := |items| - 1;
      var v := BindAll(c, items[..n]);
      RunBindsEach(c, items[..n]);
      BestFits(c, v, items[n], x);
      FitNext(c, items, v.choices, x);
    }
  }

  lemma FitNext(c: Config, items: seq<Assignment>, choices: seq<Choice>, x: Choice)
    requires items != [] && ChoicesFit(c, items[..|items| - 1], choices) && ChoiceFits(c, items[|items| - 1], x)
    ensures ChoicesFit(c, items, choices + [x])
  {
    forall k: nat | k < |items|
      ensures ChoiceFits(c, items[k], (choices + [x])[k])
    {
      if k < |choices| { assert ChoiceFits(c, items[..|items| - 1][k], choices[k]); }
    }
  }

  // ----- scores are never pessimistic -----

  lemma LaterFinish(a: Cost, b: Cost, d: Cost, e: Cost)
    requires !Below(b, a)
    ensures !Below(Later(d, b), Later(d, a)) && !Below(Plus(b, e), Plus(a, e))
  {
  }

  /** A batch that is larger and complete later ends no earlier. */
  lemma BatchGrows(c: Config, r: ReplicaSpec, s: Cost, t: Cost, m: nat, n: nat)
    requires ValidConfig(c) && KernelFor(c, r).Some? && !Below(t, s) && 0 < m <= n
    ensures !Below(BatchFinish(c, r, t, n), BatchFinish(c, r, s, m))
  {
    KernelRises(KernelFor(c, r).value, m, n);
    LaterFinish(s, t, ReadyAt(c, r.id), Finite(0.0));
  }

  /** What the choice foresaw is at most what its replica's batch now gives. */
  ghost predicate Foreseen(c: Config, w: Window, x: Choice) {
    && ValidConfig(c) && KernelFor(c, x.replica).Some? && Load(w, x.replica.id) > 0
    && !Below(Plus(BatchFinish(c, x.replica, Arrival(w, x.replica.id), Load(w, x.replica.id)), x.combine), x.finish)
  }

  ghost predicate AllForeseen(c: Config, w: Window) {
    forall k {:trigger w.choices[k]} | 0 <= k < |w.choices| :: Foreseen(c, w, w.choices[k])
  }

  lemma StepForesees(c: Config, v: Window, a: Assignment, x: Choice, w: Window)
    requires StepsTo(c, v, a, x, w)
    ensures Foreseen(c, w, x)
  {
    assert CanServe(c, a, x.replica);
  }

  lemma StillForeseen(c: Config, v: Window, a: Assignment, x: Choice, w: Window, y: Choice)
    requires StepsTo(c, v, a, x, w) && Foreseen(c, v, y)
    ensures Foreseen(c, w, y)
  {
    var r := y.replica;
    BatchGrows(c, r, Arrival(v, r.id), Arrival(w, r.id), Load(v, r.id), Load(w, r.id));
    var before := BatchFinish(c, r, Arrival(v, r.id), Load(v, r.id));
    var after := BatchFinish(c, r, Arrival(w, r.id), Load(w, r.id));
    LaterFinish(before, after, Finite(0.0), y.combine);
  }

  lemma {:induction false} RunForesees(c: Config, items: seq<Assignment>)
    requires AllRoutable(c, items)
    ensures AllForeseen(c, BindAll(c, items))
  {
    if items != [] {
      var x := LastStep(c, items);
      var n := |items| - 1;
      var v, w := BindAll(c, items[..n]), BindAll(c, items);
      RunForesees(c, items[..n]);
      StepForesees(c, v, items[n], x, w);
      forall k | 0 <= k < |w.choices|
        ensures Foreseen(c, w, w.choices[k])
      {
        if k < |v.choices| {
          assert w.choices[k] == v.choices[k];
          StillForeseen(c, v, items[n], x, w, v.choices[k]);
        }
      }
    }
  }

  // ----- balance -----

  predicate EvenPair(w: Window, r: ReplicaSpec, s: ReplicaSpec) {
    Load(w, r.id) <= Load(w, s.id) + 1
  }

  ghost predicate Balanced(c: Config, w: Window) {
    forall r, s {:trigger EvenPair(w, r, s)} | r in c.replicas && s in c.replicas && r.expert == s.expert :: EvenPair(w, r, s)
  }

  predicate SharesLoad(p: Policy) {
    p == SplitLoad || p == LeastLoaded
  }

  /** The chosen replica had the fewest assignments. */
  lemma BestHasLeastLoad(c: Config, w: Window, a: Assignment, x: Choice, s: ReplicaSpec)
    requires IsBest(c, w, a, x) && SharesLoad(c.policy) && s in c.replicas && s.expert == a.expert
    ensures Load(w, x.replica.id) <= Load(w, s.id)
  {
    assert s in ReplicasFor(c, a.expert);
    assert NoWorse(c, w, x, Offer(c, w, a, s));
  }

  lemma StepKeepsBalance(c: Config, v: Window, a: Assignment, x: Choice, w: Window)
    requires StepsTo(c, v, a, x, w) && SharesLoad(c.policy) && Balanced(c, v)
    ensures Balanced(c, w)
  {
    forall r, s | r in c.replicas && s in c.replicas && r.expert == s.expert
      ensures EvenPair(w, r, s)
    {
      assert EvenPair(v, r, s);
      if r.id == x.replica.id {
        SameReplica(c, r, x.replica);
        BestHasLeastLoad(c, v, a, x, s);
      }
    }
  }

  /** Under `split` and `least_loaded` no replica gets two more assignments
      than another of the same expert. */
  lemma {:induction false} RunBalances(c: Config, items: seq<Assignment>)
    requires AllRoutable(c, items) && SharesLoad(c.policy)
    ensures Balanced(c, BindAll(c, items))
  {
    if items != [] {
      var x := LastStep(c, items);
      RunBalances(c, items[..|items| - 1]);
      StepKeepsBalance(c, BindAll(c, items[..|items| - 1]), items[|items| - 1], x, BindAll(c, items));
    }
  }

  // ----- members of a batch -----

  lemma {:induction false} BoundMember(choices: seq<Choice>, r: nat, a: Assignment)
    ensures a in BoundTo(choices, r) <==> exists k :: 0 <= k < |choices| && choices[k].assignment == a && choices[k].replica.id == r
  {
    if choices != [] {
      var n := |choices| - 1;
      BoundMember(choices[..n], r, a);
      if k :| 0 <= k < |choices| && choices[k].assignment == a && choices[k].replica.id == r {
        if k < n { assert choices[..n][k] == choices[k]; }
      }
      if k :| 0 <= k < n && choices[..n][k].assignment == a && choices[..n][k].replica.id == r {
        assert choices[k] == choices[..n][k];
      }
    }
  }

  /** A batch is complete exactly when its last activation arrives. */
  lemma {:induction false} ArrivalIsLast(choices: seq<Choice>, r: nat)
    ensures forall k | 0 <= k < |choices| && choices[k].replica.id == r :: !Below(LastArrival(choices, r), choices[k].dispatch)
    ensures LastArrival(choices, r) == Finite(0.0)
      || exists k :: 0 <= k < |choices| && choices[k].replica.id == r && choices[k].dispatch == LastArrival(choices, r)
  {
    if choices != [] {
      var n := |choices| - 1;
      var front := choices[..n];
      ArrivalIsLast(front, r);
      forall k | 0 <= k < |choices| && choices[k].replica.id == r
        ensures !Below(LastArrival(choices, r), choices[k].dispatch)
      {
        if k < n { assert front[k] == choices[k]; }
      }
      if k :| 0 <= k < |front| && front[k].replica.id == r && front[k].dispatch == LastArrival(front, r) {
        assert choices[k] == front[k];
      }
    }
  }
}
