/** Binding assignments to replicas, one at a time: the state and its invariants. */
module DispatchModel {
  import opened Basics
  import opened Communications
  import opened Kernels
  import opened ReplicaPlans

  datatype Policy = Nearest | LeastLoaded | EarliestFinish | BrainFirst | SplitLoad

  /** A validated placement with the kernel of every replica, by expert and
      chip or by expert alone, and the times replicas become ready. */
  datatype Config = Config(
    inv: Inventory,
    replicas: seq<ReplicaSpec>,
    brains: set<ChipId>,
    onChip: map<(ExpertId, ChipId), Kernel>,
    general: map<ExpertId, Kernel>,
    wiring: Wiring,
    policy: Policy,
    ready: map<nat, real>)

  ghost predicate ValidConfig(c: Config) {
    && ValidPlan(c.inv, c.replicas)
    && (forall k | k in c.inv.chips.Keys :: k in c.wiring.chipAt)
    && (forall k | k in c.onChip.Keys :: ValidKernel(c.onChip[k]))
    && (forall e | e in c.general.Keys :: ValidKernel(c.general[e]))
  }

  function ReadyAt(c: Config, r: nat): Cost {
    Finite(if r in c.ready then c.ready[r] else 0.0)
  }

  function KernelFor(c: Config, r: ReplicaSpec): Option<Kernel> {
    if (r.expert, r.chip) in c.onChip then Some(c.onChip[(r.expert, r.chip)])
    else if r.expert in c.general then Some(c.general[r.expert])
    else None
  }

  predicate CanServe(c: Config, a: Assignment, r: ReplicaSpec) {
    KernelFor(c, r).Some? && r.chip in c.wiring.chipAt && Communication(c.wiring, a, r.chip).Ok?
  }

  function ReplicasFor(c: Config, e: ExpertId): set<ReplicaSpec> {
    set r | r in c.replicas && r.expert == e
  }

  ghost predicate Routable(c: Config, a: Assignment) {
    a.expert in c.inv.weight && forall r | r in ReplicasFor(c, a.expert) :: CanServe(c, a, r)
  }

  // ----- the state of a scheduling window -----

  datatype Choice = Choice(assignment: Assignment, replica: ReplicaSpec, dispatch: Cost, combine: Cost, finish: Cost)

  datatype Window = Window(queued: map<nat, seq<Assignment>>, arrival: map<nat, Cost>, choices: seq<Choice>)

  function Ids(c: Config): set<nat> {
    set r | r in c.replicas :: r.id
  }

  function Empty(c: Config): Window {
    Window(map i | i in Ids(c) :: [], map i | i in Ids(c) :: Finite(0.0), [])
  }

  predicate Holds(w: Window, r: nat) {
    r in w.queued && r in w.arrival
  }

  function Load(w: Window, r: nat): nat {
    if r in w.queued then |w.queued[r]| else 0
  }

  function Arrival(w: Window, r: nat): Cost {
    if r in w.arrival then w.arrival[r] else Finite(0.0)
  }

  /** When a batch of m on r ends, if its last activation comes at `arrival`. */
  function BatchFinish(c: Config, r: ReplicaSpec, arrival: Cost, m: nat): Cost
    requires ValidConfig(c) && KernelFor(c, r).Some? && m > 0
  {
    Plus(Later(ReadyAt(c, r.id), arrival), Finite(KernelLatency(KernelFor(c, r).value, m)))
  }

  /** What binding a to r next would give. */
  function Offer(c: Config, w: Window, a: Assignment, r: ReplicaSpec): Choice
    requires ValidConfig(c) && CanServe(c, a, r)
  {
    var (dispatch, combine) := Communication(c.wiring, a, r.chip).value;
    Choice(a, r, dispatch, combine, Plus(BatchFinish(c, r, Later(Arrival(w, r.id), dispatch), Load(w, r.id) + 1), combine))
  }

  datatype Score = Score(first: Cost, second: Cost, third: Cost, id: nat)

  predicate Precedes(a: Score, b: Score) {
    Below(a.first, b.first) || (a.first == b.first &&
    (Below(a.second, b.second) || (a.second == b.second &&
    (Below(a.third, b.third) || (a.third == b.third && a.id < b.id)))))
  }

  function Count(n: nat): Cost {
    Finite(n as real)
  }

  function ScoreOf(c: Config, w: Window, x: Choice): Score {
    var r, distance := x.replica, Plus(x.dispatch, x.combine);
    match c.policy
    case Nearest => Score(distance, Count(Load(w, r.id)), x.finish, r.id)
    case BrainFirst => Score(Finite(if r.chip in c.brains then 0.0 else 1.0), x.finish, distance, r.id)
    case SplitLoad => Score(Count(Load(w, r.id)), x.finish, distance, r.id)
    case LeastLoaded => Score(Count(Load(w, r.id)), ReadyAt(c, r.id), distance, r.id)
    case EarliestFinish => Score(x.finish, distance, Count(Load(w, r.id)), r.id)
  }

  predicate NoWorse(c: Config, w: Window, x: Choice, y: Choice) {
    !Precedes(ScoreOf(c, w, y), ScoreOf(c, w, x))
  }

  /** x is the offer with the least score. */
  ghost predicate IsBest(c: Config, w: Window, a: Assignment, x: Choice) {
    && ValidConfig(c) && Routable(c, a)
    && x.replica in ReplicasFor(c, a.expert) && x == Offer(c, w, a, x.replica)
    && forall r | r in ReplicasFor(c, a.expert) :: NoWorse(c, w, x, Offer(c, w, a, r))
  }

  function Bound(w: Window, x: Choice): Window
    requires Holds(w, x.replica.id)
  {
    var r := x.replica.id;
    Window(w.queued[r := w.queued[r] + [x.assignment]], w.arrival[r := Later(w.arrival[r], x.dispatch)], w.choices + [x])
  }

  // ----- the score order -----

  lemma OrderIsTotal(a: Score, b: Score, d: Score)
    ensures Precedes(a, b) || Precedes(b, a) || a == b
    ensures !(Precedes(a, b) && Precedes(b, a))
    ensures !Precedes(b, a) && !Precedes(d, b) ==> !Precedes(d, a)
  {
  }

  lemma BestIsUnique(c: Config, w: Window, a: Assignment, x: Choice, y: Choice)
    requires IsBest(c, w, a, x) && IsBest(c, w, a, y)
    ensures x == y
  {
    assert NoWorse(c, w, x, Offer(c, w, a, y.replica)) && NoWorse(c, w, y, Offer(c, w, a, x.replica));
    OrderIsTotal(ScoreOf(c, w, x), ScoreOf(c, w, y), ScoreOf(c, w, y));
    SameReplica(c, x.replica, y.replica);
  }

  lemma SameReplica(c: Config, r: ReplicaSpec, s: ReplicaSpec)
    requires AllApart(c.replicas) && r in c.replicas && s in c.replicas && r.id == s.id
    ensures r == s
  {
    var i :| 0 <= i < |c.replicas| && c.replicas[i] == r;
    var j :| 0 <= j < |c.replicas| && c.replicas[j] == s;
    if i < j { ApartIds(c.replicas, i, j); } else if j < i { ApartIds(c.replicas, j, i); }
  }

  lemma ApartIds(rs: seq<ReplicaSpec>, i: nat, j: nat)
    requires AllApart(rs) && i < j < |rs|
    ensures rs[i].id != rs[j].id
  {
    assert Apart(rs, i, j);
  }

  // ----- every known expert has a replica -----

  lemma {:induction false} PrimaryExists(rs: seq<ReplicaSpec>, e: ExpertId)
    requires Primaries(rs, e) > 0
    ensures exists r :: r in rs && r.expert == e
  {
    var front, last := rs[..|rs| - 1], rs[|rs| - 1];
    assert last in rs;
    if IsPrimaryOf(last, e) == 0 {
      PrimaryExists(front, e);
      var r :| r in front && r.expert == e;
      assert r in rs;
    }
  }

  lemma HasReplica(c: Config, e: ExpertId)
    requires ValidPlan(c.inv, c.replicas) && e in c.inv.weight
    ensures ReplicasFor(c, e) != {}
  {
    assert Primaries(c.replicas, e) == 1;
    PrimaryExists(c.replicas, e);
    var r :| r in c.replicas && r.expert == e;
    assert r in ReplicasFor(c, e);
  }
}
