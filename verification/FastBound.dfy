/** When the screening model's compute never finishes later than the event
    loop's. */
module FastBound {
  import opened Basics
  import opened Sums
  import opened Communications
  import opened NetTopology
  import opened NetModel
  import opened NetService
  import opened Layers
  import opened LayerModel
  import opened LayerSchedule
  import opened LayerInvariant
  import opened LayerCore
  import opened FastEngines

  type Latencies = map<ReplicaId, real>

  // ----- computing time -----

  function Duration(D: Latencies, r: ReplicaId): real {
    if r in D then D[r] else 0.0
  }

  /** The computing time of the batches of q that belong to s. */
  function Computing(D: Latencies, q: seq<ReplicaId>, s: set<ReplicaId>): real {
    if q == [] then 0.0 else
    Computing(D, q[..|q| - 1], s) + if q[|q| - 1] in s then Duration(D, q[|q| - 1]) else 0.0
  }

  function Durations(D: Latencies, s: set<ReplicaId>): map<ReplicaId, real> {
    map r | r in s :: Duration(D, r)
  }

  lemma DurationsAdd(D: Latencies, s: set<ReplicaId>, r: ReplicaId)
    requires r !in s
    ensures Sum(Durations(D, s + {r})) == Sum(Durations(D, s)) + Duration(D, r)
  {
    SumAdd(Durations(D, s), r, Duration(D, r));
    assert Durations(D, s + {r}) == Durations(D, s)[r := Duration(D, r)];
  }

  lemma NoDurations(D: Latencies)
    ensures Sum(Durations(D, {})) == 0.0
  {
    SumEmpty(Durations(D, {}));
  }

  lemma LastElement(q: seq<nat>, s: set<nat>)
    requires q != [] && forall i, j | 0 <= i < j < |q| :: q[i] != q[j]
    ensures var p, x := q[..|q| - 1], q[|q| - 1];
      x !in s * ElementSet(p) && s * ElementSet(q) == if x in s then s * ElementSet(p) + {x} else s * ElementSet(p)
  {
    NextElement(q, |q| - 1);
    assert q[..|q|] == q;
  }

  /** The order of the batches does not matter. */
  lemma {:induction false} ComputingIsSum(D: Latencies, q: seq<ReplicaId>, s: set<ReplicaId>)
    requires forall i, j | 0 <= i < j < |q| :: q[i] != q[j]
    ensures Computing(D, q, s) == Sum(Durations(D, s * ElementSet(q)))
  {
    if q == [] {
      assert s * ElementSet(q) == {};
      NoDurations(D);
    } else {
      ComputingIsSum(D, q[..|q| - 1], s);
      LastElement(q, s);
      DurationsAdd(D, s * ElementSet(q[..|q| - 1]), q[|q| - 1]);
    }
  }

  lemma SameComputing(D: Latencies, p: seq<ReplicaId>, q: seq<ReplicaId>)
    requires forall i, j | 0 <= i < j < |p| :: p[i] != p[j]
    requires forall i, j | 0 <= i < j < |q| :: q[i] != q[j]
    requires ElementSet(p) <= ElementSet(q)
    ensures Computing(D, q, ElementSet(p)) == Computing(D, p, ElementSet(p))
  {
    ComputingIsSum(D, p, ElementSet(p));
    ComputingIsSum(D, q, ElementSet(p));
    assert ElementSet(p) * ElementSet(q) == ElementSet(p) * ElementSet(p);
  }

  // ----- the screening model: busy periods -----

  predicate Differ(q: seq<nat>, i: nat, j: nat) {
    i < |q| && j < |q| && q[i] != q[j]
  }

  ghost predicate NoRepeat(q: seq<nat>) {
    forall i: nat, j: nat {:trigger Differ(q, i, j)} | i < j < |q| :: Differ(q, i, j)
  }

  predicate NotLater(at: FastTimes, q: seq<ReplicaId>, i: nat, j: nat) {
    i < |q| && j < |q| && q[i] in at && q[j] in at && !Below(at[q[j]], at[q[i]])
  }

  predicate NotNegative(at: FastTimes) {
    forall r | r in at.Keys && at[r].Finite? :: at[r].value >= 0.0
  }

  /** q lists the batches of s by arrival, each once. */
  ghost predicate Lists(at: FastTimes, q: seq<ReplicaId>, s: set<ReplicaId>) {
    && ElementSet(q) == s && NoRepeat(q) && NotNegative(at)
    && forall i: nat, j: nat {:trigger NotLater(at, q, i, j)} | i <= j < |q| :: NotLater(at, q, i, j)
  }

  /** The batches from k to i run back to back from the arrival of batch k. */
  predicate BusyFrom(D: Latencies, at: FastTimes, runs: FastRuns, q: seq<ReplicaId>, k: nat, i: nat) {
    && k <= i < |q| && q[i] in runs && q[k] in at && at[q[k]].Finite?
    && runs[q[i]].finish == Finite(at[q[k]].value + Computing(D, q[k..i + 1], ElementSet(q[k..i + 1])))
  }

  lemma {:induction false} WiderSet(D: Latencies, q: seq<ReplicaId>, s: set<ReplicaId>, t: set<ReplicaId>)
    requires forall r | r in q :: r in s && r in t
    ensures Computing(D, q, s) == Computing(D, q, t)
  {
    if q != [] {
      WiderSet(D, q[..|q| - 1], s, t);
    }
  }

  /** Every batch of a chip that arrives ends a busy period. */
  lemma {:induction false} BusyPeriod(P: FastPlan, at: FastTimes, runs: FastRuns, chip: ChipId, q: seq<ReplicaId>, s: set<ReplicaId>, i: nat) returns (k: nat)
    requires FastChip(P, at, runs, chip, q) && i < |q| && Lists(at, q, s) && q[i] in at && at[q[i]].Finite?
    ensures BusyFrom(P.duration, at, runs, q, k, i)
    decreases i
  {
    assert FastAt(P, at, runs, chip, q, i);
    if runs[q[i]].start == at[q[i]] {
      k := i;
      assert q[i..i + 1] == [q[i]];
      assert Computing(P.duration, [q[i]], ElementSet([q[i]])) == Duration(P.duration, q[i]) by {
        assert [q[i]][..0] == [];
        assert q[i] in ElementSet([q[i]]);
      }
    } else {
      assert NotLater(at, q, i - 1, i);
      k := BusyPeriod(P, at, runs, chip, q, s, i - 1);
      var p, p' := q[k..i], q[k..i + 1];
      assert p'[..|p'| - 1] == p && p'[|p'| - 1] == q[i] && q[i] in p';
      WiderSet(P.duration, p, ElementSet(p), ElementSet(p'));
    }
  }

  /** A batch that never arrives never finishes. */
  lemma NeverArrives(P: FastPlan, at: FastTimes, runs: FastRuns, chip: ChipId, q: seq<ReplicaId>, i: nat)
    requires FastChip(P, at, runs, chip, q) && i < |q| && q[i] in at && at[q[i]].Infinite?
    ensures q[i] in runs && runs[q[i]].finish.Infinite?
  {
    assert FastAt(P, at, runs, chip, q, i);
  }

  /** With shorter latencies the same batches take less computing. */
  lemma {:induction false} ComputingMonotone(D: Latencies, E: Latencies, q: seq<ReplicaId>, s: set<ReplicaId>)
    requires forall r | r in q :: Duration(D, r) <= Duration(E, r)
    ensures Computing(D, q, s) <= Computing(E, q, s)
  {
    if q != [] {
      assert q[|q| - 1] in q;
      ComputingMonotone(D, E, q[..|q| - 1], s);
    }
  }

  // ----- the event loop: batches do not overlap -----

  predicate Timed(D: Latencies, execs: Executions, r: ReplicaId) {
    r in execs && r in D && D[r] > 0.0 && execs[r].finish == execs[r].start + D[r]
  }

  /** Batch i + 1 starts when batch i is over, up to eps. */
  predicate Apart(execs: Executions, q: seq<ReplicaId>, eps: real, i: nat) {
    i + 1 < |q| && q[i] in execs && q[i + 1] in execs && execs[q[i]].finish - eps <= execs[q[i + 1]].start
  }

  ghost predicate NoOverlap(D: Latencies, execs: Executions, q: seq<ReplicaId>, eps: real) {
    && (forall i {:trigger Timed(D, execs, q[i])} | 0 <= i < |q| :: Timed(D, execs, q[i]))
    && (forall i: nat {:trigger Apart(execs, q, eps, i)} | i + 1 < |q| :: Apart(execs, q, eps, i))
  }

  /** One of the first m batches of q is in s. */
  predicate Hits(q: seq<ReplicaId>, s: set<ReplicaId>, m: nat)
    requires m <= |q|
  {
    m > 0 && (q[m - 1] in s || Hits(q, s, m - 1))
  }

  lemma {:induction false} HitsIfMember(q: seq<ReplicaId>, s: set<ReplicaId>, m: nat, i: nat)
    requires i < m <= |q| && q[i] in s
    ensures Hits(q, s, m)
  {
    if i < m - 1 {
      HitsIfMember(q, s, m - 1, i);
    }
  }

  predicate StartsFrom(execs: Executions, r: ReplicaId, t: real) {
    r in execs && t <= execs[r].start
  }

  ghost predicate AllFrom(execs: Executions, s: set<ReplicaId>, t: real) {
    forall r {:trigger StartsFrom(execs, r, t)} | r in s :: StartsFrom(execs, r, t)
  }

  /** If the batches of s start at t or later, by the end of the first m
      batches of the schedule those of s among them have been computed. */
  lemma {:induction false} Packed(D: Latencies, execs: Executions, q: seq<ReplicaId>, eps: real, s: set<ReplicaId>, t: real, m: nat)
    requires NoOverlap(D, execs, q, eps) && m <= |q| && eps >= 0.0
    requires AllFrom(execs, s, t)
    ensures Repeated(m, eps) >= 0.0
    ensures !Hits(q, s, m) ==> Computing(D, q[..m], s) == 0.0
    ensures Hits(q, s, m) ==> q[m - 1] in execs && t + Computing(D, q[..m], s) - Repeated(m, eps) <= execs[q[m - 1]].finish
    decreases m
  {
    if m > 0 {
      Packed(D, execs, q, eps, s, t, m - 1);
      var r := q[m - 1];
      assert q[..m][..m - 1] == q[..m - 1] && q[..m][m - 1] == r;
      assert Timed(D, execs, r);
      assert r in s ==> StartsFrom(execs, r, t);
      if m > 1 {
        assert Apart(execs, q, eps, m - 2);
      }
    }
  }

  // ----- a layer and its screening plan -----

  function OutFlowOf(L: Layer, a: AssignmentId): Flow
    requires a < |L.bindings|
  {
    var path := L.bindings[a].outbound;
    Flow(a, path.src, path.dst, L.hiddenBytes, 0.0, path.route)
  }

  lemma OutFlowOfIsValid(topo: Topology, L: Layer, a: AssignmentId)
    requires ValidLayer(topo, L) && a < |L.bindings|
    ensures ValidFlow(topo, OutFlowOf(L, a))
  {
    assert ValidBinding(topo, L, a);
  }

  /** Both engines bind a to the same replica, on the same chip. */
  predicate SameJob(L: Layer, P: FastPlan, a: AssignmentId) {
    && a < |L.bindings| && a < |P.jobs| && P.jobs[a].replica == ReplicaOf(L, a)
    && P.jobs[a].replica in P.chipOf && P.jobs[a].replica in L.chipOf && P.chipOf[P.jobs[a].replica] == L.chipOf[P.jobs[a].replica]
  }

  ghost predicate SameJobs(L: Layer, P: FastPlan) {
    |P.jobs| == |L.bindings| && forall a {:trigger SameJob(L, P, a)} | 0 <= a < |L.bindings| :: SameJob(L, P, a)
  }

  /** The estimate for a is no longer than its dispatch flow takes on an idle
      network, and the screened latency of its batch no longer than the real. */
  predicate JobFits(topo: Topology, L: Layer, P: FastPlan, a: AssignmentId) {
    && ValidTopology(topo) && a < |L.bindings| && a < |P.jobs| && ValidFlow(topo, OutFlowOf(L, a))
    && (P.jobs[a].dispatch.Finite? ==> 0.0 <= P.jobs[a].dispatch.value <= IdealFinish(topo, OutFlowOf(L, a)))
    && P.jobs[a].replica in P.duration && P.jobs[a].replica in L.duration && P.duration[P.jobs[a].replica] <= L.duration[P.jobs[a].replica]
  }

  ghost predicate JobsFit(topo: Topology, L: Layer, P: FastPlan) {
    forall a {:trigger JobFits(topo, L, P, a)} | 0 <= a < |L.bindings| :: JobFits(topo, L, P, a)
  }

  lemma SameBatches(L: Layer, P: FastPlan)
    requires SameJobs(L, P)
    ensures FastReplicas(P) == Replicas(L) && FastChips(P) == Chips(L)
    ensures forall r :: FastMembers(P, r) == Members(L, r)
    ensures forall r | r in Replicas(L) :: r in P.chipOf && r in L.chipOf && P.chipOf[r] == L.chipOf[r]
  {
    forall a | 0 <= a < |L.bindings|
      ensures P.jobs[a].replica == ReplicaOf(L, a)
    {
      assert SameJob(L, P, a);
    }
    forall r | r in Replicas(L)
      ensures r in P.chipOf && r in L.chipOf && P.chipOf[r] == L.chipOf[r]
    {
      var a: nat :| 0 <= a < |L.bindings| && ReplicaOf(L, a) == r;
      assert SameJob(L, P, a);
    }
  }

  // ----- the comparison -----

  /** No batch starts before the dispatch flow of a member could have arrived. */
  lemma StartsAfterFlow(c: Config, n: Net, L: Layer, e: Engine, a: AssignmentId, slack: real)
    requires Sound(c, n, L, e) && ValidLayer(c.topo, L) && a < |L.bindings| && ReplicaOf(L, a) in e.execs && L.start == 0.0
    requires NotShared(L) && WithinSlack(c, L, slack)
    ensures ValidTopology(c.topo) && ValidFlow(c.topo, OutFlowOf(L, a))
    ensures IdealFinish(c.topo, OutFlowOf(L, a)) - slack <= e.execs[ReplicaOf(L, a)].start
  {
    assert Core(c, n, L, e);
    JourneyOut(c, n, L, e, a);
    var g := L.outward.of[a];
    assert InGroup(L.outward, a) && IsLone(L, g);
    assert L.outward.groups[g] == [a];
    assert SlackWithin(c, L, a, slack);
    SameEstimate(c, OutFlow(L, g), OutFlowOf(L, a));
  }

  /** A batch cannot arrive earlier than estimated. */
  lemma ArrivesNoEarlier(c: Config, n: Net, L: Layer, e: Engine, P: FastPlan, r: ReplicaId, slack: real)
    requires Sound(c, n, L, e) && ValidLayer(c.topo, L) && r in e.execs && L.start == 0.0
    requires NotShared(L) && WithinSlack(c, L, slack) && ValidFast(P) && r in FastReplicas(P)
    requires FastMembers(P, r) == Members(L, r) && JobsFit(c.topo, L, P) && |P.jobs| == |L.bindings|
    ensures FastArrival(P, r).Finite? ==> FastArrival(P, r).value - slack <= e.execs[r].start
  {
    var a: nat :| a in FastMembers(P, r) && P.jobs[a].dispatch == FastArrival(P, r);
    assert JobFits(c.topo, L, P, a) && a in Members(L, r);
    StartsAfterFlow(c, n, L, e, a, slack);
  }

  /** How far the tolerances let the dispatch flow of a arrive early. */
  predicate SlackWithin(c: Config, L: Layer, a: AssignmentId, slack: real)
    requires a < |L.bindings|
  {
    ValidTopology(c.topo) && ValidFlow(c.topo, OutFlowOf(L, a)) && Slack(c, OutFlowOf(L, a)) <= slack
  }

  ghost predicate WithinSlack(c: Config, L: Layer, slack: real) {
    forall a: nat {:trigger SlackWithin(c, L, a, slack)} | a < |L.bindings| :: SlackWithin(c, L, a, slack)
  }

  /** Every assignment has a dispatch flow of its own. */
  ghost predicate NotShared(L: Layer) {
    forall g: nat {:trigger IsLone(L, g)} | g < |L.outward.groups| :: IsLone(L, g)
  }

  predicate IsLone(L: Layer, g: nat)
    requires g < |L.outward.groups|
  {
    |L.outward.groups[g]| == 1
  }

  lemma SameEstimate(c: Config, f: Flow, g: Flow)
    requires ValidTopology(c.topo) && ValidFlow(c.topo, f) && ValidFlow(c.topo, g)
    requires f == g.(id := f.id)
    ensures IdealFinish(c.topo, f) == IdealFinish(c.topo, g) && Slack(c, f) == Slack(c, g)
  {
  }

  lemma LongerThanZero(topo: Topology, L: Layer, r: ReplicaId)
    requires ValidLayer(topo, L) && r in Replicas(L)
    ensures r in L.duration && L.duration[r] > 0.0 && r in L.chipOf && L.chipOf[r] in Chips(L)
  {
    var a: nat :| 0 <= a < |L.bindings| && ReplicaOf(L, a) == r;
    assert ValidBinding(topo, L, a);
  }

  lemma LogKnown(c: Config, n: Net, L: Layer, e: Engine, chip: ChipId)
    requires Sound(c, n, L, e) && chip in Chips(L) && e.execs.Keys == Replicas(L)
    ensures chip in e.log && NoOverlap(L.duration, e.execs, e.log[chip], c.epsTime) && c.epsTime >= 0.0
    ensures forall r :: r in e.log[chip] <==> r in Replicas(L) && r in L.chipOf && L.chipOf[r] == chip
    ensures NoRepeat(e.log[chip])
  {
    assert Core(c, n, L, e);
    var q := e.log[chip];
    assert LogOk(e.execs, e.heap, chip, q, c.epsTime);
    forall r | r in Replicas(L)
      ensures r in L.chipOf && (r in q <==> L.chipOf[r] == chip)
    {
      assert ExecOk(L, e.arrived, e.execs, r);
    }
    forall i | 0 <= i < |q|
      ensures Timed(L.duration, e.execs, q[i])
    {
      assert q[i] in q;
      assert ExecOk(L, e.arrived, e.execs, q[i]);
      LongerThanZero(c.topo, L, q[i]);
    }
    assert forall i: nat, j: nat | i < j < |q| :: Differ(q, i, j);
    forall i: nat | i + 1 < |q|
      ensures Apart(e.execs, q, c.epsTime, i)
    {
      assert FollowsAt(e.execs, e.heap, q, c.epsTime, i);
    }
  }

  lemma SliceMember(q: seq<nat>, k: nat, i: nat, x: nat) returns (j: nat)
    requires k <= i < |q| && x in ElementSet(q[k..i + 1])
    ensures k <= j <= i && q[j] == x && x in q
  {
    var p := q[k..i + 1];
    var d :| 0 <= d < |p| && p[d] == x;
    j := k + d;
  }

  lemma SortedLists(at: FastTimes, q: seq<ReplicaId>, s: set<ReplicaId>)
    requires (forall r :: r in q <==> r in s) && s <= at.Keys && NotNegative(at)
    requires forall i, j {:trigger q[i], q[j]} | 0 <= i < j < |q| :: ArrivesBefore(at, q[i], q[j])
    ensures Lists(at, q, s)
  {
    forall i: nat, j: nat | i <= j < |q|
      ensures (i < j ==> Differ(q, i, j)) && NotLater(at, q, i, j)
    {
      assert q[i] in q && q[j] in q;
    }
  }

  lemma OrderLists(P: FastPlan, chip: ChipId)
    requires ValidFast(P) && NotNegative(FastArrivals(P))
    ensures Lists(FastArrivals(P), FastOrder(P, chip), OnChip(P, chip))
  {
    OrderIsByArrival(OnChip(P, chip), FastArrivals(P));
    SortedLists(FastArrivals(P), FastOrder(P, chip), OnChip(P, chip));
  }

  lemma ArrivalsNotNegative(topo: Topology, L: Layer, P: FastPlan)
    requires ValidFast(P) && JobsFit(topo, L, P) && |P.jobs| == |L.bindings|
    ensures NotNegative(FastArrivals(P))
  {
    forall r | r in FastReplicas(P) && FastArrival(P, r).Finite?
      ensures FastArrival(P, r).value >= 0.0
    {
      var a: nat :| a in FastMembers(P, r) && P.jobs[a].dispatch == FastArrival(P, r);
      assert JobFits(topo, L, P, a);
    }
  }

  predicate OnArrival(execs: Executions, at: FastTimes, r: ReplicaId, slack: real) {
    r in at && r in execs && (at[r].Finite? ==> at[r].value - slack <= execs[r].start)
  }

  /** No batch starts earlier than it could have arrived. */
  ghost predicate StartsOnArrival(execs: Executions, at: FastTimes, s: set<ReplicaId>, slack: real) {
    forall r {:trigger OnArrival(execs, at, r, slack)} | r in s :: OnArrival(execs, at, r, slack)
  }

  lemma PeriodStarts(execs: Executions, at: FastTimes, q: seq<ReplicaId>, s: set<ReplicaId>, k: nat, i: nat, slack: real)
    requires Lists(at, q, s) && StartsOnArrival(execs, at, s, slack) && k <= i < |q| && q[k] in at && q[i] in at
    requires at[q[k]].Finite? && at[q[i]].Finite?
    ensures ElementSet(q[k..i + 1]) <= s && AllFrom(execs, ElementSet(q[k..i + 1]), at[q[k]].value - slack)
  {
    forall r | r in ElementSet(q[k..i + 1])
      ensures r in s && StartsFrom(execs, r, at[q[k]].value - slack)
    {
      var j := SliceMember(q, k, i, r);
      assert NotLater(at, q, k, j) && NotLater(at, q, j, i) && r in ElementSet(q);
      assert OnArrival(execs, at, r, slack);
    }
  }

  /** A busy period of the screening model fits before the end of any schedule
      of the same batches in which none starts before it could have arrived. */
  lemma PeriodFits(D: Latencies, execs: Executions, log: seq<ReplicaId>, eps: real, q: seq<ReplicaId>, k: nat, i: nat, t: real)
    requires NoOverlap(D, execs, log, eps) && eps >= 0.0 && k <= i < |q| && NoRepeat(q) && NoRepeat(log)
    requires ElementSet(q[k..i + 1]) <= ElementSet(log) && AllFrom(execs, ElementSet(q[k..i + 1]), t)
    ensures log != [] && log[|log| - 1] in execs
    ensures t + Computing(D, q[k..i + 1], ElementSet(q[k..i + 1])) - Repeated(|log|, eps) <= execs[log[|log| - 1]].finish
  {
    var p := q[k..i + 1];
    var s := ElementSet(p);
    forall a, b | 0 <= a < b < |p|
      ensures p[a] != p[b]
    {
      assert Differ(q, k + a, k + b);
    }
    assert p[0] in s;
    var j :| 0 <= j < |log| && log[j] == p[0];
    HitsIfMember(log, s, |log|, j);
    assert log[..|log|] == log;
    Packed(D, execs, log, eps, s, t, |log|);
    assert Timed(D, execs, log[|log| - 1]);
    SlicesCompute(D, p, log);
  }

  lemma SlicesCompute(D: Latencies, p: seq<ReplicaId>, log: seq<ReplicaId>)
    requires forall a, b | 0 <= a < b < |p| :: p[a] != p[b]
    requires NoRepeat(log) && ElementSet(p) <= ElementSet(log)
    ensures Computing(D, log, ElementSet(p)) == Computing(D, p, ElementSet(p))
  {
    forall a, b | 0 <= a < b < |log|
      ensures log[a] != log[b]
    {
      assert Differ(log, a, b);
    }
    SameComputing(D, p, log);
  }

  /** The latencies of the plan are no longer than D, for the batches of q. */
  predicate NoLonger(P: FastPlan, D: Latencies, q: seq<ReplicaId>) {
    forall r | r in q :: Duration(P.duration, r) <= Duration(D, r)
  }

  /** The same batches, screened and scheduled. */
  lemma ScreenedNeverLater(D: Latencies, execs: Executions, log: seq<ReplicaId>, eps: real, P: FastPlan, at: FastTimes, runs: FastRuns,
                           chip: ChipId, q: seq<ReplicaId>, i: nat, slack: real)
    requires NoOverlap(D, execs, log, eps) && eps >= 0.0 && NoRepeat(log) && NoLonger(P, D, q)
    requires Lists(at, q, ElementSet(log)) && FastChip(P, at, runs, chip, q) && i < |q| && q[i] in at && at[q[i]].Finite?
    requires StartsOnArrival(execs, at, ElementSet(log), slack)
    ensures q[i] in runs && runs[q[i]].finish.Finite? && log != [] && log[|log| - 1] in execs
    ensures runs[q[i]].finish.value - slack - Repeated(|log|, eps) <= execs[log[|log| - 1]].finish
  {
    var k := BusyPeriod(P, at, runs, chip, q, ElementSet(log), i);
    var p := q[k..i + 1];
    PeriodStarts(execs, at, q, ElementSet(log), k, i, slack);
    PeriodFits(D, execs, log, eps, q, k, i, at[q[k]].value - slack);
    ComputingMonotone(P.duration, D, p, ElementSet(p));
  }

  lemma AllStartOnArrival(c: Config, n: Net, L: Layer, e: Engine, P: FastPlan, chip: ChipId, slack: real)
    requires Sound(c, n, L, e) && ValidLayer(c.topo, L) && e.execs.Keys == Replicas(L) && L.start == 0.0
    requires NotShared(L) && WithinSlack(c, L, slack) && ValidFast(P) && SameJobs(L, P) && JobsFit(c.topo, L, P)
    ensures StartsOnArrival(e.execs, FastArrivals(P), OnChip(P, chip), slack)
  {
    SameBatches(L, P);
    forall r | r in OnChip(P, chip)
      ensures OnArrival(e.execs, FastArrivals(P), r, slack)
    {
      ArrivesNoEarlier(c, n, L, e, P, r, slack);
    }
  }

  lemma PlanNoLonger(topo: Topology, L: Layer, P: FastPlan, q: seq<ReplicaId>)
    requires SameJobs(L, P) && JobsFit(topo, L, P) && forall r | r in q :: r in FastReplicas(P)
    ensures NoLonger(P, L.duration, q)
  {
    forall r | r in q
      ensures Duration(P.duration, r) <= Duration(L.duration, r)
    {
      var a: nat :| 0 <= a < |P.jobs| && P.jobs[a].replica == r;
      assert JobFits(topo, L, P, a);
    }
  }

  lemma LogIsOnChip(L: Layer, P: FastPlan, chip: ChipId, log: seq<ReplicaId>)
    requires SameJobs(L, P) && forall r :: r in log <==> r in Replicas(L) && r in L.chipOf && L.chipOf[r] == chip
    ensures ElementSet(log) == OnChip(P, chip)
  {
    SameBatches(L, P);
  }

  lemma PlanLists(topo: Topology, L: Layer, P: FastPlan, chip: ChipId, log: seq<ReplicaId>)
    requires ValidFast(P) && SameJobs(L, P) && JobsFit(topo, L, P)
    requires forall r :: r in log <==> r in Replicas(L) && r in L.chipOf && L.chipOf[r] == chip
    ensures ElementSet(log) == OnChip(P, chip) && Lists(FastArrivals(P), FastOrder(P, chip), ElementSet(log))
    ensures NoLonger(P, L.duration, FastOrder(P, chip)) && forall r | r in FastOrder(P, chip) :: r in FastReplicas(P)
  {
    LogIsOnChip(L, P, chip, log);
    ArrivalsNotNegative(topo, L, P);
    OrderLists(P, chip);
    OrderIsByArrival(OnChip(P, chip), FastArrivals(P));
    PlanNoLonger(topo, L, P, FastOrder(P, chip));
  }

  /** One chip, screened in order q and scheduled in order log: no batch starts
      before it could have arrived, nor takes less time than screened. */
  ghost predicate OneChip(execs: Executions, log: seq<ReplicaId>, D: Latencies, eps: real, P: FastPlan, at: FastTimes, q: seq<ReplicaId>, slack: real) {
    && NoOverlap(D, execs, log, eps) && eps >= 0.0 && NoRepeat(log) && NoLonger(P, D, q)
    && Lists(at, q, ElementSet(log)) && StartsOnArrival(execs, at, ElementSet(log), slack)
  }

  /** `OneChip`, to be opened by naming it. */
  ghost predicate Comparable(execs: Executions, log: seq<ReplicaId>, D: Latencies, eps: real, P: FastPlan, at: FastTimes, q: seq<ReplicaId>, slack: real) {
    forall x {:trigger OneChip(x, log, D, eps, P, at, q, slack)} | x == execs :: OneChip(x, log, D, eps, P, at, q, slack)
  }

  lemma LayerIsComparable(c: Config, n: Net, L: Layer, e: Engine, P: FastPlan, chip: ChipId, slack: real)
    requires Sound(c, n, L, e) && ValidLayer(c.topo, L) && e.execs.Keys == Replicas(L)
    requires L.start == 0.0 && chip in Chips(L) && NotShared(L) && WithinSlack(c, L, slack)
    requires ValidFast(P) && SameJobs(L, P) && JobsFit(c.topo, L, P)
    ensures chip in e.log && Comparable(e.execs, e.log[chip], L.duration, c.epsTime, P, FastArrivals(P), FastOrder(P, chip), slack)
    ensures forall r | r in FastOrder(P, chip) :: r in FastReplicas(P)
  {
    LogKnown(c, n, L, e, chip);
    PlanLists(c.topo, L, P, chip, e.log[chip]);
    AllStartOnArrival(c, n, L, e, P, chip, slack);
    assert OneChip(e.execs, e.log[chip], L.duration, c.epsTime, P, FastArrivals(P), FastOrder(P, chip), slack);
  }

  lemma BoundAt(execs: Executions, log: seq<ReplicaId>, D: Latencies, eps: real, P: FastPlan, at: FastTimes, runs: FastRuns,
                chip: ChipId, q: seq<ReplicaId>, i: nat, slack: real)
    requires Comparable(execs, log, D, eps, P, at, q, slack) && FastChip(P, at, runs, chip, q) && i < |q|
    ensures q[i] in runs && q[i] in at && (runs[q[i]].finish.Finite? <==> at[q[i]].Finite?)
    ensures log != [] && log[|log| - 1] in execs
    ensures runs[q[i]].finish.Finite? ==> runs[q[i]].finish.value - slack - Repeated(|log|, eps) <= execs[log[|log| - 1]].finish
  {
    assert OneChip(execs, log, D, eps, P, at, q, slack);
    assert FastAt(P, at, runs, chip, q, i);
    assert q[i] in ElementSet(q);
    if at[q[i]].Finite? {
      ScreenedNeverLater(D, execs, log, eps, P, at, runs, chip, q, i, slack);
    } else {
      NeverArrives(P, at, runs, chip, q, i);
      assert log[|log| - 1] in log;
      assert Timed(D, execs, log[|log| - 1]);
    }
  }

  /** Batch i of a chip is screened no later than the chip's last batch ends,
      up to some time, unless one of its estimates is infinite. */
  ghost predicate Bounded(L: Layer, e: Engine, P: FastPlan, runs: FastRuns, chip: ChipId, i: nat, upTo: real)
    requires ValidFast(P) && i < |FastOrder(P, chip)|
  {
    var r := FastOrder(P, chip)[i];
    && r in runs && r in FastReplicas(P) && (runs[r].finish.Finite? <==> FastArrival(P, r).Finite?)
    && chip in e.log && e.log[chip] != [] && e.log[chip][|e.log[chip]| - 1] in e.execs
    && (runs[r].finish.Finite? ==> runs[r].finish.value - upTo <= e.execs[e.log[chip][|e.log[chip]| - 1]].finish)
  }

  /** Screening bounds the event loop. Without dispatch deduplication, from time
      0, with estimates no longer than the dispatch flows and latencies no
      longer than the real ones: once all batches have run, a batch of the
      screening model finishes no later than the last batch of its chip, up to
      the tolerances, unless one of its estimates is infinite. */
  lemma FastNeverLater(c: Config, n: Net, L: Layer, e: Engine, P: FastPlan, runs: FastRuns, chip: ChipId, i: nat, slack: real)
    requires Sound(c, n, L, e) && ValidLayer(c.topo, L) && e.execs.Keys == Replicas(L)
    requires L.start == 0.0 && chip in Chips(L) && NotShared(L) && WithinSlack(c, L, slack)
    requires ValidFast(P) && SameJobs(L, P) && JobsFit(c.topo, L, P) && FastOn(P, runs, chip) && i < |FastOrder(P, chip)|
    ensures chip in e.log && Bounded(L, e, P, runs, chip, i, slack + Repeated(|e.log[chip]|, c.epsTime))
  {
    LayerIsComparable(c, n, L, e, P, chip, slack);
    BoundAt(e.execs, e.log[chip], L.duration, c.epsTime, P, FastArrivals(P), runs, chip, FastOrder(P, chip), i, slack);
  }

  lemma NoSlack(c: Config, flow: Flow)
    requires ValidTopology(c.topo) && ValidFlow(c.topo, flow) && c.epsTime == 0.0 && c.epsBytes == 0.0
    ensures Slack(c, flow) == 0.0
  {
  }

  lemma {:induction false} NoDrift(m: nat)
    ensures Repeated(m, 0.0) == 0.0
  {
    if m > 0 {
      NoDrift(m - 1);
    }
  }

  /** With no tolerance: exactly never later. */
  lemma FastIsLowerBound(c: Config, n: Net, L: Layer, e: Engine, P: FastPlan, runs: FastRuns, chip: ChipId, i: nat)
    requires Sound(c, n, L, e) && ValidLayer(c.topo, L) && e.execs.Keys == Replicas(L)
    requires L.start == 0.0 && chip in Chips(L) && c.epsTime == 0.0 && c.epsBytes == 0.0 && NotShared(L)
    requires ValidFast(P) && SameJobs(L, P) && JobsFit(c.topo, L, P) && FastOn(P, runs, chip) && i < |FastOrder(P, chip)|
    ensures Bounded(L, e, P, runs, chip, i, 0.0)
  {
    forall a: nat | a < |L.bindings|
      ensures SlackWithin(c, L, a, 0.0)
    {
      assert JobFits(c.topo, L, P, a);
      NoSlack(c, OutFlowOf(L, a));
    }
    FastNeverLater(c, n, L, e, P, runs, chip, i, 0.0);
    NoDrift(|e.log[chip]|);
  }
}
