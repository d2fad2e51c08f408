/** The contention-free screening model. */
module FastEngines {
  import opened Basics
  import opened Communications
  import opened Layers
  import opened LayerInvariant

  /** An assignment bound to a replica, with the dispatcher's estimates. */
  datatype FastJob = FastJob(replica: ReplicaId, dispatch: Cost, combine: Cost)

  /** `duration` is what the expert's kernel model predicts for the batch. */
  datatype FastPlan = FastPlan(jobs: seq<FastJob>, chipOf: map<ReplicaId, ChipId>, duration: map<ReplicaId, real>)

  datatype FastExecution = FastExecution(chip: ChipId, count: nat, arrival: Cost, start: Cost, finish: Cost)

  type FastRuns = map<ReplicaId, FastExecution>
  type FastTimes = map<ReplicaId, Cost>

  predicate KnownJob(P: FastPlan, a: AssignmentId)
    requires a < |P.jobs|
  {
    P.jobs[a].replica in P.chipOf && P.jobs[a].replica in P.duration
  }

  predicate ValidFast(P: FastPlan) {
    forall a {:trigger KnownJob(P, a)} | 0 <= a < |P.jobs| :: KnownJob(P, a)
  }

  function FastReplicas(P: FastPlan): set<ReplicaId> {
    set a | 0 <= a < |P.jobs| :: P.jobs[a].replica
  }

  function FastMembers(P: FastPlan, r: ReplicaId): set<AssignmentId> {
    set a: nat | 0 <= a < |P.jobs| && P.jobs[a].replica == r
  }

  function FastChips(P: FastPlan): set<ChipId> {
    set r | r in FastReplicas(P) && r in P.chipOf :: P.chipOf[r]
  }

  function OnChip(P: FastPlan, chip: ChipId): set<ReplicaId> {
    set r | r in FastReplicas(P) && r in P.chipOf && P.chipOf[r] == chip
  }

  lemma ReplicaKnown(P: FastPlan, r: ReplicaId)
    requires ValidFast(P) && r in FastReplicas(P)
    ensures r in P.duration && r in P.chipOf && P.chipOf[r] in FastChips(P) && FastMembers(P, r) != {}
  {
    var a: nat :| 0 <= a < |P.jobs| && P.jobs[a].replica == r;
    assert KnownJob(P, a) && a in FastMembers(P, r);
  }

  // ----- arrivals -----

  /** t is the latest of the estimates; without an estimate there is none. */
  ghost predicate IsLatest(P: FastPlan, s: set<AssignmentId>, t: Cost) {
    && (forall a | a in s && a < |P.jobs| :: !Below(t, P.jobs[a].dispatch))
    && exists a :: a in s && a < |P.jobs| && P.jobs[a].dispatch == t
  }

  lemma LatestIsUnique(P: FastPlan, s: set<AssignmentId>, t: Cost, u: Cost)
    requires IsLatest(P, s, t) && IsLatest(P, s, u)
    ensures t == u
  {
  }

  lemma {:induction false} LatestExists(P: FastPlan, s: set<AssignmentId>) returns (t: Cost)
    requires s != {} && forall a | a in s :: a < |P.jobs|
    ensures IsLatest(P, s, t)
    decreases s
  {
    var a :| a in s;
    t := P.jobs[a].dispatch;
    var rest := s - {a};
    assert s == rest + {a};
    if rest != {} {
      var u := LatestExists(P, rest);
      t := Later(t, u);
    }
  }

  lemma HasLatest(P: FastPlan, s: set<AssignmentId>)
    requires s != {} && forall a | a in s :: a < |P.jobs|
    ensures exists t :: IsLatest(P, s, t)
  {
    var t := LatestExists(P, s);
  }

  /** When the whole batch of r would be there without contention. */
  ghost function FastArrival(P: FastPlan, r: ReplicaId): (t: Cost)
    requires ValidFast(P) && r in FastReplicas(P)
    ensures IsLatest(P, FastMembers(P, r), t)
  {
    ReplicaKnown(P, r);
    HasLatest(P, FastMembers(P, r));
    var t :| IsLatest(P, FastMembers(P, r), t);
    t
  }

  ghost function FastArrivals(P: FastPlan): (at: FastTimes)
    requires ValidFast(P)
    ensures at.Keys == FastReplicas(P)
  {
    map r | r in FastReplicas(P) :: FastArrival(P, r)
  }

  method LatestArrival(P: FastPlan, r: ReplicaId) returns (t: Cost)
    requires ValidFast(P) && r in FastReplicas(P)
    ensures t == FastArrival(P, r)
  {
    ReplicaKnown(P, r);
    var members := FastMembers(P, r);
    var first :| first in members;
    t := P.jobs[first].dispatch;
    var todo := members - {first};
    while todo != {}
      invariant todo <= members && IsLatest(P, members - todo, t)
      decreases todo
    {
      var a :| a in todo;
      t := Later(t, P.jobs[a].dispatch);
      assert members - (todo - {a}) == (members - todo) + {a};
      todo := todo - {a};
    }
    assert members - todo == members;
    LatestIsUnique(P, members, t, FastArrival(P, r));
  }

  method ArrivalTimes(P: FastPlan) returns (at: FastTimes)
    requires ValidFast(P)
    ensures at == FastArrivals(P)
  {
    at := map[];
    var todo := FastReplicas(P);
    while todo != {}
      invariant todo <= FastReplicas(P) && at.Keys == FastReplicas(P) - todo
      invariant forall r | r in at.Keys :: at[r] == FastArrival(P, r)
      decreases todo
    {
      var r :| r in todo;
      var latest := LatestArrival(P, r);
      at := at[r := latest];
      todo := todo - {r};
    }
    assert at.Keys == FastReplicas(P);
  }

  // ----- the order of a chip's batches -----

  function Reachable(s: set<ReplicaId>, at: FastTimes): set<ReplicaId> {
    set r | r in s && r in at && at[r].Finite?
  }

  function TimesOf(s: set<ReplicaId>, at: FastTimes): map<ReplicaId, real> {
    map r | r in s && r in at && at[r].Finite? :: at[r].value
  }

  /** By arrival, ties by replica; infinite arrivals come last. */
  function ByArrival(s: set<ReplicaId>, at: FastTimes): seq<ReplicaId> {
    var soon := Reachable(s, at);
    InOrder(soon, TimesOf(soon, at)) + InOrder(s - soon, Zeroes(s - soon))
  }

  predicate ArrivesBefore(at: FastTimes, r: ReplicaId, s: ReplicaId) {
    r in at && s in at && (Below(at[r], at[s]) || (at[r] == at[s] && r < s))
  }

  lemma OrderIsByArrival(s: set<ReplicaId>, at: FastTimes)
    requires s <= at.Keys
    ensures var q := ByArrival(s, at);
      (forall r :: r in q <==> r in s) && forall i, j {:trigger q[i], q[j]} | 0 <= i < j < |q| :: ArrivesBefore(at, q[i], q[j])
  {
    var soon := Reachable(s, at);
    var times, none := TimesOf(soon, at), Zeroes(s - soon);
    var a, b := InOrder(soon, times), InOrder(s - soon, none);
    var q := a + b;
    forall i, j | 0 <= i < j < |q|
      ensures ArrivesBefore(at, q[i], q[j])
    {
      assert i < |a| ==> a[i] in a;
      assert j < |a| ==> a[j] in a && Before(Key(times[a[i]], a[i]), Key(times[a[j]], a[j]));
      assert i >= |a| ==> b[i - |a|] in b && Before(Key(none[b[i - |a|]], b[i - |a|]), Key(none[b[j - |a|]], b[j - |a|]));
      assert j >= |a| ==> b[j - |a|] in b;
    }
  }

  ghost function FastOrder(P: FastPlan, chip: ChipId): seq<ReplicaId>
    requires ValidFast(P)
  {
    ByArrival(OnChip(P, chip), FastArrivals(P))
  }

  // ----- the recurrence -----

  /** Batch i of q starts when it has arrived and batch i - 1 has finished. */
  ghost predicate FastAt(P: FastPlan, at: FastTimes, runs: FastRuns, chip: ChipId, q: seq<ReplicaId>, i: nat)
    requires i < |q|
  {
    var r := q[i];
    && r in runs && r in at && r in P.duration && (i > 0 ==> q[i - 1] in runs)
    && var ready := if i == 0 then Finite(0.0) else runs[q[i - 1]].finish;
    && var start := Later(ready, at[r]);
    && runs[r] == FastExecution(chip, |FastMembers(P, r)|, at[r], start, Plus(start, Finite(P.duration[r])))
  }

  ghost predicate FastChip(P: FastPlan, at: FastTimes, runs: FastRuns, chip: ChipId, q: seq<ReplicaId>) {
    forall i: nat {:trigger FastAt(P, at, runs, chip, q, i)} | i < |q| :: FastAt(P, at, runs, chip, q, i)
  }

  ghost predicate FastUpTo(P: FastPlan, at: FastTimes, runs: FastRuns, chip: ChipId, q: seq<ReplicaId>, k: nat) {
    forall i: nat {:trigger FastAt(P, at, runs, chip, q, i)} | i < k && i < |q| :: FastAt(P, at, runs, chip, q, i)
  }

  lemma FastExtends(P: FastPlan, at: FastTimes, runs: FastRuns, chip: ChipId, q: seq<ReplicaId>, k: nat, x: FastExecution)
    requires k < |q| && FastUpTo(P, at, runs, chip, q, k) && forall i, j | 0 <= i < j < |q| :: q[i] != q[j]
    requires q[k] in at && q[k] in P.duration && (k > 0 ==> q[k - 1] in runs)
    requires var start := Later(if k == 0 then Finite(0.0) else runs[q[k - 1]].finish, at[q[k]]);
      x == FastExecution(chip, |FastMembers(P, q[k])|, at[q[k]], start, Plus(start, Finite(P.duration[q[k]])))
    ensures FastUpTo(P, at, runs[q[k] := x], chip, q, k + 1)
  {
    var runs' := runs[q[k] := x];
    forall i: nat | i < k + 1
      ensures FastAt(P, at, runs', chip, q, i)
    {
      if i < k { assert FastAt(P, at, runs, chip, q, i); }
    }
  }

  /** The batches of one chip, one after the other. */
  method RunBatches(P: FastPlan, at: FastTimes, chip: ChipId, q: seq<ReplicaId>, runs0: FastRuns) returns (runs: FastRuns)
    requires forall i, j | 0 <= i < j < |q| :: q[i] != q[j]
    requires forall i {:trigger q[i]} | 0 <= i < |q| :: q[i] in at && q[i] in P.duration && q[i] !in runs0
    ensures FastChip(P, at, runs, chip, q)
    ensures runs.Keys == runs0.Keys + ElementSet(q) && forall r | r in runs0.Keys :: runs[r] == runs0[r]
  {
    var ready := Finite(0.0);
    runs := runs0;
    var i := 0;
    while i < |q|
      invariant 0 <= i <= |q| && runs.Keys == runs0.Keys + ElementSet(q[..i])
      invariant forall r | r in runs0.Keys :: runs[r] == runs0[r]
      invariant i > 0 ==> q[i - 1] in runs && ready == runs[q[i - 1]].finish
      invariant i == 0 ==> ready == Finite(0.0)
      invariant FastUpTo(P, at, runs, chip, q, i)
    {
      var r := q[i];
      NextElement(q, i);
      var start := Later(ready, at[r]);
      var finish := Plus(start, Finite(P.duration[r]));
      FastExtends(P, at, runs, chip, q, i, FastExecution(chip, |FastMembers(P, r)|, at[r], start, finish));
      runs := runs[r := FastExecution(chip, |FastMembers(P, r)|, at[r], start, finish)];
      ready := finish;
      i := i + 1;
    }
    assert q[..i] == q;
  }

  method RunChip(P: FastPlan, at: FastTimes, chip: ChipId, runs0: FastRuns) returns (runs: FastRuns)
    requires ValidFast(P) && at == FastArrivals(P) && runs0.Keys !! OnChip(P, chip)
    ensures FastOn(P, runs, chip)
    ensures runs.Keys == runs0.Keys + OnChip(P, chip) && forall r | r in runs0.Keys :: runs[r] == runs0[r]
  {
    var q := ByArrival(OnChip(P, chip), at);
    OrderIsByArrival(OnChip(P, chip), at);
    ListsSet(q, OnChip(P, chip));
    DurationsKnown(P, q);
    assert forall i, j | 0 <= i < j < |q| :: ArrivesBefore(at, q[i], q[j]);
    runs := RunBatches(P, at, chip, q, runs0);
  }

  lemma DurationsKnown(P: FastPlan, q: seq<ReplicaId>)
    requires ValidFast(P) && forall i {:trigger q[i]} | 0 <= i < |q| :: q[i] in FastReplicas(P)
    ensures forall i {:trigger q[i]} | 0 <= i < |q| :: q[i] in P.duration
  {
    forall i | 0 <= i < |q|
      ensures q[i] in P.duration
    {
      ReplicaKnown(P, q[i]);
    }
  }

  ghost predicate FastOn(P: FastPlan, runs: FastRuns, chip: ChipId)
    requires ValidFast(P)
  {
    FastChip(P, FastArrivals(P), runs, chip, FastOrder(P, chip))
  }

  ghost predicate ChipsRun(P: FastPlan, runs: FastRuns, chips: seq<ChipId>)
    requires ValidFast(P)
  {
    forall chip {:trigger FastOn(P, runs, chip)} | chip in chips :: FastOn(P, runs, chip)
  }

  /** All chips, in order. */
  method RunChips(P: FastPlan) returns (runs: FastRuns)
    requires ValidFast(P)
    ensures runs.Keys == FastReplicas(P) && forall chip {:trigger FastOn(P, runs, chip)} | chip in FastChips(P) :: FastOn(P, runs, chip)
  {
    var at := ArrivalTimes(P);
    runs := map[];
    var chips := InOrder(FastChips(P), Zeroes(FastChips(P)));
    var i := 0;
    while i < |chips|
      invariant 0 <= i <= |chips| && runs.Keys == PlacedOn(P, chips[..i])
      invariant ChipsRun(P, runs, chips[..i])
    {
      ghost var before := runs;
      NextChip(P, chips, i);
      runs := RunChip(P, at, chips[i], runs);
      MoreRun(P, before, runs, chips, i);
      i := i + 1;
    }
    assert chips[..i] == chips;
    AllPlaced(P, chips);
  }

  lemma MoreRun(P: FastPlan, runs: FastRuns, runs': FastRuns, chips: seq<ChipId>, i: nat)
    requires ValidFast(P) && i < |chips| && ChipsRun(P, runs, chips[..i])
    requires FastOn(P, runs', chips[i]) && forall r | r in runs.Keys :: r in runs' && runs'[r] == runs[r]
    ensures ChipsRun(P, runs', chips[..i + 1])
  {
    forall chip | chip in chips[..i + 1]
      ensures FastOn(P, runs', chip)
    {
      if chip in chips[..i] {
        assert FastOn(P, runs, chip);
        FastStays(P, FastArrivals(P), runs, runs', chip, FastOrder(P, chip));
      }
    }
  }

  function PlacedOn(P: FastPlan, chips: seq<ChipId>): set<ReplicaId> {
    set r | r in FastReplicas(P) && r in P.chipOf && P.chipOf[r] in chips
  }

  lemma NextChip(P: FastPlan, chips: seq<ChipId>, i: nat)
    requires i < |chips| && forall j, k | 0 <= j < k < |chips| :: chips[j] != chips[k]
    ensures PlacedOn(P, chips[..i + 1]) == PlacedOn(P, chips[..i]) + OnChip(P, chips[i])
    ensures PlacedOn(P, chips[..i]) !! OnChip(P, chips[i])
  {
    assert chips[..i + 1] == chips[..i] + [chips[i]];
  }

  lemma AllPlaced(P: FastPlan, chips: seq<ChipId>)
    requires ValidFast(P) && forall chip :: chip in chips <==> chip in FastChips(P)
    ensures PlacedOn(P, chips) == FastReplicas(P)
  {
    forall r | r in FastReplicas(P)
      ensures r in PlacedOn(P, chips)
    {
      ReplicaKnown(P, r);
    }
  }

  lemma FastStays(P: FastPlan, at: FastTimes, runs: FastRuns, runs': FastRuns, chip: ChipId, q: seq<ReplicaId>)
    requires FastChip(P, at, runs, chip, q) && forall r | r in runs.Keys :: r in runs' && runs'[r] == runs[r]
    ensures FastChip(P, at, runs', chip, q)
  {
    forall i: nat | i < |q|
      ensures FastAt(P, at, runs', chip, q, i)
    {
      assert FastAt(P, at, runs, chip, q, i);
    }
  }

  /** The recurrence over a whole plan: every batch runs once on its chip, and
      every assignment comes back after its batch. */
  method RunPlan(P: FastPlan) returns (runs: FastRuns, combined: map<AssignmentId, Cost>)
    requires ValidFast(P)
    ensures runs.Keys == FastReplicas(P) && forall chip {:trigger FastOn(P, runs, chip)} | chip in FastChips(P) :: FastOn(P, runs, chip)
    ensures combined.Keys == FirstNats(|P.jobs|)
    ensures forall a: nat | a < |P.jobs| :: combined[a] == Plus(runs[P.jobs[a].replica].finish, P.jobs[a].combine)
  {
    runs := RunChips(P);
    combined := map a | a in FirstNats(|P.jobs|) :: Plus(runs[P.jobs[a].replica].finish, P.jobs[a].combine);
  }
}
