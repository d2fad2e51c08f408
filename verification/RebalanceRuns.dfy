/** What a run of the rebalancer is: best moves until none helps or the passes
    are spent, then best swaps. */
module RebalanceRuns {
  import opened Basics
  import opened ReplicaPlans
  import opened Rebalancing

  /** Imbalance over nodes and over chips. */
  datatype Metrics = Metrics(node: real, chip: real)

  /** What the planner works with; the first `fixed` replicas stay. */
  datatype Task = Task(
    inv: Inventory,
    brain: seq<ChipId>,
    measure: seq<ReplicaSpec> -> Metrics,
    load: (seq<ReplicaSpec>, ChipId) -> real,
    tolerance: real,
    fixed: nat)

  /** a comes before b: by node plus a quarter of chip, then by node. */
  predicate Better(a: Metrics, b: Metrics) {
    || a.node + 0.25 * a.chip < b.node + 0.25 * b.chip
    || (a.node + 0.25 * a.chip == b.node + 0.25 * b.chip && a.node < b.node)
  }

  /** The gain of going from rs to rs' is more than the tolerance. */
  predicate Gains(g: Task, rs: seq<ReplicaSpec>, rs': seq<ReplicaSpec>) {
    g.measure(rs').node + 0.25 * g.measure(rs').chip < g.measure(rs).node + 0.25 * g.measure(rs).chip - g.tolerance
  }

  function Movable(g: Task, rs: seq<ReplicaSpec>): seq<ReplicaSpec> {
    if g.fixed <= |rs| then rs[g.fixed..] else []
  }

  /** sums[k] is the load of the chips from k on. */
  ghost predicate SumsFrom(g: Task, rs: seq<ReplicaSpec>, sums: seq<real>) {
    && |sums| == |g.brain| + 1 && sums[|g.brain|] == 0.0
    && forall k {:trigger sums[k]} | 0 <= k < |g.brain| :: sums[k] == g.load(Movable(g, rs), g.brain[k]) + sums[k + 1]
  }

  /** The load is above, or below, the mean over the chips. */
  ghost predicate Off(g: Task, rs: seq<ReplicaSpec>, chip: ChipId, above: bool) {
    exists sums {:trigger SumsFrom(g, rs, sums)} :: SumsFrom(g, rs, sums) && g.brain != []
      && var mean := sums[0] / |g.brain| as real;
         if above then g.load(Movable(g, rs), chip) > mean else g.load(Movable(g, rs), chip) < mean
  }

  // ----- moves -----

  /** A move the planner may make: from above the mean to below it. */
  ghost predicate MoveOpen(g: Task, rs: seq<ReplicaSpec>, p: nat, target: ChipId) {
    && g.fixed <= p < |rs| && target in g.brain && CanMove(g.inv, rs, p, target)
    && Off(g, rs, rs[p].chip, true) && Off(g, rs, target, false)
  }

  function Relocated(rs: seq<ReplicaSpec>, p: nat, target: ChipId): seq<ReplicaSpec> {
    if p < |rs| then rs[p := rs[p].(chip := target)] else rs
  }

  /** Moving p to t is measured no worse than moving q to u; ties go to the
      smaller chip, then to the earlier replica. */
  predicate MoveFirst(g: Task, rs: seq<ReplicaSpec>, p: nat, t: ChipId, q: nat, u: ChipId) {
    var a, b := g.measure(Relocated(rs, p, t)), g.measure(Relocated(rs, q, u));
    Better(a, b) || (a == b && (t < u || (t == u && p <= q)))
  }

  ghost predicate BestMoveIs(g: Task, rs: seq<ReplicaSpec>, p: nat, target: ChipId) {
    && MoveOpen(g, rs, p, target)
    && forall q, u {:trigger MoveOpen(g, rs, q, u)} | MoveOpen(g, rs, q, u) :: MoveFirst(g, rs, p, target, q, u)
  }

  /** rs' is rs after its best move, which gains. */
  ghost predicate MoveStep(g: Task, rs: seq<ReplicaSpec>, rs': seq<ReplicaSpec>) {
    Gains(g, rs, rs') && exists p, target {:trigger BestMoveIs(g, rs, p, target)} :: BestMoveIs(g, rs, p, target) && rs' == Relocated(rs, p, target)
  }

  /** No open move gains. */
  ghost predicate MovesEnd(g: Task, rs: seq<ReplicaSpec>) {
    forall p, target {:trigger MoveOpen(g, rs, p, target)} | MoveOpen(g, rs, p, target) :: !Gains(g, rs, Relocated(rs, p, target))
  }

  // ----- swaps -----

  ghost predicate SwapOpen(g: Task, rs: seq<ReplicaSpec>, p: nat, q: nat) {
    && g.fixed <= p < |rs| && g.fixed <= q < |rs| && CanSwap(g.inv, rs, p, q)
    && Off(g, rs, rs[p].chip, true) && Off(g, rs, rs[q].chip, false)
  }

  function Exchanged(rs: seq<ReplicaSpec>, p: nat, q: nat): seq<ReplicaSpec> {
    if p < |rs| && q < |rs| then rs[p := rs[p].(chip := rs[q].chip)][q := rs[q].(chip := rs[p].chip)] else rs
  }

  predicate SwapFirst(g: Task, rs: seq<ReplicaSpec>, p: nat, q: nat, x: nat, y: nat)
    requires p < |rs| && q < |rs| && x < |rs| && y < |rs|
  {
    var a, b := g.measure(Exchanged(rs, p, q)), g.measure(Exchanged(rs, x, y));
    Better(a, b) || (a == b &&
    (rs[p].chip < rs[x].chip || (rs[p].chip == rs[x].chip &&
    (rs[q].chip < rs[y].chip || (rs[q].chip == rs[y].chip &&
    (p < x || (p == x && q <= y)))))))
  }

  ghost predicate BestSwapIs(g: Task, rs: seq<ReplicaSpec>, p: nat, q: nat) {
    && SwapOpen(g, rs, p, q)
    && forall x, y {:trigger SwapOpen(g, rs, x, y)} | SwapOpen(g, rs, x, y) :: SwapFirst(g, rs, p, q, x, y)
  }

  ghost predicate SwapStep(g: Task, rs: seq<ReplicaSpec>, rs': seq<ReplicaSpec>) {
    Gains(g, rs, rs') && exists p, q {:trigger BestSwapIs(g, rs, p, q)} :: BestSwapIs(g, rs, p, q) && rs' == Exchanged(rs, p, q)
  }

  ghost predicate SwapsEnd(g: Task, rs: seq<ReplicaSpec>) {
    forall p, q {:trigger SwapOpen(g, rs, p, q)} | SwapOpen(g, rs, p, q) :: !Gains(g, rs, Exchanged(rs, p, q))
  }

  // ----- runs -----

  ghost predicate OneStep(g: Task, swaps: bool, rs: seq<ReplicaSpec>, rs': seq<ReplicaSpec>) {
    if swaps then SwapStep(g, rs, rs') else MoveStep(g, rs, rs')
  }

  /** `OneStep`, to be opened by naming it. */
  ghost predicate Step(g: Task, swaps: bool, rs: seq<ReplicaSpec>, rs': seq<ReplicaSpec>) {
    forall x {:trigger OneStep(g, swaps, x, rs')} | x == rs :: OneStep(g, swaps, x, rs')
  }

  ghost predicate Ends(g: Task, swaps: bool, rs: seq<ReplicaSpec>) {
    if swaps then SwapsEnd(g, rs) else MovesEnd(g, rs)
  }

  /** n steps lead from rs to rs'. */
  ghost predicate Steps(g: Task, swaps: bool, rs: seq<ReplicaSpec>, rs': seq<ReplicaSpec>, n: nat)
    decreases n
  {
    if n == 0 then rs' == rs
    else exists mid {:trigger Step(g, swaps, mid, rs')} :: Steps(g, swaps, rs, mid, n - 1) && Step(g, swaps, mid, rs')
  }

  /** Steps until none gains, at most `passes` of them. */
  ghost predicate Phase(g: Task, swaps: bool, rs: seq<ReplicaSpec>, rs': seq<ReplicaSpec>, passes: nat) {
    exists n: nat {:trigger Steps(g, swaps, rs, rs', n)} :: n <= passes && Steps(g, swaps, rs, rs', n)
      && (n < passes ==> Ends(g, swaps, rs'))
  }

  /** Moves, then swaps. */
  ghost predicate Rebalances(g: Task, rs: seq<ReplicaSpec>, rs': seq<ReplicaSpec>, passes: nat) {
    exists mid {:trigger Phase(g, false, rs, mid, passes)} :: Phase(g, false, rs, mid, passes) && Phase(g, true, mid, rs', passes)
  }

  predicate NoWorse(g: Task, rs: seq<ReplicaSpec>, rs': seq<ReplicaSpec>) {
    g.measure(rs').node + 0.25 * g.measure(rs').chip <= g.measure(rs).node + 0.25 * g.measure(rs).chip
  }

  lemma LastStep(g: Task, swaps: bool, rs: seq<ReplicaSpec>, rs': seq<ReplicaSpec>, n: nat) returns (mid: seq<ReplicaSpec>)
    requires n > 0 && Steps(g, swaps, rs, rs', n)
    ensures Steps(g, swaps, rs, mid, n - 1) && Step(g, swaps, mid, rs')
  {
    mid :| Steps(g, swaps, rs, mid, n - 1) && Step(g, swaps, mid, rs');
  }

  lemma StepGains(g: Task, swaps: bool, rs: seq<ReplicaSpec>, rs': seq<ReplicaSpec>)
    requires Step(g, swaps, rs, rs')
    ensures Gains(g, rs, rs') && !Ends(g, swaps, rs)
  {
    assert OneStep(g, swaps, rs, rs');
    if swaps {
      var p, q :| BestSwapIs(g, rs, p, q) && rs' == Exchanged(rs, p, q);
    } else {
      var p, t :| BestMoveIs(g, rs, p, t) && rs' == Relocated(rs, p, t);
    }
  }

  lemma {:induction false} StepsGain(g: Task, swaps: bool, rs: seq<ReplicaSpec>, rs': seq<ReplicaSpec>, n: nat)
    requires Steps(g, swaps, rs, rs', n) && g.tolerance >= 0.0
    ensures NoWorse(g, rs, rs') && (n > 0 ==> Gains(g, rs, rs') && !Ends(g, swaps, rs))
    decreases n
  {
    if n > 0 {
      var mid := LastStep(g, swaps, rs, rs', n);
      StepsGain(g, swaps, rs, mid, n - 1);
      StepGains(g, swaps, mid, rs');
    }
  }

  /** A run never raises the score; it lowers it if a pass is allowed and some
      open move, or else swap, of the given placement gains, and otherwise
      leaves the placement as it is. */
  lemma RunGains(g: Task, rs: seq<ReplicaSpec>, rs': seq<ReplicaSpec>, passes: nat)
    requires Rebalances(g, rs, rs', passes) && g.tolerance >= 0.0
    ensures NoWorse(g, rs, rs')
    ensures passes > 0 && !(Ends(g, false, rs) && Ends(g, true, rs)) ==> Gains(g, rs, rs')
    ensures passes == 0 || (Ends(g, false, rs) && Ends(g, true, rs)) ==> rs' == rs
  {
    var mid :| Phase(g, false, rs, mid, passes) && Phase(g, true, mid, rs', passes);
    var n: nat :| n <= passes && Steps(g, false, rs, mid, n) && (n < passes ==> Ends(g, false, mid));
    var k: nat :| k <= passes && Steps(g, true, mid, rs', k) && (k < passes ==> Ends(g, true, rs'));
    StepsGain(g, false, rs, mid, n);
    StepsGain(g, true, mid, rs', k);
  }

  // ----- there is one outcome -----

  lemma BestIsUnique(g: Task, rs: seq<ReplicaSpec>, p: nat, t: ChipId, q: nat, u: ChipId)
    requires BestMoveIs(g, rs, p, t) && BestMoveIs(g, rs, q, u)
    ensures p == q && t == u
  {
    assert MoveFirst(g, rs, p, t, q, u) && MoveFirst(g, rs, q, u, p, t);
  }

  lemma BestSwapIsUnique(g: Task, rs: seq<ReplicaSpec>, p: nat, q: nat, x: nat, y: nat)
    requires BestSwapIs(g, rs, p, q) && BestSwapIs(g, rs, x, y)
    ensures p == x && q == y
  {
    assert SwapFirst(g, rs, p, q, x, y) && SwapFirst(g, rs, x, y, p, q);
  }

  lemma StepIsUnique(g: Task, swaps: bool, rs: seq<ReplicaSpec>, a: seq<ReplicaSpec>, b: seq<ReplicaSpec>)
    requires Step(g, swaps, rs, a) && Step(g, swaps, rs, b)
    ensures a == b
  {
    assert OneStep(g, swaps, rs, a) && OneStep(g, swaps, rs, b);
    if swaps {
      var p, q :| BestSwapIs(g, rs, p, q) && a == Exchanged(rs, p, q);
      var x, y :| BestSwapIs(g, rs, x, y) && b == Exchanged(rs, x, y);
      BestSwapIsUnique(g, rs, p, q, x, y);
    } else {
      var p, t :| BestMoveIs(g, rs, p, t) && a == Relocated(rs, p, t);
      var q, u :| BestMoveIs(g, rs, q, u) && b == Relocated(rs, q, u);
      BestIsUnique(g, rs, p, t, q, u);
    }
  }

  /** As many steps lead to the same placement. */
  lemma {:induction false} SameSteps(g: Task, swaps: bool, rs: seq<ReplicaSpec>, a: seq<ReplicaSpec>, b: seq<ReplicaSpec>, n: nat)
    requires Steps(g, swaps, rs, a, n) && Steps(g, swaps, rs, b, n)
    ensures a == b
    decreases n
  {
    if n > 0 {
      var d := LastStep(g, swaps, rs, a, n);
      var e := LastStep(g, swaps, rs, b, n);
      SameSteps(g, swaps, rs, d, e, n - 1);
      StepIsUnique(g, swaps, d, a, b);
    }
  }

  /** A run of fewer steps has not come to its end. */
  lemma {:induction false} FewerSteps(g: Task, swaps: bool, rs: seq<ReplicaSpec>, a: seq<ReplicaSpec>, b: seq<ReplicaSpec>, n: nat, k: nat)
    requires n < k && Steps(g, swaps, rs, a, n) && Steps(g, swaps, rs, b, k)
    ensures !Ends(g, swaps, a)
    decreases k
  {
    var d := LastStep(g, swaps, rs, b, k);
    if n == k - 1 {
      SameSteps(g, swaps, rs, a, d, n);
      StepGains(g, swaps, d, b);
    } else {
      FewerSteps(g, swaps, rs, a, d, n, k - 1);
    }
  }

  lemma PhaseIsUnique(g: Task, swaps: bool, rs: seq<ReplicaSpec>, a: seq<ReplicaSpec>, b: seq<ReplicaSpec>, passes: nat)
    requires Phase(g, swaps, rs, a, passes) && Phase(g, swaps, rs, b, passes)
    ensures a == b
  {
    var n: nat :| n <= passes && Steps(g, swaps, rs, a, n) && (n < passes ==> Ends(g, swaps, a));
    var k: nat :| k <= passes && Steps(g, swaps, rs, b, k) && (k < passes ==> Ends(g, swaps, b));
    if n == k { SameSteps(g, swaps, rs, a, b, n); } else if n < k { FewerSteps(g, swaps, rs, a, b, n, k); } else { FewerSteps(g, swaps, rs, b, a, k, n); }
  }

  /** A placement is rebalanced to one other. */
  lemma RunIsUnique(g: Task, rs: seq<ReplicaSpec>, a: seq<ReplicaSpec>, b: seq<ReplicaSpec>, passes: nat)
    requires Rebalances(g, rs, a, passes) && Rebalances(g, rs, b, passes)
    ensures a == b
  {
    var mid :| Phase(g, false, rs, mid, passes) && Phase(g, true, mid, a, passes);
    var half :| Phase(g, false, rs, half, passes) && Phase(g, true, half, b, passes);
    PhaseIsUnique(g, false, rs, mid, half, passes);
    PhaseIsUnique(g, true, mid, a, b, passes);
  }
}
