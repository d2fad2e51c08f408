/** Greedy rebalancing of the movable replicas of a plan. */
module Rebalancers {
  import opened Basics
  import opened ReplicaPlans
  import opened Rebalancing
  import opened RebalanceRuns

  function Score(m: Metrics): real {
    m.node + 0.25 * m.chip
  }

  /** Candidates are compared by score, then metrics, then chips. */
  datatype Rank = Rank(score: real, node: real, chip: real, first: ChipId, second: ChipId)

  predicate Lower(a: Rank, b: Rank) {
    || a.score < b.score
    || (a.score == b.score && a.node < b.node)
    || (a.score == b.score && a.node == b.node && a.chip < b.chip)
    || (a.score == b.score && a.node == b.node && a.chip == b.chip && a.first < b.first)
    || (a.score == b.score && a.node == b.node && a.chip == b.chip && a.first == b.first && a.second < b.second)
  }

  datatype Move = Move(index: nat, target: ChipId, rank: Rank, metrics: Metrics)
  datatype Swap = Swap(left: nat, right: nat, rank: Rank, metrics: Metrics)

  class Rebalancer {
    const inv: Inventory
    const brain: seq<ChipId>
    /** `placement_load_balance` of a placement. */
    const measure: seq<ReplicaSpec> -> Metrics
    /** `_aggregate_chip_loads` of the movable replicas. */
    const load: (seq<ReplicaSpec>, ChipId) -> real
    const tolerance: real
    const gpu: seq<ReplicaSpec>
    var current: seq<ReplicaSpec>
    var used: map<ChipId, nat>
    var expertsOn: map<ChipId, set<ExpertId>>
    var metrics: Metrics

    function All(): seq<ReplicaSpec>
      reads this
    {
      gpu + current
    }

    function Goal(): Task
      reads this
    {
      Task(inv, brain, measure, load, tolerance, |gpu|)
    }

    /** The tables equal a recount, and the placement is a valid plan. */
    ghost predicate Valid()
      reads this
    {
      && ValidPlan(inv, All()) && tolerance >= 0.0
      && (forall i {:trigger current[i]} | 0 <= i < |current| :: current[i].chip in brain)
      && TablesOk(inv, brain, All(), used, expertsOn)
      && metrics == measure(All())
    }

    constructor (inv: Inventory, brain: seq<ChipId>, measure: seq<ReplicaSpec> -> Metrics,
                 load: (seq<ReplicaSpec>, ChipId) -> real, tolerance: real, gpu: seq<ReplicaSpec>, current: seq<ReplicaSpec>)
      requires ValidPlan(inv, gpu + current) && tolerance >= 0.0 && forall c | c in brain :: c in inv.chips
      requires forall i {:trigger current[i]} | 0 <= i < |current| :: current[i].chip in brain
      requires forall i {:trigger gpu[i]} | 0 <= i < |gpu| :: gpu[i].chip !in brain
      ensures Valid() && this.current == current && this.gpu == gpu && this.inv == inv && this.brain == brain
      ensures this.measure == measure && this.load == load && this.tolerance == tolerance
    {
      this.inv, this.brain, this.measure, this.load, this.tolerance, this.gpu := inv, brain, measure, load, tolerance, gpu;
      this.current := current;
      forall i | 0 <= i < |current|
        ensures current[i].chip in brain && current[i].expert in inv.weight
      {
        assert KnownAt(inv, gpu + current, |gpu| + i);
      }
      var used0, expertsOn0 := Tables(inv, brain, current);
      used, expertsOn := used0, expertsOn0;
      metrics := measure(gpu + current);
      new;
      forall c | c in brain
        ensures TableOk(inv, All(), used, expertsOn, c)
      {
        OnlyMovable(inv, gpu, current, c);
      }
    }

    // ----- moves -----

    /** Position of a movable replica in the whole placement. */
    function At(i: nat): nat {
      |gpu| + i
    }

    function MoveRank(i: nat, target: ChipId): Rank
      reads this
      requires i < |current|
    {
      var m := measure(Moved(All(), At(i), target));
      Rank(Score(m), m.node, m.chip, target, 0)
    }

    /** The move is possible, and ranked as it is. */
    ghost predicate MoveOk(m: Move)
      reads this
    {
      && m.index < |current| && m.target in brain && CanMove(inv, All(), At(m.index), m.target)
      && m.metrics == measure(Moved(All(), At(m.index), m.target)) && m.rank == MoveRank(m.index, m.target)
    }

    /** No better move from replica i to the target. */
    ghost predicate NoBetter(i: nat, target: ChipId, best: Option<Move>)
      reads this
    {
      i < |current| && CanMove(inv, All(), At(i), target) ==>
        && best.Some? && !Lower(MoveRank(i, target), best.value.rank)
        && (MoveRank(i, target) == best.value.rank ==> best.value.index <= i)
    }

    /** The best move so far is one the planner may make, from the first i + 1
        replicas. */
    ghost predicate FoundBy(i: nat, best: Option<Move>)
      reads this
    {
      best.Some? ==> brain != [] && MoveOk(best.value) && Eligible(best.value.index, best.value.target) && best.value.index <= i
    }

    method ConsiderMove(i: nat, target: ChipId, best: Option<Move>) returns (next: Option<Move>)
      requires Valid() && brain != [] && Eligible(i, target) && FoundBy(i, best)
      ensures FoundBy(i, next)
      ensures NoBetter(i, target, next)
      ensures forall j, t {:trigger NoBetter(j, t, next)} | NoBetter(j, t, best) :: NoBetter(j, t, next)
    {
      var r := current[i];
      next := best;
      assert TableOk(inv, All(), used, expertsOn, target) && KnownAt(inv, All(), At(i)) && All()[At(i)] == r;
      if target == r.chip { return; }
      if r.expert in expertsOn[target] { return; }
      var chip := inv.chips[target];
      if chip.maxExperts.Some? && |expertsOn[target]| + 1 > chip.maxExperts.value { return; }
      if used[target] + inv.weight[r.expert] > chip.bytes { return; }
      assert CanMove(inv, All(), At(i), target);
      MoveIsValid(inv, All(), At(i), target);
      assert Moved(All(), At(i), target) == gpu + current[i := r.(chip := target)];
      var m := Evaluate(gpu + current[i := r.(chip := target)]);
      var rank := Rank(Score(m), m.node, m.chip, target, 0);
      if best.None? || Lower(rank, best.value.rank) {
        next := Some(Move(i, target, rank, m));
      }
    }

    /** Measuring a candidate: the plan constructor accepts it. */
    method Evaluate(candidate: seq<ReplicaSpec>) returns (m: Metrics)
      requires ValidPlan(inv, candidate)
      ensures m == measure(candidate)
    {
      var plan := MakePlan(inv, candidate);
      if plan.Err? {
        assert false;  // every candidate is a valid plan
      }
      m := measure(plan.value);
    }

    /** Replicas on chips above the mean load. */
    method Above(mean: real, above: bool) returns (indices: seq<nat>)
      ensures forall k {:trigger indices[k]} | 0 <= k < |indices| :: indices[k] < |current|
      ensures forall j, k | 0 <= j < k < |indices| :: indices[j] < indices[k]
      ensures forall i: nat | i < |current| :: i in indices <==>
        if above then load(current, current[i].chip) > mean else load(current, current[i].chip) < mean
    {
      indices := [];
      var i := 0;
      while i < |current|
        invariant 0 <= i <= |current| && forall k {:trigger indices[k]} | 0 <= k < |indices| :: indices[k] < i
        invariant forall j, k | 0 <= j < k < |indices| :: indices[j] < indices[k]
        invariant forall j: nat | j < i :: j in indices <==>
          if above then load(current, current[j].chip) > mean else load(current, current[j].chip) < mean
      {
        var l := load(current, current[i].chip);
        if (above && l > mean) || (!above && l < mean) { indices := indices + [i]; }
        i := i + 1;
      }
    }

    function MeanLoad(): real
      reads this
      requires brain != []
    {
      TotalOver(load, current, brain) / |brain| as real
    }

    /** A move the planner looks at: from above the mean load to below it. */
    predicate Eligible(i: nat, target: ChipId)
      reads this
      requires brain != []
    {
      i < |current| && target in brain && load(current, current[i].chip) > MeanLoad() && load(current, target) < MeanLoad()
    }

    /** The best eligible move. */
    method BestMove() returns (best: Option<Move>)
      requires Valid() && brain != []
      ensures FoundBy(|current|, best)
      ensures forall i, target {:trigger NoBetter(i, target, best)} | Eligible(i, target) :: NoBetter(i, target, best)
    {
      var mean := MeanLoad();
      var sources := Above(mean, true);
      best := None;
      var n := 0;
      while n < |sources|
        invariant 0 <= n <= |sources| && (best.Some? ==> n > 0) && (n > 0 ==> FoundBy(sources[n - 1], best))
        invariant forall i, target {:trigger NoBetter(i, target, best)} | i in sources[..n] && Eligible(i, target) :: NoBetter(i, target, best)
      {
        assert sources[..n + 1] == sources[..n] + [sources[n]];
        assert sources[n] in sources && FoundBy(sources[n], best);
        best := BestTarget(sources[n], best);
        n := n + 1;
      }
      assert sources[..n] == sources;
    }

    method BestTarget(i: nat, best: Option<Move>) returns (next: Option<Move>)
      requires Valid() && brain != [] && i < |current| && load(current, current[i].chip) > MeanLoad() && FoundBy(i, best)
      ensures FoundBy(i, next)
      ensures forall target {:trigger NoBetter(i, target, next)} | Eligible(i, target) :: NoBetter(i, target, next)
      ensures forall j, t {:trigger NoBetter(j, t, next)} | NoBetter(j, t, best) :: NoBetter(j, t, next)
    {
      var mean := MeanLoad();
      next := best;
      var n := 0;
      while n < |brain|
        invariant 0 <= n <= |brain| && FoundBy(i, next)
        invariant forall t {:trigger NoBetter(i, t, next)} | t in brain[..n] && Eligible(i, t) :: NoBetter(i, t, next)
        invariant forall j, t {:trigger NoBetter(j, t, next)} | NoBetter(j, t, best) :: NoBetter(j, t, next)
      {
        assert brain[..n + 1] == brain[..n] + [brain[n]];
        ghost var before := next;
        if load(current, brain[n]) < mean {
          next := ConsiderMove(i, brain[n], next);
        }
        assert forall j, t | NoBetter(j, t, before) :: NoBetter(j, t, next);
        n := n + 1;
      }
      assert brain[..n] == brain;
    }

    /** Move the replica and keep the tables. */
    method ApplyMove(m: Move)
      requires Valid() && MoveOk(m)
      modifies this
      ensures Valid() && All() == Moved(old(All()), At(m.index), m.target)
    {
      var r := current[m.index];
      ghost var before := All();
      assert All()[At(m.index)] == r && KnownAt(inv, before, At(m.index));
      MoveIsValid(inv, before, At(m.index), m.target);
      MoveKeepsTables(inv, brain, before, used, expertsOn, At(m.index), m.target);
      var w := inv.weight[r.expert];
      used := used[r.chip := used[r.chip] - w][m.target := used[m.target] + w];
      expertsOn := expertsOn[r.chip := expertsOn[r.chip] - {r.expert}][m.target := expertsOn[m.target] + {r.expert}];
      current := current[m.index := r.(chip := m.target)];
      metrics := m.metrics;
      assert All() == Moved(before, At(m.index), m.target);
    }

    // ----- what was found is what the task asks for -----

    lemma OpenIsEligible(i: nat, target: ChipId)
      requires brain != [] && i < |current|
      ensures MoveOpen(Goal(), All(), At(i), target) <==> Eligible(i, target) && CanMove(inv, All(), At(i), target)
    {
      assert Movable(Goal(), All()) == current;
      OffIsMean(Goal(), All(), current[i].chip);
      OffIsMean(Goal(), All(), target);
    }

    lemma FirstIsNotLower(i: nat, target: ChipId, j: nat, u: ChipId)
      requires i < |current| && j < |current|
      ensures MoveFirst(Goal(), All(), At(i), target, At(j), u) <==>
        !Lower(MoveRank(j, u), MoveRank(i, target)) && (MoveRank(j, u) == MoveRank(i, target) ==> i <= j)
    {
    }

    /** The move that was found is the best open one. */
    lemma FoundIsBest(m: Move)
      requires brain != [] && FoundBy(|current|, Some(m))
      requires forall i, target {:trigger NoBetter(i, target, Some(m))} | Eligible(i, target) :: NoBetter(i, target, Some(m))
      ensures BestMoveIs(Goal(), All(), At(m.index), m.target)
    {
      OpenIsEligible(m.index, m.target);
      forall q: nat, u | MoveOpen(Goal(), All(), q, u)
        ensures MoveFirst(Goal(), All(), At(m.index), m.target, q, u)
      {
        OpenIsEligible(q - |gpu|, u);
        assert NoBetter(q - |gpu|, u, Some(m));
        FirstIsNotLower(m.index, m.target, q - |gpu|, u);
      }
    }

    /** Either it gains, or no open move does. */
    lemma MovesJudged(best: Option<Move>, found: bool)
      requires brain != [] && FoundBy(|current|, best) && metrics == measure(All())
      requires forall i, target {:trigger NoBetter(i, target, best)} | Eligible(i, target) :: NoBetter(i, target, best)
      requires found <==> best.Some? && best.value.rank.score < Score(metrics) - tolerance
      ensures found ==> Gains(Goal(), All(), Relocated(All(), At(best.value.index), best.value.target))
      ensures !found ==> Ends(Goal(), false, All())
    {
      forall q: nat, u | MoveOpen(Goal(), All(), q, u)
        ensures !found ==> !Gains(Goal(), All(), Relocated(All(), q, u))
      {
        OpenIsEligible(q - |gpu|, u);
        assert NoBetter(q - |gpu|, u, best);
      }
    }

    /** Take the best move if it lowers the score by more than the tolerance. */
    method MovePass() returns (moved: bool)
      requires Valid() && brain != []
      modifies this
      ensures Valid() && SameReplicas(old(All()), All())
      ensures moved ==> Score(metrics) < old(Score(metrics)) - tolerance
      ensures !moved ==> All() == old(All()) && metrics == old(metrics)
      ensures if moved then Step(Goal(), false, old(All()), All()) else Ends(Goal(), false, All())
    {
      var best := BestMove();
      if best.Some? { FoundIsBest(best.value); }
      ghost var found := best.Some? && best.value.rank.score < Score(metrics) - tolerance;
      MovesJudged(best, found);
      if best.None? || best.value.rank.score >= Score(metrics) - tolerance { return false; }
      ApplyMove(best.value);
      moved := true;
    }

    // ----- swaps -----

    function SwapRank(i: nat, j: nat): Rank
      reads this
      requires i < |current| && j < |current|
    {
      var m := measure(Swapped(All(), At(i), At(j)));
      Rank(Score(m), m.node, m.chip, current[i].chip, current[j].chip)
    }

    ghost predicate SwapOk(s: Swap)
      reads this
    {
      && s.left < |current| && s.right < |current| && CanSwap(inv, All(), At(s.left), At(s.right))
      && s.metrics == measure(Swapped(All(), At(s.left), At(s.right))) && s.rank == SwapRank(s.left, s.right)
    }

    ghost predicate BeatsSwap(i: nat, j: nat, best: Option<Swap>)
      reads this
    {
      i < |current| && j < |current| && CanSwap(inv, All(), At(i), At(j)) ==>
        && best.Some? && !Lower(SwapRank(i, j), best.value.rank)
        && (SwapRank(i, j) == best.value.rank ==> best.value.left < i || (best.value.left == i && best.value.right <= j))
    }

    /** `BeatsSwap`, to be opened by naming it. */
    ghost predicate NoBetterSwap(i: nat, j: nat, best: Option<Swap>)
      reads this
    {
      forall b {:trigger BeatsSwap(i, j, b)} | b == best :: BeatsSwap(i, j, b)
    }

    /** The best swap so far is one the planner may make, and comes no later
        than the pair i, j. */
    ghost predicate SwapFound(i: nat, j: nat, best: Option<Swap>)
      reads this
    {
      best.Some? ==>
        && brain != [] && SwapOk(best.value) && EligiblePair(best.value.left, best.value.right)
        && (best.value.left < i || (best.value.left == i && best.value.right <= j))
    }

    /** `SwapFound`, to be opened by naming it. */
    ghost predicate FoundSwap(i: nat, j: nat, best: Option<Swap>)
      reads this
    {
      forall b {:trigger SwapFound(i, j, b)} | b == best :: SwapFound(i, j, b)
    }

    /** The pair i, j has been looked at, and the better of the two is kept. */
    lemma SwapKept(i: nat, j: nat, best: Option<Swap>, s: Swap)
      requires brain != [] && EligiblePair(i, j) && FoundSwap(i, j, best) && SwapOk(s) && s.left == i && s.right == j
      ensures var next := if best.None? || Lower(s.rank, best.value.rank) then Some(s) else best;
        && FoundSwap(i, j, next) && NoBetterSwap(i, j, next)
        && forall a, b {:trigger NoBetterSwap(a, b, next)} | NoBetterSwap(a, b, best) :: NoBetterSwap(a, b, next)
    {
      var next := if best.None? || Lower(s.rank, best.value.rank) then Some(s) else best;
      assert SwapFound(i, j, best);
      assert BeatsSwap(i, j, next);
      forall a: nat, b: nat | NoBetterSwap(a, b, best)
        ensures NoBetterSwap(a, b, next)
      {
        assert BeatsSwap(a, b, best);
        assert BeatsSwap(a, b, next);
      }
    }

    lemma CannotSwap(i: nat, j: nat, best: Option<Swap>)
      requires i < |current| && j < |current| && !CanSwap(inv, All(), At(i), At(j))
      ensures NoBetterSwap(i, j, best)
    {
    }

    method ConsiderSwap(i: nat, j: nat, best: Option<Swap>) returns (next: Option<Swap>)
      requires Valid() && brain != [] && EligiblePair(i, j) && FoundSwap(i, j, best)
      ensures FoundSwap(i, j, next)
      ensures NoBetterSwap(i, j, next)
      ensures forall a, b {:trigger NoBetterSwap(a, b, next)} | NoBetterSwap(a, b, best) :: NoBetterSwap(a, b, next)
    {
      var left, right := current[i], current[j];
      next := best;
      ghost var rs := All();
      if !CanSwap(inv, rs, At(i), At(j)) { CannotSwap(i, j, best); }
      assert KnownAt(inv, rs, At(i)) && KnownAt(inv, rs, At(j)) && rs[At(i)] == left && rs[At(j)] == right;
      assert TableOk(inv, rs, used, expertsOn, left.chip) && TableOk(inv, rs, used, expertsOn, right.chip);
      if j == i { return; }
      if left.expert == right.expert { return; }
      if left.chip == right.chip { return; }
      if right.expert in expertsOn[left.chip] { return; }
      if left.expert in expertsOn[right.chip] { return; }
      var a, b := inv.weight[left.expert], inv.weight[right.expert];
      if used[left.chip] - a + b > inv.chips[left.chip].bytes { return; }
      if used[right.chip] - b + a > inv.chips[right.chip].bytes { return; }
      assert CanSwap(inv, rs, At(i), At(j));
      SwapIsValid(inv, rs, At(i), At(j));
      var candidate := gpu + current[i := left.(chip := right.chip)][j := right.(chip := left.chip)];
      assert Swapped(rs, At(i), At(j)) == candidate;
      var m := Evaluate(candidate);
      var rank := Rank(Score(m), m.node, m.chip, left.chip, right.chip);
      SwapKept(i, j, best, Swap(i, j, rank, m));
      if best.None? || Lower(rank, best.value.rank) {
        next := Some(Swap(i, j, rank, m));
      }
    }

    /** A pair the planner looks at: above and below the mean load. */
    predicate EligiblePair(i: nat, j: nat)
      reads this
      requires brain != []
    {
      && i < |current| && j < |current|
      && load(current, current[i].chip) > MeanLoad() && load(current, current[j].chip) < MeanLoad()
    }

    lemma LaterPair(i: nat, j: nat, x: nat, y: nat, best: Option<Swap>)
      requires FoundSwap(i, j, best) && (i < x || (i == x && j <= y))
      ensures FoundSwap(x, y, best)
    {
      assert SwapFound(i, j, best);
    }

    method BestPartner(i: nat, lows: seq<nat>, best: Option<Swap>) returns (next: Option<Swap>)
      requires Valid() && brain != [] && i < |current| && FoundSwap(i, 0, best) && IsLows(lows)
      requires load(current, current[i].chip) > MeanLoad()
      ensures FoundSwap(i, |current|, next)
      ensures forall j {:trigger NoBetterSwap(i, j, next)} | j in lows :: NoBetterSwap(i, j, next)
      ensures forall a, b {:trigger NoBetterSwap(a, b, next)} | NoBetterSwap(a, b, best) :: NoBetterSwap(a, b, next)
    {
      next := best;
      var n := 0;
      while n < |lows|
        invariant 0 <= n <= |lows| && FoundSwap(i, if n == 0 then 0 else lows[n - 1], next)
        invariant forall j {:trigger NoBetterSwap(i, j, next)} | j in lows[..n] :: NoBetterSwap(i, j, next)
        invariant forall a, b {:trigger NoBetterSwap(a, b, next)} | NoBetterSwap(a, b, best) :: NoBetterSwap(a, b, next)
      {
        assert lows[..n + 1] == lows[..n] + [lows[n]];
        ghost var before := next;
        assert lows[n] in lows;
        LaterPair(i, if n == 0 then 0 else lows[n - 1], i, lows[n], next);
        next := ConsiderSwap(i, lows[n], next);
        assert forall a, b | NoBetterSwap(a, b, before) :: NoBetterSwap(a, b, next);
        n := n + 1;
      }
      assert lows[..n] == lows;
      assert n > 0 ==> lows[n - 1] in lows;
      LaterPair(i, if n == 0 then 0 else lows[n - 1], i, |current|, next);
    }

    /** The replicas below the mean, in order. */
    ghost predicate IsLows(lows: seq<nat>)
      reads this
      requires brain != []
    {
      && (forall j: nat :: j in lows <==> j < |current| && load(current, current[j].chip) < MeanLoad())
      && (forall j, k | 0 <= j < k < |lows| :: lows[j] < lows[k])
    }

    /** The best eligible swap. */
    method BestSwap() returns (best: Option<Swap>)
      requires Valid() && brain != []
      ensures FoundSwap(|current|, 0, best)
      ensures forall i, j {:trigger NoBetterSwap(i, j, best)} | EligiblePair(i, j) :: NoBetterSwap(i, j, best)
    {
      var mean := MeanLoad();
      var highs := Above(mean, true);
      var lows := Above(mean, false);
      best := None;
      var n := 0;
      while n < |highs|
        invariant 0 <= n <= |highs| && if n == 0 then best == None else FoundSwap(highs[n - 1], |current|, best)
        invariant forall i, j {:trigger NoBetterSwap(i, j, best)} | i in highs[..n] && j in lows :: NoBetterSwap(i, j, best)
      {
        assert highs[..n + 1] == highs[..n] + [highs[n]];
        ghost var before := best;
        assert highs[n] in highs;
        if n > 0 { LaterPair(highs[n - 1], |current|, highs[n], 0, best); }
        best := BestPartner(highs[n], lows, best);
        assert forall i, j | NoBetterSwap(i, j, before) :: NoBetterSwap(i, j, best);
        n := n + 1;
      }
      assert highs[..n] == highs;
      if n > 0 {
        assert highs[n - 1] in highs;
        LaterPair(highs[n - 1], |current|, |current|, 0, best);
      }
    }

    method ApplySwap(s: Swap)
      requires Valid() && SwapOk(s)
      modifies this
      ensures Valid() && All() == Swapped(old(All()), At(s.left), At(s.right))
    {
      var left, right := current[s.left], current[s.right];
      ghost var before := All();
      assert before[At(s.left)] == left && before[At(s.right)] == right;
      assert KnownAt(inv, before, At(s.left)) && KnownAt(inv, before, At(s.right));
      SwapIsValid(inv, before, At(s.left), At(s.right));
      SwapKeepsTables(inv, brain, before, used, expertsOn, At(s.left), At(s.right));
      var a, b := inv.weight[left.expert], inv.weight[right.expert];
      used := used[left.chip := used[left.chip] - a + b][right.chip := used[right.chip] - b + a];
      expertsOn := expertsOn[left.chip := expertsOn[left.chip] - {left.expert} + {right.expert}]
                            [right.chip := expertsOn[right.chip] - {right.expert} + {left.expert}];
      current := current[s.left := left.(chip := right.chip)][s.right := right.(chip := left.chip)];
      metrics := s.metrics;
      assert All() == Swapped(before, At(s.left), At(s.right));
    }

    lemma OpenIsEligiblePair(i: nat, j: nat)
      requires brain != [] && i < |current| && j < |current|
      ensures SwapOpen(Goal(), All(), At(i), At(j)) <==> EligiblePair(i, j) && CanSwap(inv, All(), At(i), At(j))
    {
      assert Movable(Goal(), All()) == current;
      OffIsMean(Goal(), All(), current[i].chip);
      OffIsMean(Goal(), All(), current[j].chip);
    }

    lemma FirstSwapIsNotLower(i: nat, j: nat, x: nat, y: nat)
      requires i < |current| && j < |current| && x < |current| && y < |current|
      ensures SwapFirst(Goal(), All(), At(i), At(j), At(x), At(y)) <==>
        !Lower(SwapRank(x, y), SwapRank(i, j)) && (SwapRank(x, y) == SwapRank(i, j) ==> i < x || (i == x && j <= y))
    {
    }

    lemma FoundBeats(s: Swap, x: nat, y: nat)
      requires SwapOk(s) && brain != [] && SwapOpen(Goal(), All(), x, y)
      requires forall i, j {:trigger NoBetterSwap(i, j, Some(s))} | EligiblePair(i, j) :: NoBetterSwap(i, j, Some(s))
      ensures SwapFirst(Goal(), All(), At(s.left), At(s.right), x, y)
    {
      var i, j := x - |gpu|, y - |gpu|;
      OpenIsEligiblePair(i, j);
      assert NoBetterSwap(i, j, Some(s)) && BeatsSwap(i, j, Some(s));
      FirstSwapIsNotLower(s.left, s.right, i, j);
    }

    lemma FoundIsOpen(s: Swap)
      requires brain != [] && FoundSwap(|current|, 0, Some(s))
      ensures SwapOk(s) && SwapOpen(Goal(), All(), At(s.left), At(s.right))
    {
      assert SwapFound(|current|, 0, Some(s));
      OpenIsEligiblePair(s.left, s.right);
    }

    /** The swap that was found is the best open one. */
    lemma FoundIsBestSwap(s: Swap)
      requires brain != [] && FoundSwap(|current|, 0, Some(s))
      requires forall i, j {:trigger NoBetterSwap(i, j, Some(s))} | EligiblePair(i, j) :: NoBetterSwap(i, j, Some(s))
      ensures SwapOk(s) && BestSwapIs(Goal(), All(), At(s.left), At(s.right))
    {
      FoundIsOpen(s);
      forall x: nat, y: nat | SwapOpen(Goal(), All(), x, y)
        ensures SwapFirst(Goal(), All(), At(s.left), At(s.right), x, y)
      {
        FoundBeats(s, x, y);
      }
    }

    lemma SwapsJudged(best: Option<Swap>, found: bool)
      requires brain != [] && FoundSwap(|current|, 0, best) && metrics == measure(All())
      requires forall i, j {:trigger NoBetterSwap(i, j, best)} | EligiblePair(i, j) :: NoBetterSwap(i, j, best)
      requires found <==> best.Some? && best.value.rank.score < Score(metrics) - tolerance
      ensures found ==> Gains(Goal(), All(), Exchanged(All(), At(best.value.left), At(best.value.right)))
      ensures !found ==> Ends(Goal(), true, All())
    {
      assert SwapFound(|current|, 0, best);
      forall x: nat, y: nat | SwapOpen(Goal(), All(), x, y)
        ensures !found ==> !Gains(Goal(), All(), Exchanged(All(), x, y))
      {
        OpenIsEligiblePair(x - |gpu|, y - |gpu|);
        assert NoBetterSwap(x - |gpu|, y - |gpu|, best) && BeatsSwap(x - |gpu|, y - |gpu|, best);
      }
    }

    method SwapPass() returns (swapped: bool)
      requires Valid() && brain != []
      modifies this
      ensures Valid() && SameReplicas(old(All()), All())
      ensures swapped ==> Score(metrics) < old(Score(metrics)) - tolerance
      ensures !swapped ==> All() == old(All()) && metrics == old(metrics)
      ensures if swapped then Step(Goal(), true, old(All()), All()) else Ends(Goal(), true, All())
    {
      var best := BestSwap();
      if best.Some? { FoundIsBestSwap(best.value); }
      ghost var found := best.Some? && best.value.rank.score < Score(metrics) - tolerance;
      SwapsJudged(best, found);
      if best.None? || best.value.rank.score >= Score(metrics) - tolerance { return false; }
      ApplySwap(best.value);
      swapped := true;
    }

    /** Up to maxPasses moves, then up to maxPasses swaps. */
    method Run(maxPasses: nat)
      requires Valid() && brain != []
      modifies this
      ensures Valid() && SameReplicas(old(All()), All())
      ensures Rebalances(Goal(), old(All()), All(), maxPasses)
    {
      RunMoves(maxPasses);
      ghost var mid := All();
      RunSwaps(maxPasses);
      assert Phase(Goal(), false, old(All()), mid, maxPasses);
    }

    method RunMoves(maxPasses: nat)
      requires Valid() && brain != []
      modifies this
      ensures Valid() && SameReplicas(old(All()), All())
      ensures Phase(Goal(), false, old(All()), All(), maxPasses)
    {
      var pass := 0;
      while pass < maxPasses
        invariant 0 <= pass <= maxPasses && Valid() && SameReplicas(old(All()), All())
        invariant Steps(Goal(), false, old(All()), All(), pass)
      {
        var moved := MovePass();
        if !moved { break; }
        pass := pass + 1;
      }
    }

    method RunSwaps(maxPasses: nat)
      requires Valid() && brain != []
      modifies this
      ensures Valid() && SameReplicas(old(All()), All())
      ensures Phase(Goal(), true, old(All()), All(), maxPasses)
    {
      var pass := 0;
      while pass < maxPasses
        invariant 0 <= pass <= maxPasses && Valid() && SameReplicas(old(All()), All())
        invariant Steps(Goal(), true, old(All()), All(), pass)
      {
        var swapped := SwapPass();
        if !swapped { break; }
        pass := pass + 1;
      }
    }
  }

  /** There is one list of sums, and its head over the number of chips is the
      mean load. */
  lemma OffIsMean(g: Task, rs: seq<ReplicaSpec>, chip: ChipId)
    requires g.brain != []
    ensures var own := Movable(g, rs);
      var mean := TotalOver(g.load, own, g.brain) / |g.brain| as real;
      && (Off(g, rs, chip, true) <==> g.load(own, chip) > mean)
      && (Off(g, rs, chip, false) <==> g.load(own, chip) < mean)
  {
    var sums := seq(|g.brain| + 1, k requires 0 <= k <= |g.brain| => TotalOver(g.load, Movable(g, rs), g.brain[k..]));
    forall k | 0 <= k < |g.brain|
      ensures sums[k] == g.load(Movable(g, rs), g.brain[k]) + sums[k + 1]
    {
      assert g.brain[k..][1..] == g.brain[k + 1..];
    }
    assert SumsFrom(g, rs, sums) && g.brain[0..] == g.brain;
    forall other | SumsFrom(g, rs, other)
      ensures other[0] == sums[0]
    {
      SumsAgree(g, rs, other, sums, 0);
    }
  }

  lemma {:induction false} SumsAgree(g: Task, rs: seq<ReplicaSpec>, a: seq<real>, b: seq<real>, k: nat)
    requires SumsFrom(g, rs, a) && SumsFrom(g, rs, b) && k <= |g.brain|
    ensures a[k] == b[k]
    decreases |g.brain| - k
  {
    if k < |g.brain| { SumsAgree(g, rs, a, b, k + 1); }
  }

  predicate TableOk(inv: Inventory, rs: seq<ReplicaSpec>, used: map<ChipId, nat>, expertsOn: map<ChipId, set<ExpertId>>, c: ChipId) {
    c in inv.chips && c in used && c in expertsOn && used[c] == Used(inv, rs, c) && expertsOn[c] == ExpertsOn(rs, c)
  }

  /** The tables equal a recount. */
  ghost predicate TablesOk(inv: Inventory, brain: seq<ChipId>, rs: seq<ReplicaSpec>, used: map<ChipId, nat>, expertsOn: map<ChipId, set<ExpertId>>) {
    && (forall c {:trigger TableOk(inv, rs, used, expertsOn, c)} | c in brain :: TableOk(inv, rs, used, expertsOn, c))
    && used.Keys == expertsOn.Keys == (set c | c in brain)
  }

  lemma MoveKeepsTables(inv: Inventory, brain: seq<ChipId>, rs: seq<ReplicaSpec>, used: map<ChipId, nat>,
                        expertsOn: map<ChipId, set<ExpertId>>, p: nat, target: ChipId)
    requires ValidPlan(inv, rs) && TablesOk(inv, brain, rs, used, expertsOn) && CanMove(inv, rs, p, target)
    requires rs[p].chip in brain && target in brain
    ensures used[rs[p].chip] >= inv.weight[rs[p].expert]
    ensures var source, e, w := rs[p].chip, rs[p].expert, inv.weight[rs[p].expert];
      TablesOk(inv, brain, Moved(rs, p, target), used[source := used[source] - w][target := used[target] + w],
               expertsOn[source := expertsOn[source] - {e}][target := expertsOn[target] + {e}])
  {
    var source, e, w, rs' := rs[p].chip, rs[p].expert, inv.weight[rs[p].expert], Moved(rs, p, target);
    assert TableOk(inv, rs, used, expertsOn, source);
    UsedReplaced(inv, rs, p, rs'[p], source);
    var used' := used[source := used[source] - w][target := used[target] + w];
    var expertsOn' := expertsOn[source := expertsOn[source] - {e}][target := expertsOn[target] + {e}];
    forall c | c in brain
      ensures TableOk(inv, rs', used', expertsOn', c)
    {
      assert TableOk(inv, rs, used, expertsOn, c);
      UsedReplaced(inv, rs, p, rs'[p], c);
      RelocateExperts(rs, p, target, c);
    }
  }

  lemma SwapKeepsTables(inv: Inventory, brain: seq<ChipId>, rs: seq<ReplicaSpec>, used: map<ChipId, nat>,
                        expertsOn: map<ChipId, set<ExpertId>>, i: nat, j: nat)
    requires ValidPlan(inv, rs) && TablesOk(inv, brain, rs, used, expertsOn) && CanSwap(inv, rs, i, j)
    requires rs[i].chip in brain && rs[j].chip in brain
    ensures var a, b := inv.weight[rs[i].expert], inv.weight[rs[j].expert];
      used[rs[i].chip] >= a && used[rs[j].chip] >= b
    ensures var c, d, a, b := rs[i].chip, rs[j].chip, rs[i].expert, rs[j].expert;
      TablesOk(inv, brain, Swapped(rs, i, j),
               used[c := used[c] - inv.weight[a] + inv.weight[b]][d := used[d] - inv.weight[b] + inv.weight[a]],
               expertsOn[c := expertsOn[c] - {a} + {b}][d := expertsOn[d] - {b} + {a}])
  {
    var c, d, a, b, rs' := rs[i].chip, rs[j].chip, rs[i].expert, rs[j].expert, Swapped(rs, i, j);
    assert TableOk(inv, rs, used, expertsOn, c) && TableOk(inv, rs, used, expertsOn, d);
    UsedReplaced(inv, rs, i, rs[i].(chip := d), c);
    UsedReplaced(inv, rs, j, rs[j].(chip := c), d);
    var used' := used[c := used[c] - inv.weight[a] + inv.weight[b]][d := used[d] - inv.weight[b] + inv.weight[a]];
    var expertsOn' := expertsOn[c := expertsOn[c] - {a} + {b}][d := expertsOn[d] - {b} + {a}];
    forall x | x in brain
      ensures TableOk(inv, rs', used', expertsOn', x)
    {
      assert TableOk(inv, rs, used, expertsOn, x);
      SwapRecounts(inv, rs, i, j, x);
      SwapExperts(rs, i, j, x);
    }
  }

  function TotalOver(load: (seq<ReplicaSpec>, ChipId) -> real, rs: seq<ReplicaSpec>, chips: seq<ChipId>): real {
    if chips == [] then 0.0 else load(rs, chips[0]) + TotalOver(load, rs, chips[1..])
  }

  /** The tables of the movable replicas. */
  method Tables(inv: Inventory, brain: seq<ChipId>, current: seq<ReplicaSpec>)
    returns (used: map<ChipId, nat>, expertsOn: map<ChipId, set<ExpertId>>)
    requires forall i {:trigger current[i]} | 0 <= i < |current| :: current[i].chip in brain && current[i].expert in inv.weight
    ensures used.Keys == expertsOn.Keys == (set c | c in brain)
    ensures forall c | c in brain :: used[c] == Used(inv, current, c) && expertsOn[c] == ExpertsOn(current, c)
  {
    used := map c | c in brain :: 0;
    expertsOn := map c | c in brain :: {};
    var n := 0;
    while n < |current|
      invariant 0 <= n <= |current| && used.Keys == expertsOn.Keys == (set c | c in brain)
      invariant forall c | c in brain :: used[c] == Used(inv, current[..n], c) && expertsOn[c] == ExpertsOn(current[..n], c)
    {
      var r := current[n];
      PrefixNext(inv, current, n);
      NextExpert(current, n);
      used := used[r.chip := used[r.chip] + inv.weight[r.expert]];
      expertsOn := expertsOn[r.chip := expertsOn[r.chip] + {r.expert}];
      n := n + 1;
    }
    assert current[..n] == current;
  }

  lemma NextExpert(rs: seq<ReplicaSpec>, n: nat)
    requires n < |rs|
    ensures forall c {:trigger ExpertsOn(rs[..n + 1], c)} ::
              ExpertsOn(rs[..n + 1], c) == (if rs[n].chip == c then ExpertsOn(rs[..n], c) + {rs[n].expert} else ExpertsOn(rs[..n], c))
  {
    forall c
      ensures ExpertsOn(rs[..n + 1], c) == if rs[n].chip == c then ExpertsOn(rs[..n], c) + {rs[n].expert} else ExpertsOn(rs[..n], c)
    {
      ExpertsOnJoin(rs[..n], [rs[n]], c);
      assert rs[..n + 1] == rs[..n] + [rs[n]];
      assert ExpertsOn([rs[n]], c) == if rs[n].chip == c then {rs[n].expert} else {} by {
        assert [rs[n]][0] == rs[n];
      }
    }
  }

  lemma {:induction false} NoneThere(inv: Inventory, rs: seq<ReplicaSpec>, c: ChipId)
    requires forall i {:trigger rs[i]} | 0 <= i < |rs| :: rs[i].chip != c
    ensures Used(inv, rs, c) == 0 && ExpertsOn(rs, c) == {}
  {
    if rs != [] {
      NoneThere(inv, rs[..|rs| - 1], c);
    }
  }

  /** On a movable chip only movable replicas count. */
  lemma OnlyMovable(inv: Inventory, gpu: seq<ReplicaSpec>, current: seq<ReplicaSpec>, c: ChipId)
    requires forall i {:trigger gpu[i]} | 0 <= i < |gpu| :: gpu[i].chip != c
    ensures Used(inv, gpu + current, c) == Used(inv, current, c) && ExpertsOn(gpu + current, c) == ExpertsOn(current, c)
  {
    NoneThere(inv, gpu, c);
    UsedJoin(inv, gpu, current, c);
    ExpertsOnJoin(gpu, current, c);
  }

  // ----- the movable part of a plan -----

  /** The replicas on the given chips, or those elsewhere, in order. */
  function Part(rs: seq<ReplicaSpec>, brain: seq<ChipId>, inside: bool): seq<ReplicaSpec> {
    if rs == [] then [] else
    var last := rs[|rs| - 1];
    Part(rs[..|rs| - 1], brain, inside) + (if (last.chip in brain) == inside then [last] else [])
  }

  /** Where they stand in the plan. */
  ghost function Places(rs: seq<ReplicaSpec>, brain: seq<ChipId>, inside: bool): seq<nat> {
    if rs == [] then [] else
    Places(rs[..|rs| - 1], brain, inside) + (if (rs[|rs| - 1].chip in brain) == inside then [|rs| - 1] else [])
  }

  lemma {:induction false} PartByPlaces(rs: seq<ReplicaSpec>, brain: seq<ChipId>, inside: bool)
    ensures var part, at := Part(rs, brain, inside), Places(rs, brain, inside);
      && |at| == |part|
      && (forall k | 0 <= k < |at| :: at[k] < |rs| && part[k] == rs[at[k]] && (part[k].chip in brain) == inside)
      && (forall j, k | 0 <= j < k < |at| :: at[j] < at[k])
  {
    if rs != [] {
      PartByPlaces(rs[..|rs| - 1], brain, inside);
    }
  }

  datatype Label = Label(id: nat, expert: ExpertId, primary: bool)

  function LabelOf(r: ReplicaSpec): Label {
    Label(r.id, r.expert, r.primary)
  }

  /** How many replicas carry the label. */
  function Labelled(rs: seq<ReplicaSpec>, l: Label): nat {
    if rs == [] then 0 else Labelled(rs[..|rs| - 1], l) + (if LabelOf(rs[|rs| - 1]) == l then 1 else 0)
  }

  lemma {:induction false} LabelsJoin(a: seq<ReplicaSpec>, b: seq<ReplicaSpec>, l: Label)
    ensures Labelled(a + b, l) == Labelled(a, l) + Labelled(b, l)
  {
    if b == [] {
      assert a + b == a;
    } else {
      LabelsJoin(a, b[..|b| - 1], l);
      assert (a + b)[..|a + b| - 1] == a + b[..|b| - 1];
    }
  }

  lemma {:induction false} MovesKeepLabels(rs: seq<ReplicaSpec>, rs': seq<ReplicaSpec>, l: Label)
    requires SameReplicas(rs, rs')
    ensures Labelled(rs', l) == Labelled(rs, l)
  {
    if rs != [] {
      var last := |rs| - 1;
      assert rs'[last].(chip := rs[last].chip) == rs[last];
      MovesKeepLabels(rs[..last], rs'[..last], l);
    }
  }

  /** The same ids, experts and primary flags, as often. */
  ghost predicate SameLabels(rs: seq<ReplicaSpec>, rs': seq<ReplicaSpec>) {
    forall l {:trigger Labelled(rs', l)} :: Labelled(rs', l) == Labelled(rs, l)
  }

  lemma {:induction false} PartsAddUp(inv: Inventory, rs: seq<ReplicaSpec>, brain: seq<ChipId>)
    ensures forall l :: Labelled(Part(rs, brain, false), l) + Labelled(Part(rs, brain, true), l) == Labelled(rs, l)
    ensures forall c :: Used(inv, Part(rs, brain, false), c) + Used(inv, Part(rs, brain, true), c) == Used(inv, rs, c)
    ensures forall c :: Residents(Part(rs, brain, false), c) + Residents(Part(rs, brain, true), c) == Residents(rs, c)
    ensures forall e :: Primaries(Part(rs, brain, false), e) + Primaries(Part(rs, brain, true), e) == Primaries(rs, e)
  {
    if rs != [] {
      var rest, last := rs[..|rs| - 1], rs[|rs| - 1];
      PartsAddUp(inv, rest, brain);
      var inside := last.chip in brain;
      var same, more := Part(rest, brain, !inside), Part(rest, brain, inside);
      assert Part(rs, brain, !inside) == same && Part(rs, brain, inside) == more + [last];
      assert (more + [last])[..|more|] == more;
    }
  }

  function Reordered(rs: seq<ReplicaSpec>, brain: seq<ChipId>): seq<ReplicaSpec> {
    Part(rs, brain, false) + Part(rs, brain, true)
  }

  lemma ReorderedIsApart(inv: Inventory, rs: seq<ReplicaSpec>, brain: seq<ChipId>)
    requires AllKnown(inv, rs) && AllApart(rs)
    ensures AllKnown(inv, Reordered(rs, brain)) && AllApart(Reordered(rs, brain))
  {
    var a, b := Places(rs, brain, false), Places(rs, brain, true);
    PartByPlaces(rs, brain, false);
    PartByPlaces(rs, brain, true);
    var all, at := Reordered(rs, brain), a + b;
    forall i: nat | i < |all|
      ensures all[i] == rs[at[i]] && KnownAt(inv, all, i)
    {
      assert KnownAt(inv, rs, at[i]);
    }
    forall i: nat, j: nat | i < j < |all|
      ensures Apart(all, i, j)
    {
      assert all[i] == rs[at[i]] && all[j] == rs[at[j]];
      assert i < |a| && j >= |a| ==> (rs[at[i]].chip in brain) != (rs[at[j]].chip in brain);
      assert at[i] != at[j];
      assert if at[i] < at[j] then Apart(rs, at[i], at[j]) else Apart(rs, at[j], at[i]);
    }
  }

  lemma ReorderedIsValid(inv: Inventory, rs: seq<ReplicaSpec>, brain: seq<ChipId>)
    requires ValidPlan(inv, rs)
    ensures ValidPlan(inv, Reordered(rs, brain)) && SameLabels(rs, Reordered(rs, brain))
  {
    var a, b := Part(rs, brain, false), Part(rs, brain, true);
    ReorderedIsApart(inv, rs, brain);
    PartsAddUp(inv, rs, brain);
    forall l: Label
      ensures Labelled(a + b, l) == Labelled(rs, l)
    {
      LabelsJoin(a, b, l);
    }
    forall c | c in inv.chips.Keys
      ensures HasRoom(inv, a + b, c)
    {
      assert HasRoom(inv, rs, c);
      UsedJoin(inv, a, b, c);
    }
    UsedJoin(inv, a, b, 0);
    forall e | e in inv.weight.Keys
      ensures Primaries(a + b, e) == 1
    {
      assert Primaries(rs, e) == 1;
    }
  }

  method Split(rs: seq<ReplicaSpec>, brain: seq<ChipId>) returns (gpu: seq<ReplicaSpec>, current: seq<ReplicaSpec>)
    ensures gpu == Part(rs, brain, false) && current == Part(rs, brain, true)
  {
    gpu, current := [], [];
    var n := 0;
    while n < |rs|
      invariant 0 <= n <= |rs| && gpu == Part(rs[..n], brain, false) && current == Part(rs[..n], brain, true)
    {
      assert rs[..n + 1][..n] == rs[..n];
      if rs[n].chip in brain { current := current + [rs[n]]; } else { gpu := gpu + [rs[n]]; }
      n := n + 1;
    }
    assert rs[..n] == rs;
  }

  datatype RebalanceError = NegativePasses | EvaluationTrace

  /** `rebalance_brain_replicas`: the result is a valid plan of the same
      replicas, those elsewhere unmoved, and its score is no higher. */
  method Rebalance(inv: Inventory, plan: seq<ReplicaSpec>, brain: seq<ChipId>, evaluation: bool, measure: seq<ReplicaSpec> -> Metrics,
                   load: (seq<ReplicaSpec>, ChipId) -> real, tolerance: real, maxPasses: int)
    returns (r: Result<seq<ReplicaSpec>, RebalanceError>)
    requires ValidPlan(inv, plan) && tolerance >= 0.0 && forall c | c in brain :: c in inv.chips
    ensures maxPasses < 0 ==> r == Err(NegativePasses)
    ensures maxPasses >= 0 && evaluation ==> r == Err(EvaluationTrace)
    ensures maxPasses >= 0 && !evaluation ==> r.Ok?
    ensures r.Ok? ==> ValidPlan(inv, r.value) && SameLabels(plan, r.value)
    ensures r.Ok? && Part(plan, brain, true) == [] ==> r.value == plan
    ensures r.Ok? && Part(plan, brain, true) != [] ==>
      && SameReplicas(Reordered(plan, brain), r.value)
      && FixedBelow(Reordered(plan, brain), r.value, |Part(plan, brain, false)|)
      && Rebalances(Task(inv, brain, measure, load, tolerance, |Part(plan, brain, false)|), Reordered(plan, brain), r.value, maxPasses)
      && Score(measure(r.value)) <= Score(measure(Reordered(plan, brain)))
  {
    if maxPasses < 0 { return Err(NegativePasses); }
    if evaluation { return Err(EvaluationTrace); }
    var gpu, current := Split(plan, brain);
    if current == [] { return Ok(plan); }
    ReorderedIsValid(inv, plan, brain);
    PartByPlaces(plan, brain, false);
    PartByPlaces(plan, brain, true);
    assert current[0].chip in brain;
    var planner := new Rebalancer(inv, brain, measure, load, tolerance, gpu, current);
    planner.Run(maxPasses);
    RunGains(planner.Goal(), Reordered(plan, brain), planner.All(), maxPasses);
    forall l: Label
      ensures Labelled(planner.All(), l) == Labelled(plan, l)
    {
      MovesKeepLabels(gpu + current, planner.All(), l);
      assert Labelled(gpu + current, l) == Labelled(plan, l);
    }
    var result := MakePlan(inv, planner.gpu + planner.current);
    r := Ok(planner.gpu + planner.current);
    assert result.Ok?;  // the final plan is valid
  }
}
