/** The exact placement oracle for small systems, and the gap report. */
module Oracles {
  import opened Basics
  import opened Sums
  import opened ReplicaPlans
  import opened Enumeration
  import opened OraclePlans

  type Signature = seq<(ExpertId, ChipId)>
  type Objective = seq<ReplicaSpec> -> real

  // ----- keys -----

  predicate PairLess(a: (nat, nat), b: (nat, nat)) {
    a.0 < b.0 || (a.0 == b.0 && a.1 < b.1)
  }

  predicate SignatureLess(a: Signature, b: Signature) {
    b != [] && (a == [] || PairLess(a[0], b[0]) || (a[0] == b[0] && SignatureLess(a[1..], b[1..])))
  }

  lemma {:induction false} SignatureLessChains(a: Signature, b: Signature, c: Signature)
    requires SignatureLess(a, b) && SignatureLess(b, c)
    ensures SignatureLess(a, c)
  {
    if a != [] && a[0] == b[0] && b[0] == c[0] {
      SignatureLessChains(a[1..], b[1..], c[1..]);
    }
  }

  datatype Rank = Rank(value: real, signature: Signature)

  predicate RankLess(a: Rank, b: Rank) {
    a.value < b.value || (a.value == b.value && SignatureLess(a.signature, b.signature))
  }

  lemma RankLessChains(a: Rank, b: Rank, c: Rank)
    requires RankLess(a, b) && RankLess(b, c)
    ensures RankLess(a, c)
  {
    if a.value == b.value == c.value {
      SignatureLessChains(a.signature, b.signature, c.signature);
    }
  }

  function SignatureOf(rs: seq<ReplicaSpec>): Signature {
    seq(|rs|, i requires 0 <= i < |rs| => (rs[i].expert, rs[i].chip))
  }

  function RankOf(objective: Objective, rs: seq<ReplicaSpec>): Rank {
    Rank(objective(rs), SignatureOf(rs))
  }

  // ----- candidates -----

  /** A selection for every expert within the budget of extra copies. */
  ghost predicate IsCandidate(sp: Space, extra: nat, sels: seq<Selection>) {
    AllSelected(sp, sels) && Sizes(sels) <= |sels| + extra
  }

  ghost function PlanOf(sp: Space, sels: seq<Selection>): seq<ReplicaSpec>
    requires AllSelected(sp, sels)
  {
    Built(sp, sels, |sels|)
  }

  ghost predicate Feasible(sp: Space, extra: nat, sels: seq<Selection>) {
    IsCandidate(sp, extra, sels) && ValidPlan(sp.inv, PlanOf(sp, sels))
  }

  datatype Found = Found(rank: Rank, plan: seq<ReplicaSpec>)

  /** The candidate does not beat the best one. */
  ghost predicate NotBetter(sp: Space, objective: Objective, extra: nat, sels: seq<Selection>, best: Option<Found>) {
    Feasible(sp, extra, sels) ==> best.Some? && !RankLess(RankOf(objective, PlanOf(sp, sels)), best.value.rank)
  }

  ghost predicate IsFound(sp: Space, objective: Objective, extra: nat, best: Option<Found>) {
    best.Some? ==>
      && ValidPlan(sp.inv, best.value.plan) && best.value.rank == RankOf(objective, best.value.plan)
      && |best.value.plan| <= |sp.experts| + extra
  }

  // ----- the search -----

  method BuildCandidate(sp: Space, sels: seq<Selection>) returns (rs: seq<ReplicaSpec>)
    requires AllSelected(sp, sels)
    ensures rs == PlanOf(sp, sels)
  {
    rs := [];
    var k := 0;
    while k < |sels|
      invariant 0 <= k <= |sels| && rs == Built(sp, sels, k)
    {
      assert IsSelection(sp, sels[k]);
      rs := rs + CopiesOf(sp, sp.experts[k], sels[k], |rs|);
      k := k + 1;
    }
  }

  /** Try one candidate. */
  method Consider(sp: Space, objective: Objective, extra: nat, sels: seq<Selection>, best: Option<Found>)
    returns (next: Option<Found>, feasible: bool)
    requires AllSelected(sp, sels) && Sizes(sels) <= |sels| + extra && IsFound(sp, objective, extra, best)
    ensures feasible <==> Feasible(sp, extra, sels)
    ensures IsFound(sp, objective, extra, next) && NotBetter(sp, objective, extra, sels, next)
    ensures forall other {:trigger NotBetter(sp, objective, extra, other, next)} |
              NotBetter(sp, objective, extra, other, best) :: NotBetter(sp, objective, extra, other, next)
  {
    var rs := BuildCandidate(sp, sels);
    BuiltSize(sp, sels, |sels|);
    assert sels[..|sels|] == sels;
    var plan := MakePlan(sp.inv, rs);
    next, feasible := best, plan.Ok?;
    if feasible {
      var rank := Rank(objective(rs), SignatureOf(rs));
      if best.None? || RankLess(rank, best.value.rank) {
        next := Some(Found(rank, rs));
        NeverLessThanItself(rank);
        forall other | NotBetter(sp, objective, extra, other, best)
          ensures NotBetter(sp, objective, extra, other, next)
        {
          if Feasible(sp, extra, other) && RankLess(RankOf(objective, PlanOf(sp, other)), rank) {
            RankLessChains(RankOf(objective, PlanOf(sp, other)), rank, best.value.rank);
          }
        }
      }
    }
  }

  lemma NeverLessThanItself(a: Rank)
    ensures !RankLess(a, a)
  {
    SignatureNotLess(a.signature);
  }

  lemma {:induction false} SignatureNotLess(a: Signature)
    ensures !SignatureLess(a, a)
  {
    if a != [] {
      SignatureNotLess(a[1..]);
    }
  }

  datatype OracleError = NothingToPlace | TooManyChips | NegativeBudget | BadLimit | SearchTooLarge | NoFeasiblePlacement

  datatype OracleResult = OracleResult(plan: seq<ReplicaSpec>, objective: real, evaluated: nat, feasible: nat, bound: nat)

  function MostCopies(chips: nat, extra: nat): nat {
    if chips < 1 + extra then chips else 1 + extra
  }

  function SearchBound(sp: Space, extra: nat): nat {
    Power(|Subsets(|sp.chips|, MostCopies(|sp.chips|, extra))|, |sp.experts|)
  }

  function Refused(sp: Space, maxExtra: int, maxChips: int, maxCandidates: int): Option<OracleError> {
    if sp.experts == [] || sp.chips == [] then Some(NothingToPlace)
    else if |sp.chips| > maxChips then Some(TooManyChips)
    else if maxExtra < 0 then Some(NegativeBudget)
    else if maxCandidates <= 0 then Some(BadLimit)
    else if SearchBound(sp, maxExtra) > maxCandidates then Some(SearchTooLarge)
    else None
  }

  /** No feasible candidate is better than the plan found. */
  ghost predicate IsBest(sp: Space, objective: Objective, extra: nat, best: Option<Found>) {
    forall sels {:trigger NotBetter(sp, objective, extra, sels, best)} | IsCandidate(sp, extra, sels) ::
      NotBetter(sp, objective, extra, sels, best)
  }

  /** Every candidate within the budget appears in the product of the subsets
      of limited size: the limit loses nothing. */
  lemma CandidatesListed(sp: Space, extra: nat, sels: seq<Selection>)
    requires IsCandidate(sp, extra, sels)
    ensures sels in Product(Subsets(|sp.chips|, MostCopies(|sp.chips|, extra)), |sp.experts|)
  {
    var subsets := Subsets(|sp.chips|, MostCopies(|sp.chips|, extra));
    forall k | 0 <= k < |sels|
      ensures sels[k] != []
    {
      assert IsSelection(sp, sels[k]);
    }
    forall i | 0 <= i < |sels|
      ensures sels[i] in subsets
    {
      assert IsSelection(sp, sels[i]);
      SelectionWithinBudget(sels, i, extra);
      CombinationFits(sels[i], 0, |sp.chips|);
      SubsetsComplete(|sp.chips|, MostCopies(|sp.chips|, extra), sels[i]);
    }
    ProductComplete(subsets, |sp.experts|, sels);
  }

  lemma ListedAreSelected(sp: Space, extra: nat, sels: seq<Selection>)
    requires sels in Product(Subsets(|sp.chips|, MostCopies(|sp.chips|, extra)), |sp.experts|)
    ensures AllSelected(sp, sels)
  {
    var subsets := Subsets(|sp.chips|, MostCopies(|sp.chips|, extra));
    ProductComplete(subsets, |sp.experts|, sels);
    forall i | 0 <= i < |sels|
      ensures IsSelection(sp, sels[i])
    {
      SubsetsComplete(|sp.chips|, MostCopies(|sp.chips|, extra), sels[i]);
    }
  }

  /** k is the number of candidates. */
  ghost predicate CountsCandidates(sp: Space, extra: nat, k: nat) {
    exists s: set<seq<Selection>> :: |s| == k && forall sels :: sels in s <==> IsCandidate(sp, extra, sels)
  }

  /** k of them are valid plans. */
  ghost predicate CountsFeasible(sp: Space, extra: nat, k: nat) {
    exists s: set<seq<Selection>> :: |s| == k && forall sels :: sels in s <==> Feasible(sp, extra, sels)
  }

  /** b is the number of ways to give every expert at most 1 + extra chips. */
  ghost predicate IsBound(sp: Space, extra: nat, b: nat) {
    exists s: set<Selection> :: b == Power(|s|, |sp.experts|) && forall x :: x in s <==> IsSelection(sp, x) && |x| <= 1 + extra
  }

  lemma SearchBoundIs(sp: Space, extra: nat)
    ensures IsBound(sp, extra, SearchBound(sp, extra))
  {
    var most := MostCopies(|sp.chips|, extra);
    var subsets := Subsets(|sp.chips|, most);
    var s := set x | x in subsets;
    SubsetsDistinct(|sp.chips|, most);
    DistinctSize(subsets, s);
    forall x
      ensures x in s <==> IsSelection(sp, x) && |x| <= 1 + extra
    {
      SubsetsComplete(|sp.chips|, most, x);
      if IsSelection(sp, x) { CombinationFits(x, 0, |sp.chips|); }
    }
  }

  /** sels is in the two sets exactly if it is a candidate, or one that is a
      valid plan, among the first n. */
  ghost predicate Placed(sp: Space, extra: nat, all: seq<seq<Selection>>, n: nat, tried: set<seq<Selection>>, good: set<seq<Selection>>, sels: seq<Selection>)
    requires n <= |all|
  {
    && (sels in tried <==> sels in all[..n] && IsCandidate(sp, extra, sels))
    && (sels in good <==> sels in all[..n] && Feasible(sp, extra, sels))
  }

  ghost predicate Counted(sp: Space, extra: nat, all: seq<seq<Selection>>, n: nat, tried: set<seq<Selection>>, good: set<seq<Selection>>)
    requires n <= |all|
  {
    forall sels {:trigger Placed(sp, extra, all, n, tried, good, sels)} :: Placed(sp, extra, all, n, tried, good, sels)
  }

  lemma CountedNext(sp: Space, extra: nat, all: seq<seq<Selection>>, n: nat, tried: set<seq<Selection>>, good: set<seq<Selection>>)
    returns (tried': set<seq<Selection>>, good': set<seq<Selection>>)
    requires n < |all| && Distinct(all) && Counted(sp, extra, all, n, tried, good)
    ensures all[n] !in tried && all[n] !in good
    ensures tried' == if IsCandidate(sp, extra, all[n]) then tried + {all[n]} else tried
    ensures good' == if Feasible(sp, extra, all[n]) then good + {all[n]} else good
    ensures Counted(sp, extra, all, n + 1, tried', good')
  {
    forall i | 0 <= i < n
      ensures all[..n][i] != all[n]
    {
    }
    assert all[..n + 1] == all[..n] + [all[n]];
    assert Placed(sp, extra, all, n, tried, good, all[n]);
    tried' := if IsCandidate(sp, extra, all[n]) then tried + {all[n]} else tried;
    good' := if Feasible(sp, extra, all[n]) then good + {all[n]} else good;
    var next := n + 1;
    forall sels
      ensures Placed(sp, extra, all, next, tried', good', sels)
    {
      assert Placed(sp, extra, all, n, tried, good, sels);
    }
  }

  lemma AllCounted(sp: Space, extra: nat, all: seq<seq<Selection>>, tried: set<seq<Selection>>, good: set<seq<Selection>>)
    requires all == Product(Subsets(|sp.chips|, MostCopies(|sp.chips|, extra)), |sp.experts|)
    requires Counted(sp, extra, all, |all|, tried, good)
    ensures CountsCandidates(sp, extra, |tried|) && CountsFeasible(sp, extra, |good|)
  {
    assert all[..|all|] == all;
    forall sels
      ensures sels in tried <==> IsCandidate(sp, extra, sels)
    {
      assert Placed(sp, extra, all, |all|, tried, good, sels);
      if IsCandidate(sp, extra, sels) { CandidatesListed(sp, extra, sels); }
    }
    forall sels
      ensures sels in good <==> Feasible(sp, extra, sels)
    {
      assert Placed(sp, extra, all, |all|, tried, good, sels);
      if IsCandidate(sp, extra, sels) { CandidatesListed(sp, extra, sels); }
    }
  }

  /** What the first n candidates gave. */
  ghost predicate Searched(sp: Space, objective: Objective, extra: nat, all: seq<seq<Selection>>, n: nat, best: Option<Found>,
                           evaluated: nat, feasible: nat, tried: set<seq<Selection>>, good: set<seq<Selection>>)
    requires n <= |all|
  {
    && feasible <= evaluated <= n && IsFound(sp, objective, extra, best)
    && (forall m {:trigger all[m]} | 0 <= m < n :: NotBetter(sp, objective, extra, all[m], best))
    && Counted(sp, extra, all, n, tried, good) && evaluated == |tried| && feasible == |good|
  }

  /** Passes over a candidate beyond the budget, and considers any other. */
  method TryNext(sp: Space, objective: Objective, extra: nat, all: seq<seq<Selection>>, n: nat, best: Option<Found>,
                 evaluated: nat, feasible: nat, ghost tried: set<seq<Selection>>, ghost good: set<seq<Selection>>)
    returns (best': Option<Found>, evaluated': nat, feasible': nat, ghost tried': set<seq<Selection>>, ghost good': set<seq<Selection>>)
    requires n < |all| && Distinct(all) && AllSelected(sp, all[n])
    requires Searched(sp, objective, extra, all, n, best, evaluated, feasible, tried, good)
    ensures Searched(sp, objective, extra, all, n + 1, best', evaluated', feasible', tried', good')
  {
    tried', good' := CountedNext(sp, extra, all, n, tried, good);
    best', evaluated', feasible' := best, evaluated, feasible;
    if Sizes(all[n]) <= |all[n]| + extra {
      var ok: bool;
      evaluated' := evaluated + 1;
      best', ok := Consider(sp, objective, extra, all[n], best);
      if ok { feasible' := feasible + 1; }
      assert forall m | 0 <= m < n :: NotBetter(sp, objective, extra, all[m], best);
    }
  }

  /** The loop over the product. */
  method Search(sp: Space, objective: Objective, extra: nat) returns (best: Option<Found>, evaluated: nat, feasible: nat)
    ensures IsFound(sp, objective, extra, best) && IsBest(sp, objective, extra, best)
    ensures CountsCandidates(sp, extra, evaluated) && CountsFeasible(sp, extra, feasible)
    ensures feasible <= evaluated <= SearchBound(sp, extra)
  {
    var subsets := Subsets(|sp.chips|, MostCopies(|sp.chips|, extra));
    var all := Product(subsets, |sp.experts|);
    ProductSize(subsets, |sp.experts|);
    SubsetsDistinct(|sp.chips|, MostCopies(|sp.chips|, extra));
    ProductDistinct(subsets, |sp.experts|);
    best, evaluated, feasible := None, 0, 0;
    ghost var tried: set<seq<Selection>>, good: set<seq<Selection>> := {}, {};
    NothingSearched(sp, objective, extra, all);
    var n := 0;
    while n < |all|
      invariant 0 <= n <= |all| && Searched(sp, objective, extra, all, n, best, evaluated, feasible, tried, good)
    {
      assert all[n] in all;
      ListedAreSelected(sp, extra, all[n]);
      best, evaluated, feasible, tried, good := TryNext(sp, objective, extra, all, n, best, evaluated, feasible, tried, good);
      n := n + 1;
    }
    AllCounted(sp, extra, all, tried, good);
    forall sels | IsCandidate(sp, extra, sels)
      ensures NotBetter(sp, objective, extra, sels, best)
    {
      CandidatesListed(sp, extra, sels);
      var m :| 0 <= m < |all| && all[m] == sels;
    }
  }

  lemma NothingSearched(sp: Space, objective: Objective, extra: nat, all: seq<seq<Selection>>)
    ensures Searched(sp, objective, extra, all, 0, None, 0, 0, {}, {})
  {
    var none: set<seq<Selection>> := {};
    forall sels
      ensures Placed(sp, extra, all, 0, none, none, sels)
    {
    }
  }

  /** The plan is valid, within the budget, and no feasible candidate is better. */
  ghost predicate IsLeast(sp: Space, objective: Objective, extra: nat, plan: seq<ReplicaSpec>) {
    var best := Some(Found(RankOf(objective, plan), plan));
    IsFound(sp, objective, extra, best) && IsBest(sp, objective, extra, best)
  }

  /** The best plan with the numbers of what was searched, or nothing to find. */
  ghost predicate IsAnswer(sp: Space, objective: Objective, extra: nat, most: int, r: Result<OracleResult, OracleError>) {
    match r
    case Err(e) => e == NoFeasiblePlacement && IsBest(sp, objective, extra, None)
    case Ok(v) =>
      && IsLeast(sp, objective, extra, v.plan) && v.objective == objective(v.plan)
      && v.feasible <= v.evaluated <= v.bound <= most && IsBound(sp, extra, v.bound)
      && CountsCandidates(sp, extra, v.evaluated) && CountsFeasible(sp, extra, v.feasible)
  }

  /** When the search is refused, and why. */
  lemma RefusedWhen(sp: Space, maxExtra: int, maxChips: int, maxCandidates: int) returns (bound: nat)
    ensures maxExtra >= 0 ==> IsBound(sp, maxExtra, bound)
    ensures Refused(sp, maxExtra, maxChips, maxCandidates) ==
      if sp.experts == [] || sp.chips == [] then Some(NothingToPlace)
      else if |sp.chips| > maxChips then Some(TooManyChips)
      else if maxExtra < 0 then Some(NegativeBudget)
      else if maxCandidates <= 0 then Some(BadLimit)
      else if bound > maxCandidates then Some(SearchTooLarge)
      else None
  {
    bound := if maxExtra >= 0 then SearchBound(sp, maxExtra) else 0;
    if maxExtra >= 0 { SearchBoundIs(sp, maxExtra); }
  }

  /** `small_replica_oracle`: a feasible placement with the least objective
      within the budget, or none exists. */
  method SmallOracle(sp: Space, objective: Objective, maxExtra: int, maxChips: int, maxCandidates: int)
    returns (r: Result<OracleResult, OracleError>)
    ensures var refused := Refused(sp, maxExtra, maxChips, maxCandidates);
      if refused.Some? then r == Err(refused.value) else IsAnswer(sp, objective, maxExtra, maxCandidates, r)
  {
    var refused := Refused(sp, maxExtra, maxChips, maxCandidates);
    if refused.Some? { return Err(refused.value); }
    SearchBoundIs(sp, maxExtra);
    var best, evaluated, feasible := Search(sp, objective, maxExtra);
    if best.None? { return Err(NoFeasiblePlacement); }
    r := Ok(OracleResult(best.value.plan, best.value.rank.value, evaluated, feasible, SearchBound(sp, maxExtra)));
  }

  // ----- what the oracle promises about every plan -----

  /** The objective depends on where experts are, not on ids or primaries. */
  ghost predicate LocationOnly(inv: Inventory, objective: Objective) {
    forall a, b {:trigger SamePlaces(inv, a, b)} | SamePlaces(inv, a, b) :: objective(a) == objective(b)
  }

  ghost predicate SamePlaces(inv: Inventory, a: seq<ReplicaSpec>, b: seq<ReplicaSpec>) {
    ValidPlan(inv, a) && ValidPlan(inv, b) && Locations(a) == Locations(b)
  }

  /** A valid plan within the budget has a feasible candidate in its places. */
  lemma PlanHasCandidate(sp: Space, extra: nat, rs: seq<ReplicaSpec>)
    requires ValidSpace(sp) && ValidPlan(sp.inv, rs) && |rs| <= |sp.experts| + extra
    ensures var sels := SelectionsOf(sp, rs);
      Feasible(sp, extra, sels) && SamePlaces(sp.inv, PlanOf(sp, sels), rs)
  {
    RebuiltIsValid(sp, rs);
    var sels := SelectionsOf(sp, rs);
    BuiltSize(sp, sels, |sels|);
    assert sels[..|sels|] == sels;
  }

  /** No valid plan within the budget beats the oracle. */
  lemma OracleIsMinimum(sp: Space, objective: Objective, extra: nat, best: Found, rs: seq<ReplicaSpec>)
    requires ValidSpace(sp) && LocationOnly(sp.inv, objective)
    requires IsFound(sp, objective, extra, Some(best)) && IsBest(sp, objective, extra, Some(best))
    requires ValidPlan(sp.inv, rs) && |rs| <= |sp.experts| + extra
    ensures objective(best.plan) <= objective(rs)
  {
    PlanHasCandidate(sp, extra, rs);
    assert NotBetter(sp, objective, extra, SelectionsOf(sp, rs), Some(best));
  }

  /** Of candidates with the same objective the one whose copies come first is
      found: where the two first differ it has the smaller expert, or the same
      expert on the smaller chip, and it is not the longer of two that agree. */
  lemma TiesByPlace(sp: Space, objective: Objective, extra: nat, best: Found, sels: seq<Selection>, i: nat)
    requires IsFound(sp, objective, extra, Some(best)) && IsBest(sp, objective, extra, Some(best))
    requires Feasible(sp, extra, sels) && objective(PlanOf(sp, sels)) == objective(best.plan)
    requires i <= |best.plan| && i <= |PlanOf(sp, sels)|
    requires forall j | 0 <= j < i ::
      best.plan[j].expert == PlanOf(sp, sels)[j].expert && best.plan[j].chip == PlanOf(sp, sels)[j].chip
    ensures var a, b := best.plan, PlanOf(sp, sels);
      && (i == |b| ==> i == |a|)
      && (i < |a| && i < |b| ==> a[i].expert < b[i].expert || (a[i].expert == b[i].expert && a[i].chip <= b[i].chip))
  {
    var a, b := SignatureOf(best.plan), SignatureOf(PlanOf(sp, sels));
    assert NotBetter(sp, objective, extra, sels, Some(best));
    assert forall j | 0 <= j < i :: b[j] == a[j];
    if i < |a| && (i == |b| || PairLess(b[i], a[i])) {
      LessAt(b, a, i);
    }
  }

  lemma {:induction false} LessAt(a: Signature, b: Signature, i: nat)
    requires i <= |a| && i < |b| && (forall j | 0 <= j < i :: a[j] == b[j])
    requires i == |a| || PairLess(a[i], b[i])
    ensures SignatureLess(a, b)
  {
    if i > 0 {
      assert forall j | 0 <= j < i - 1 :: a[1..][j] == b[1..][j];
      LessAt(a[1..], b[1..], i - 1);
    }
  }

  /** The oracle finds something whenever there is a valid plan to find. */
  lemma OracleFindsSome(sp: Space, objective: Objective, extra: nat, best: Option<Found>, rs: seq<ReplicaSpec>)
    requires ValidSpace(sp) && IsBest(sp, objective, extra, best)
    requires ValidPlan(sp.inv, rs) && |rs| <= |sp.experts| + extra
    ensures best.Some?
  {
    PlanHasCandidate(sp, extra, rs);
    assert NotBetter(sp, objective, extra, SelectionsOf(sp, rs), best);
  }

  // ----- the gap report -----

  datatype GapReport =
    | Unavailable(heuristic: real, reason: OracleError)
    | Gap(heuristic: real, oracle: real, absolute: real, relative: Option<real>, optimal: bool, evaluated: nat)

  datatype AuditError = BadTolerance | OverBudget | BelowOracle | OracleFailed(error: OracleError)

  function Abs(x: real): real {
    if x < 0.0 then -x else x
  }

  lemma PlanCoversExperts(sp: Space, rs: seq<ReplicaSpec>)
    requires ValidSpace(sp) && ValidPlan(sp.inv, rs)
    ensures |rs| >= |sp.experts| && sp.experts != [] && sp.chips != []
  {
    RebuiltIsValid(sp, rs);
    var sels := SelectionsOf(sp, rs);
    BuiltSize(sp, sels, |sels|);
    assert sels[..|sels|] == sels;
    forall k | 0 <= k < |sels|
      ensures sels[k] != []
    {
      assert IsSelection(sp, sels[k]);
    }
    SizesAtLeast(sels);
    var e := Member(sp.inv.weight.Keys);
    var c := Member(sp.inv.chips.Keys);
    assert e in sp.experts && c in sp.chips;
  }

  /** `audit_oracle_gap`: for an objective of locations alone the heuristic is
      never below the oracle, and it is called optimal exactly when no valid
      plan within the budget beats it by more than the tolerance. */
  method Audit(sp: Space, heuristic: seq<ReplicaSpec>, objective: Objective, maxExtra: int, maxChips: int, maxCandidates: int, tolerance: real)
    returns (r: Result<GapReport, AuditError>)
    requires ValidSpace(sp) && ValidPlan(sp.inv, heuristic)
    ensures tolerance < 0.0 ==> r == Err(BadTolerance)
    ensures tolerance >= 0.0 && |heuristic| - |sp.experts| > maxExtra ==> r == Err(OverBudget)
    ensures tolerance >= 0.0 && |heuristic| - |sp.experts| <= maxExtra ==>
      match Refused(sp, maxExtra, maxChips, maxCandidates)
      case Some(e) => r == if e == BadLimit then Err(OracleFailed(e)) else Ok(Unavailable(objective(heuristic), e))
      case None => IsAudit(sp, objective, maxExtra, heuristic, tolerance, r)
  {
    if tolerance < 0.0 { return Err(BadTolerance); }
    if |heuristic| - |sp.experts| > maxExtra { return Err(OverBudget); }
    PlanCoversExperts(sp, heuristic);
    var oracle := SmallOracle(sp, objective, maxExtra, maxChips, maxCandidates);
    if oracle.Err? {
      if oracle.error == SearchTooLarge || oracle.error == TooManyChips {
        return Ok(Unavailable(objective(heuristic), oracle.error));
      }
      if oracle.error == NoFeasiblePlacement {
        OracleFindsSome(sp, objective, maxExtra, None, heuristic);
      }
      return Err(OracleFailed(oracle.error));
    }
    r := Compare(sp, objective, maxExtra, heuristic, tolerance, oracle.value);
  }

  /** The heuristic against the plan found. */
  method Compare(sp: Space, objective: Objective, extra: nat, heuristic: seq<ReplicaSpec>, tolerance: real, oracle: OracleResult)
    returns (r: Result<GapReport, AuditError>)
    requires ValidSpace(sp) && ValidPlan(sp.inv, heuristic) && tolerance >= 0.0 && |heuristic| <= |sp.experts| + extra
    requires IsLeast(sp, objective, extra, oracle.plan) && oracle.objective == objective(oracle.plan)
    requires CountsCandidates(sp, extra, oracle.evaluated)
    ensures IsAudit(sp, objective, extra, heuristic, tolerance, r)
  {
    var value := objective(heuristic);
    ghost var best := Found(RankOf(objective, oracle.plan), oracle.plan);
    if LocationOnly(sp.inv, objective) {
      OracleIsMinimum(sp, objective, extra, best, heuristic);
    }
    var gap := value - oracle.objective;
    if gap < -tolerance { return Err(BelowOracle); }
    if Abs(gap) <= tolerance { gap := 0.0; }
    var relative: Option<real> := None;
    if Abs(oracle.objective) > tolerance {
      relative := Some(gap / Abs(oracle.objective));
      QuotientTimes(gap, Abs(oracle.objective));
    } else if gap == 0.0 {
      relative := Some(0.0);
    }
    r := Ok(Gap(value, oracle.objective, gap, relative, gap == 0.0, oracle.evaluated));
    GapIsRight(sp, objective, extra, heuristic, tolerance, best, r.value);
  }

  lemma QuotientTimes(x: real, y: real)
    requires y > 0.0
    ensures x / y * y == x
  {}

  /** Within the tolerance of everything a plan within the budget can reach. */
  ghost predicate NearBest(sp: Space, objective: Objective, extra: nat, heuristic: seq<ReplicaSpec>, tolerance: real) {
    forall rs {:trigger ValidPlan(sp.inv, rs)} | ValidPlan(sp.inv, rs) && |rs| <= |sp.experts| + extra ::
      objective(heuristic) <= objective(rs) + tolerance
  }

  /** The numbers of the report: the gap to the best plan, nothing within the
      tolerance, and the gap in units of the best value where that is not
      nothing itself. */
  predicate IsReport(value: real, tolerance: real, g: GapReport)
    requires g.Gap?
  {
    && g.heuristic == value && g.optimal == (g.absolute == 0.0)
    && g.absolute == (if value - g.oracle <= tolerance then 0.0 else value - g.oracle)
    && (if -tolerance <= g.oracle <= tolerance
        then g.relative == if g.absolute == 0.0 then Some(0.0) else None
        else g.relative.Some? && g.relative.value * (if g.oracle < 0.0 then -g.oracle else g.oracle) == g.absolute)
  }

  /** What an audit with a search says: a report on the best plan, or that the
      heuristic is better than that, which no objective of locations allows. */
  ghost predicate IsAudit(sp: Space, objective: Objective, extra: nat, heuristic: seq<ReplicaSpec>, tolerance: real, r: Result<GapReport, AuditError>) {
    exists plan {:trigger IsLeast(sp, objective, extra, plan)} :: IsLeast(sp, objective, extra, plan) &&
      match r
      case Err(e) => e == BelowOracle && !LocationOnly(sp.inv, objective) && objective(heuristic) < objective(plan) - tolerance
      case Ok(g) =>
        && g.Gap? && g.oracle == objective(plan) && objective(heuristic) >= objective(plan) - tolerance
        && IsReport(objective(heuristic), tolerance, g) && CountsCandidates(sp, extra, g.evaluated)
        && (LocationOnly(sp.inv, objective) ==> (g.optimal <==> NearBest(sp, objective, extra, heuristic, tolerance)))
  }

  lemma GapIsRight(sp: Space, objective: Objective, extra: nat, heuristic: seq<ReplicaSpec>, tolerance: real, best: Found, g: GapReport)
    requires ValidSpace(sp) && tolerance >= 0.0 && g.Gap? && IsReport(objective(heuristic), tolerance, g)
    requires IsFound(sp, objective, extra, Some(best)) && IsBest(sp, objective, extra, Some(best)) && g.oracle == objective(best.plan)
    ensures LocationOnly(sp.inv, objective) ==> (g.optimal <==> NearBest(sp, objective, extra, heuristic, tolerance))
  {
    if LocationOnly(sp.inv, objective) {
      if g.optimal {
        forall rs | ValidPlan(sp.inv, rs) && |rs| <= |sp.experts| + extra
          ensures objective(heuristic) <= objective(rs) + tolerance
        {
          OracleIsMinimum(sp, objective, extra, best, rs);
        }
      } else {
        assert ValidPlan(sp.inv, best.plan);
      }
    }
  }
}
