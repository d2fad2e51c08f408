/** Placements as selections of chips, one for each expert. */
module OraclePlans {
  import opened Basics
  import opened ConvexAllocation
  import opened ReplicaPlans
  import opened Rebalancing
  import opened Enumeration

  /** Experts and chips in a fixed order. */
  datatype Space = Space(inv: Inventory, experts: seq<ExpertId>, chips: seq<ChipId>)

  predicate NoRepeats(q: seq<nat>) {
    forall i, j | 0 <= i < j < |q| :: q[i] != q[j]
  }

  ghost predicate ValidSpace(sp: Space) {
    && NoRepeats(sp.experts) && NoRepeats(sp.chips)
    && (forall e :: e in sp.experts <==> e in sp.inv.weight) && (forall c :: c in sp.chips <==> c in sp.inv.chips)
  }

  type Selection = seq<nat>

  predicate IsSelection(sp: Space, s: Selection) {
    s != [] && IsCombination(s, 0, |sp.chips|)
  }

  ghost predicate AllSelected(sp: Space, sels: seq<Selection>) {
    |sels| == |sp.experts| && forall i {:trigger IsSelection(sp, sels[i])} | 0 <= i < |sels| :: IsSelection(sp, sels[i])
  }

  // ----- building the replicas of a candidate -----

  /** The copies of one expert; the first is the primary. */
  function CopiesOf(sp: Space, e: ExpertId, s: Selection, base: nat): seq<ReplicaSpec>
    requires forall c | 0 <= c < |s| :: s[c] < |sp.chips|
  {
    seq(|s|, c requires 0 <= c < |s| => ReplicaSpec(base + c, e, sp.chips[s[c]], c == 0))
  }

  ghost function Built(sp: Space, sels: seq<Selection>, k: nat): seq<ReplicaSpec>
    requires AllSelected(sp, sels) && k <= |sels|
  {
    if k == 0 then [] else
    var before := Built(sp, sels, k - 1);
    assert IsSelection(sp, sels[k - 1]);
    before + CopiesOf(sp, sp.experts[k - 1], sels[k - 1], |before|)
  }

  /** The ids are the positions, and every replica is a selected copy. */
  ghost predicate CopyAt(sp: Space, sels: seq<Selection>, rs: seq<ReplicaSpec>, k: nat, p: nat) {
    && p < |rs| && rs[p].id == p
    && exists i: nat, c: nat :: i < k && i < |sels| && i < |sp.experts| && c < |sels[i]| && sels[i][c] < |sp.chips|
         && rs[p].expert == sp.experts[i] && rs[p].chip == sp.chips[sels[i][c]]
  }

  lemma {:induction false} BuiltAt(sp: Space, sels: seq<Selection>, k: nat, p: nat)
    requires AllSelected(sp, sels) && k <= |sels| && p < |Built(sp, sels, k)|
    ensures CopyAt(sp, sels, Built(sp, sels, k), k, p)
  {
    var before, rs := Built(sp, sels, k - 1), Built(sp, sels, k);
    assert IsSelection(sp, sels[k - 1]);
    if p < |before| {
      BuiltAt(sp, sels, k - 1, p);
      assert rs[p] == before[p];
      var i: nat, c: nat :| i < k - 1 && i < |sels| && i < |sp.experts| && c < |sels[i]| && sels[i][c] < |sp.chips|
        && before[p].expert == sp.experts[i] && before[p].chip == sp.chips[sels[i][c]];
      assert rs[p].expert == sp.experts[i] && rs[p].chip == sp.chips[sels[i][c]];
    } else {
      var c := p - |before|;
      assert rs[p].expert == sp.experts[k - 1] && rs[p].chip == sp.chips[sels[k - 1][c]];
    }
  }

  /** Experts before k have no replica of expert k. */
  lemma {:induction false} BuiltIsApart(sp: Space, sels: seq<Selection>, k: nat)
    requires ValidSpace(sp) && AllSelected(sp, sels) && k <= |sels|
    ensures AllApart(Built(sp, sels, k)) && AllKnown(sp.inv, Built(sp, sels, k))
  {
    var rs := Built(sp, sels, k);
    if k > 0 {
      var before := Built(sp, sels, k - 1);
      BuiltIsApart(sp, sels, k - 1);
      assert IsSelection(sp, sels[k - 1]);
      forall i: nat, j: nat | i < j < |rs|
        ensures Apart(rs, i, j)
      {
        BuiltAt(sp, sels, k, i);
        BuiltAt(sp, sels, k, j);
        if j < |before| {
          assert Apart(before, i, j);
        } else if i < |before| {
          BuiltAt(sp, sels, k - 1, i);
        } else {
          assert sels[k - 1][i - |before|] < sels[k - 1][j - |before|];
        }
      }
    }
    forall i: nat | i < |rs|
      ensures KnownAt(sp.inv, rs, i)
    {
      BuiltAt(sp, sels, k, i);
    }
  }

  lemma {:induction false} PrimariesOfCopies(sp: Space, e: ExpertId, s: Selection, base: nat, x: ExpertId, n: nat)
    requires (forall c | 0 <= c < |s| :: s[c] < |sp.chips|) && n <= |s|
    ensures Primaries(CopiesOf(sp, e, s, base)[..n], x) == if x == e && n > 0 then 1 else 0
  {
    if n > 0 {
      PrimariesOfCopies(sp, e, s, base, x, n - 1);
      var rs := CopiesOf(sp, e, s, base);
      assert rs[..n][..n - 1] == rs[..n - 1];
    }
  }

  lemma {:induction false} BuiltPrimaries(sp: Space, sels: seq<Selection>, k: nat, j: nat)
    requires ValidSpace(sp) && AllSelected(sp, sels) && k <= |sels| && j < |sels|
    ensures Primaries(Built(sp, sels, k), sp.experts[j]) == if j < k then 1 else 0
  {
    if k > 0 {
      BuiltPrimaries(sp, sels, k - 1, j);
      assert IsSelection(sp, sels[k - 1]);
      assert sp.experts[j] == sp.experts[k - 1] <==> j == k - 1;
      PrimariesWithCopies(sp, Built(sp, sels, k - 1), sp.experts[k - 1], sels[k - 1], sp.experts[j]);
    }
  }

  lemma PrimariesWithCopies(sp: Space, before: seq<ReplicaSpec>, e: ExpertId, s: Selection, x: ExpertId)
    requires s != [] && forall c | 0 <= c < |s| :: s[c] < |sp.chips|
    ensures Primaries(before + CopiesOf(sp, e, s, |before|), x) == Primaries(before, x) + if x == e then 1 else 0
  {
    var copies := CopiesOf(sp, e, s, |before|);
    PrimariesOfCopies(sp, e, s, |before|, x, |copies|);
    assert copies[..|copies|] == copies;
    UsedJoin(sp.inv, before, copies, 0);
  }

  function Sizes(sels: seq<Selection>): nat {
    if sels == [] then 0 else Sizes(sels[..|sels| - 1]) + |sels[|sels| - 1]|
  }

  lemma {:induction false} BuiltSize(sp: Space, sels: seq<Selection>, k: nat)
    requires AllSelected(sp, sels) && k <= |sels|
    ensures |Built(sp, sels, k)| == Sizes(sels[..k])
  {
    if k > 0 {
      BuiltSize(sp, sels, k - 1);
      assert IsSelection(sp, sels[k - 1]);
      assert sels[..k][..k - 1] == sels[..k - 1];
    }
  }

  lemma {:induction false} BuiltLocations(sp: Space, sels: seq<Selection>, k: nat, i: nat, c: nat)
    requires AllSelected(sp, sels) && i < k <= |sels| && c < |sels[i]| && sels[i][c] < |sp.chips|
    ensures (sp.experts[i], sp.chips[sels[i][c]]) in Locations(Built(sp, sels, k))
  {
    var before, rs := Built(sp, sels, k - 1), Built(sp, sels, k);
    assert IsSelection(sp, sels[k - 1]);
    if i < k - 1 {
      BuiltLocations(sp, sels, k - 1, i, c);
      var p :| 0 <= p < |before| && (before[p].expert, before[p].chip) == (sp.experts[i], sp.chips[sels[i][c]]);
      assert rs[p] == before[p];
    } else {
      assert rs[|before| + c].expert == sp.experts[i] && rs[|before| + c].chip == sp.chips[sels[i][c]];
    }
  }

  // ----- the selections of a placement -----

  /** The chips below j that hold e. */
  function ChosenBelow(sp: Space, rs: seq<ReplicaSpec>, e: ExpertId, j: nat): Selection
    requires j <= |sp.chips|
  {
    if j == 0 then [] else
    ChosenBelow(sp, rs, e, j - 1) + (if (e, sp.chips[j - 1]) in Locations(rs) then [j - 1] else [])
  }

  lemma {:induction false} ChosenIsCombination(sp: Space, rs: seq<ReplicaSpec>, e: ExpertId, j: nat)
    requires j <= |sp.chips|
    ensures IsCombination(ChosenBelow(sp, rs, e, j), 0, j)
    ensures forall x: nat :: x in ChosenBelow(sp, rs, e, j) <==> x < j && (e, sp.chips[x]) in Locations(rs)
  {
    if j > 0 {
      ChosenIsCombination(sp, rs, e, j - 1);
    }
  }

  function SelectionsOf(sp: Space, rs: seq<ReplicaSpec>): seq<Selection> {
    seq(|sp.experts|, i requires 0 <= i < |sp.experts| => ChosenBelow(sp, rs, sp.experts[i], |sp.chips|))
  }

  lemma {:induction false} PrimaryPosition(rs: seq<ReplicaSpec>, e: ExpertId) returns (i: nat)
    requires Primaries(rs, e) > 0
    ensures i < |rs| && rs[i].expert == e
  {
    if IsPrimaryOf(rs[|rs| - 1], e) > 0 {
      i := |rs| - 1;
    } else {
      i := PrimaryPosition(rs[..|rs| - 1], e);
    }
  }

  lemma PlanIsSelected(sp: Space, rs: seq<ReplicaSpec>)
    requires ValidSpace(sp) && ValidPlan(sp.inv, rs)
    ensures AllSelected(sp, SelectionsOf(sp, rs))
  {
    forall i | 0 <= i < |sp.experts|
      ensures IsSelection(sp, SelectionsOf(sp, rs)[i])
    {
      var e := sp.experts[i];
      ChosenIsCombination(sp, rs, e, |sp.chips|);
      assert e in sp.inv.weight && Primaries(rs, e) == 1;
      var p := PrimaryPosition(rs, e);
      assert KnownAt(sp.inv, rs, p) && rs[p].chip in sp.chips;
      var x :| 0 <= x < |sp.chips| && sp.chips[x] == rs[p].chip;
      assert x in ChosenBelow(sp, rs, e, |sp.chips|);
    }
  }

  /** Rebuilding a plan from its selections gives the same locations. */
  lemma RebuiltLocations(sp: Space, rs: seq<ReplicaSpec>)
    requires ValidSpace(sp) && ValidPlan(sp.inv, rs) && AllSelected(sp, SelectionsOf(sp, rs))
    ensures Locations(Built(sp, SelectionsOf(sp, rs), |sp.experts|)) == Locations(rs)
  {
    var sels, n := SelectionsOf(sp, rs), |sp.experts|;
    var all := Built(sp, sels, n);
    forall x | x in Locations(all)
      ensures x in Locations(rs)
    {
      var p :| 0 <= p < |all| && (all[p].expert, all[p].chip) == x;
      BuiltAt(sp, sels, n, p);
      var i: nat, c: nat :| i < n && i < |sels| && c < |sels[i]| && sels[i][c] < |sp.chips|
        && all[p].expert == sp.experts[i] && all[p].chip == sp.chips[sels[i][c]];
      ChosenIsCombination(sp, rs, sp.experts[i], |sp.chips|);
      assert sels[i][c] in sels[i];
    }
    forall x | x in Locations(rs)
      ensures x in Locations(all)
    {
      var p :| 0 <= p < |rs| && (rs[p].expert, rs[p].chip) == x;
      assert KnownAt(sp.inv, rs, p) && rs[p].expert in sp.experts && rs[p].chip in sp.chips;
      var i: nat :| i < n && sp.experts[i] == rs[p].expert;
      var j: nat :| j < |sp.chips| && sp.chips[j] == rs[p].chip;
      ChosenIsCombination(sp, rs, sp.experts[i], |sp.chips|);
      assert j in sels[i];
      var c: nat :| c < |sels[i]| && sels[i][c] == j;
      BuiltLocations(sp, sels, n, i, c);
    }
  }

  // ----- validity depends on the locations alone -----

  function WeightsOf(inv: Inventory, s: set<ExpertId>): Counts {
    map e | e in s && e in inv.weight :: inv.weight[e]
  }

  lemma {:induction false} UsedByExperts(inv: Inventory, rs: seq<ReplicaSpec>, c: ChipId)
    requires AllApart(rs) && AllKnown(inv, rs)
    ensures Used(inv, rs, c) == Total(WeightsOf(inv, ExpertsOn(rs, c)))
  {
    if rs == [] {
      TotalEmpty(WeightsOf(inv, ExpertsOn(rs, c)));
    } else {
      var last := |rs| - 1;
      var p := rs[..last];
      forall i: nat, j: nat | i < j < |p|
        ensures Apart(p, i, j)
      {
        assert Apart(rs, i, j);
      }
      forall i: nat | i < |p|
        ensures KnownAt(inv, p, i)
      {
        assert KnownAt(inv, rs, i);
      }
      UsedByExperts(inv, p, c);
      LastExpert(rs, c);
      assert KnownAt(inv, rs, last);
      if rs[last].chip == c {
        OneMoreWeight(inv, ExpertsOn(p, c), rs[last].expert);
      }
    }
  }

  lemma OneMoreWeight(inv: Inventory, s: set<ExpertId>, e: ExpertId)
    requires e !in s && e in inv.weight
    ensures Total(WeightsOf(inv, s + {e})) == Total(WeightsOf(inv, s)) + inv.weight[e]
  {
    TotalRemove(WeightsOf(inv, s + {e}), e);
    assert WeightsOf(inv, s + {e}) - {e} == WeightsOf(inv, s);
  }

  lemma ExpertsByLocations(rs: seq<ReplicaSpec>, c: ChipId, e: ExpertId)
    ensures e in ExpertsOn(rs, c) <==> (e, c) in Locations(rs)
  {
    if e in ExpertsOn(rs, c) {
      var i :| 0 <= i < |rs| && rs[i].chip == c && rs[i].expert == e;
      assert (rs[i].expert, rs[i].chip) in Locations(rs);
    }
    if (e, c) in Locations(rs) {
      var i :| 0 <= i < |rs| && (rs[i].expert, rs[i].chip) == (e, c);
      assert rs[i].expert in ExpertsOn(rs, c);
    }
  }

  lemma SameLocationsSameExperts(rs: seq<ReplicaSpec>, rs': seq<ReplicaSpec>, c: ChipId)
    requires Locations(rs) == Locations(rs')
    ensures ExpertsOn(rs, c) == ExpertsOn(rs', c)
  {
    forall e: ExpertId
      ensures e in ExpertsOn(rs, c) <==> e in ExpertsOn(rs', c)
    {
      ExpertsByLocations(rs, c, e);
      ExpertsByLocations(rs', c, e);
    }
  }

  lemma {:induction false} LocationsSize(rs: seq<ReplicaSpec>)
    requires AllApart(rs)
    ensures |Locations(rs)| == |rs|
  {
    if rs != [] {
      var last := |rs| - 1;
      var p := rs[..last];
      forall i: nat, j: nat | i < j < |p|
        ensures Apart(p, i, j)
      {
        assert Apart(rs, i, j);
      }
      LocationsSize(p);
      LastLocation(rs);
    }
  }

  lemma LastLocation(rs: seq<ReplicaSpec>)
    requires rs != [] && AllApart(rs)
    ensures var last := |rs| - 1; var x := (rs[last].expert, rs[last].chip);
      x !in Locations(rs[..last]) && Locations(rs) == Locations(rs[..last]) + {x}
  {
    var last := |rs| - 1;
    var p, x := rs[..last], (rs[last].expert, rs[last].chip);
    forall i: nat | i < last
      ensures (p[i].expert, p[i].chip) != x && (p[i].expert, p[i].chip) == (rs[i].expert, rs[i].chip)
    {
      assert Apart(rs, i, last);
    }
    forall y | y in Locations(rs)
      ensures y in Locations(p) || y == x
    {
      var i :| 0 <= i < |rs| && (rs[i].expert, rs[i].chip) == y;
      assert i < last ==> (p[i].expert, p[i].chip) in Locations(p);
    }
    forall y | y in Locations(p)
      ensures y in Locations(rs) && y != x
    {
      var i :| 0 <= i < |p| && (p[i].expert, p[i].chip) == y;
      assert (rs[i].expert, rs[i].chip) in Locations(rs);
    }
    assert (rs[last].expert, rs[last].chip) in Locations(rs);
  }

  /** A candidate in the same places as a valid plan is a valid plan. */
  lemma RebuiltIsValid(sp: Space, rs: seq<ReplicaSpec>)
    requires ValidSpace(sp) && ValidPlan(sp.inv, rs)
    ensures AllSelected(sp, SelectionsOf(sp, rs))
    ensures var all := Built(sp, SelectionsOf(sp, rs), |sp.experts|);
      ValidPlan(sp.inv, all) && Locations(all) == Locations(rs) && |all| == |rs|
  {
    PlanIsSelected(sp, rs);
    RebuiltLocations(sp, rs);
    var sels := SelectionsOf(sp, rs);
    var all := Built(sp, sels, |sp.experts|);
    BuiltIsApart(sp, sels, |sp.experts|);
    LocationsSize(rs);
    LocationsSize(all);
    forall c | c in sp.inv.chips.Keys
      ensures HasRoom(sp.inv, all, c)
    {
      assert HasRoom(sp.inv, rs, c);
      SameLocationsSameExperts(rs, all, c);
      UsedByExperts(sp.inv, rs, c);
      UsedByExperts(sp.inv, all, c);
      ResidentsAreExperts(rs, c);
      ResidentsAreExperts(all, c);
    }
    forall e | e in sp.inv.weight.Keys
      ensures Primaries(all, e) == 1
    {
      assert e in sp.experts;
      var j :| 0 <= j < |sp.experts| && sp.experts[j] == e;
      BuiltPrimaries(sp, sels, |sp.experts|, j);
    }
  }

  /** The budget bounds every selection, so larger subsets are never needed. */
  lemma {:induction false} SelectionWithinBudget(sels: seq<Selection>, i: nat, extra: nat)
    requires i < |sels| && (forall k | 0 <= k < |sels| :: sels[k] != []) && Sizes(sels) <= |sels| + extra
    ensures |sels[i]| <= 1 + extra
  {
    var last := |sels| - 1;
    SizesAtLeast(sels[..last]);
    if i < last {
      assert sels[last] != [];
      SelectionWithinBudget(sels[..last], i, extra);
    }
  }

  lemma {:induction false} SizesAtLeast(sels: seq<Selection>)
    requires forall k | 0 <= k < |sels| :: sels[k] != []
    ensures Sizes(sels) >= |sels|
  {
    if sels != [] {
      SizesAtLeast(sels[..|sels| - 1]);
      assert sels[|sels| - 1] != [];
    }
  }
}
