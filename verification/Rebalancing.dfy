/** Moving and swapping replicas keeps a plan valid. */
module Rebalancing {
  import opened Basics
  import opened ReplicaPlans

  // ----- recounts after a replacement -----

  lemma {:induction false} UsedReplaced(inv: Inventory, rs: seq<ReplicaSpec>, i: nat, r: ReplicaSpec, c: ChipId)
    requires i < |rs|
    ensures Used(inv, rs[i := r], c) + Burden(inv, rs[i], c) == Used(inv, rs, c) + Burden(inv, r, c)
  {
    var last := |rs| - 1;
    if i < last {
      UsedReplaced(inv, rs[..last], i, r, c);
      assert rs[i := r][..last] == rs[..last][i := r];
    } else {
      assert rs[i := r][..last] == rs[..last];
    }
  }

  lemma {:induction false} ResidentsReplaced(rs: seq<ReplicaSpec>, i: nat, r: ReplicaSpec, c: ChipId)
    requires i < |rs|
    ensures Residents(rs[i := r], c) + Here(rs[i], c) == Residents(rs, c) + Here(r, c)
  {
    var last := |rs| - 1;
    if i < last {
      ResidentsReplaced(rs[..last], i, r, c);
      assert rs[i := r][..last] == rs[..last][i := r];
    } else {
      assert rs[i := r][..last] == rs[..last];
    }
  }

  lemma {:induction false} PrimariesReplaced(rs: seq<ReplicaSpec>, i: nat, r: ReplicaSpec, e: ExpertId)
    requires i < |rs| && r.expert == rs[i].expert && r.primary == rs[i].primary
    ensures Primaries(rs[i := r], e) == Primaries(rs, e)
  {
    var last := |rs| - 1;
    if i < last {
      PrimariesReplaced(rs[..last], i, r, e);
      assert rs[i := r][..last] == rs[..last][i := r];
    } else {
      assert rs[i := r][..last] == rs[..last];
    }
  }

  /** On one chip, replicas and experts are as many. */
  lemma {:induction false} ResidentsAreExperts(rs: seq<ReplicaSpec>, c: ChipId)
    requires AllApart(rs)
    ensures Residents(rs, c) == |ExpertsOn(rs, c)|
  {
    if rs != [] {
      var last := |rs| - 1;
      var p := rs[..last];
      forall i: nat, j: nat | i < j < |p|
        ensures Apart(p, i, j)
      {
        assert Apart(rs, i, j);
      }
      ResidentsAreExperts(p, c);
      LastExpert(rs, c);
    }
  }

  lemma LastExpert(rs: seq<ReplicaSpec>, c: ChipId)
    requires rs != [] && AllApart(rs)
    ensures var last := |rs| - 1;
      if rs[last].chip == c
      then rs[last].expert !in ExpertsOn(rs[..last], c) && ExpertsOn(rs, c) == ExpertsOn(rs[..last], c) + {rs[last].expert}
      else ExpertsOn(rs, c) == ExpertsOn(rs[..last], c)
  {
    var last := |rs| - 1;
    var p := rs[..last];
    forall i: nat | i < last
      ensures Apart(rs, i, last) && p[i] == rs[i]
    {
    }
    forall e | e in ExpertsOn(rs, c)
      ensures e in ExpertsOn(p, c) || (rs[last].chip == c && e == rs[last].expert)
    {
      var i :| 0 <= i < |rs| && rs[i].chip == c && rs[i].expert == e;
      assert i < last ==> p[i].expert in ExpertsOn(p, c);
    }
    forall e | e in ExpertsOn(p, c)
      ensures e in ExpertsOn(rs, c) && (rs[last].chip == c ==> e != rs[last].expert)
    {
      var i :| 0 <= i < |p| && p[i].chip == c && p[i].expert == e;
      assert rs[i].expert in ExpertsOn(rs, c) && Apart(rs, i, last);
    }
    assert rs[last].chip == c ==> rs[last].expert in ExpertsOn(rs, c);
  }

  // ----- moving one replica -----

  function Moved(rs: seq<ReplicaSpec>, i: nat, target: ChipId): seq<ReplicaSpec>
    requires i < |rs|
  {
    rs[i := rs[i].(chip := target)]
  }

  /** What the planner checks before it considers a move. */
  predicate CanMove(inv: Inventory, rs: seq<ReplicaSpec>, i: nat, target: ChipId) {
    && KnownAt(inv, rs, i) && target in inv.chips && rs[i].chip != target
    && rs[i].expert !in ExpertsOn(rs, target)
    && (inv.chips[target].maxExperts.Some? ==> |ExpertsOn(rs, target)| + 1 <= inv.chips[target].maxExperts.value)
    && Used(inv, rs, target) + inv.weight[rs[i].expert] <= inv.chips[target].bytes
  }

  lemma RelocateApart(rs: seq<ReplicaSpec>, i: nat, target: ChipId)
    requires i < |rs| && AllApart(rs) && rs[i].expert !in ExpertsOn(rs, target)
    ensures AllApart(Moved(rs, i, target))
  {
    var rs' := Moved(rs, i, target);
    forall a: nat, b: nat | a < b < |rs|
      ensures Apart(rs', a, b)
    {
      assert Apart(rs, a, b);
      assert rs[a].chip == target ==> rs[a].expert in ExpertsOn(rs, target);
      assert rs[b].chip == target ==> rs[b].expert in ExpertsOn(rs, target);
    }
  }

  /** The experts on each chip after a relocation. */
  lemma RelocateExperts(rs: seq<ReplicaSpec>, i: nat, target: ChipId, c: ChipId)
    requires i < |rs| && AllApart(rs) && rs[i].chip != target
    ensures var e := rs[i].expert;
      ExpertsOn(Moved(rs, i, target), c) ==
        if c == target then ExpertsOn(rs, c) + {e} else if c == rs[i].chip then ExpertsOn(rs, c) - {e} else ExpertsOn(rs, c)
  {
    var rs', e := Moved(rs, i, target), rs[i].expert;
    forall x | x in ExpertsOn(rs', c)
      ensures (c == target && x == e) || (x in ExpertsOn(rs, c) && (c == rs[i].chip ==> x != e))
    {
      var k :| 0 <= k < |rs'| && rs'[k].chip == c && rs'[k].expert == x;
      if k != i {
        assert rs[k].expert in ExpertsOn(rs, c);
        assert if k < i then Apart(rs, k, i) else Apart(rs, i, k);
      }
    }
    forall x | x in ExpertsOn(rs, c) && (c != rs[i].chip || x != e)
      ensures x in ExpertsOn(rs', c)
    {
      var k :| 0 <= k < |rs| && rs[k].chip == c && rs[k].expert == x;
      assert rs'[k].expert in ExpertsOn(rs', c);
    }
    assert rs'[i].expert in ExpertsOn(rs', target);
  }

  lemma RelocateKeepsLabels(inv: Inventory, rs: seq<ReplicaSpec>, i: nat, target: ChipId)
    requires i < |rs| && AllKnown(inv, rs) && target in inv.chips
    requires forall e {:trigger Primaries(rs, e)} | e in inv.weight.Keys :: Primaries(rs, e) == 1
    ensures var rs' := Moved(rs, i, target);
      AllKnown(inv, rs') && forall e {:trigger Primaries(rs', e)} | e in inv.weight.Keys :: Primaries(rs', e) == 1
  {
    var rs' := Moved(rs, i, target);
    forall k: nat | k < |rs|
      ensures KnownAt(inv, rs', k)
    {
      assert KnownAt(inv, rs, k);
    }
    forall e | e in inv.weight.Keys
      ensures Primaries(rs', e) == 1
    {
      PrimariesReplaced(rs, i, rs'[i], e);
    }
  }

  /** A move that passes the checks gives a valid plan again. */
  lemma MoveIsValid(inv: Inventory, rs: seq<ReplicaSpec>, i: nat, target: ChipId)
    requires ValidPlan(inv, rs) && CanMove(inv, rs, i, target)
    ensures ValidPlan(inv, Moved(rs, i, target))
  {
    var rs' := Moved(rs, i, target);
    RelocateApart(rs, i, target);
    RelocateKeepsLabels(inv, rs, i, target);
    ResidentsAreExperts(rs, target);
    forall c | c in inv.chips.Keys
      ensures HasRoom(inv, rs', c)
    {
      assert HasRoom(inv, rs, c);
      UsedReplaced(inv, rs, i, rs'[i], c);
      ResidentsReplaced(rs, i, rs'[i], c);
    }
  }

  /** Replicas of one expert are on different chips. */
  lemma NotTwice(rs: seq<ReplicaSpec>, rs': seq<ReplicaSpec>, i: nat, k: nat)
    requires AllApart(rs') && |rs'| == |rs| && i < |rs| && k < |rs| && i != k
    ensures rs'[i].expert != rs'[k].expert || rs'[i].chip != rs'[k].chip
  {
    assert if i < k then Apart(rs', i, k) else Apart(rs', k, i);
  }

  /** The checks of a move refuse no valid plan: between two chips they pass
      exactly when the plan after the move is valid. */
  lemma MoveAllowedIff(inv: Inventory, rs: seq<ReplicaSpec>, i: nat, target: ChipId)
    requires ValidPlan(inv, rs) && i < |rs| && target in inv.chips && rs[i].chip != target
    ensures CanMove(inv, rs, i, target) <==> ValidPlan(inv, Moved(rs, i, target))
  {
    var rs' := Moved(rs, i, target);
    assert KnownAt(inv, rs, i);
    if CanMove(inv, rs, i, target) { MoveIsValid(inv, rs, i, target); }
    if ValidPlan(inv, rs') {
      if rs[i].expert in ExpertsOn(rs, target) {
        var k :| 0 <= k < |rs| && rs[k].chip == target && rs[k].expert == rs[i].expert;
        NotTwice(rs, rs', i, k);
      }
      assert HasRoom(inv, rs', target);
      UsedReplaced(inv, rs, i, rs'[i], target);
      ResidentsReplaced(rs, i, rs'[i], target);
      ResidentsAreExperts(rs, target);
    }
  }

  // ----- swapping two replicas -----

  function Swapped(rs: seq<ReplicaSpec>, i: nat, j: nat): seq<ReplicaSpec>
    requires i < |rs| && j < |rs|
  {
    rs[i := rs[i].(chip := rs[j].chip)][j := rs[j].(chip := rs[i].chip)]
  }

  predicate CanSwap(inv: Inventory, rs: seq<ReplicaSpec>, i: nat, j: nat) {
    && KnownAt(inv, rs, i) && KnownAt(inv, rs, j) && i != j
    && rs[i].expert != rs[j].expert && rs[i].chip != rs[j].chip
    && rs[j].expert !in ExpertsOn(rs, rs[i].chip) && rs[i].expert !in ExpertsOn(rs, rs[j].chip)
    && Used(inv, rs, rs[i].chip) - inv.weight[rs[i].expert] + inv.weight[rs[j].expert] <= inv.chips[rs[i].chip].bytes
    && Used(inv, rs, rs[j].chip) - inv.weight[rs[j].expert] + inv.weight[rs[i].expert] <= inv.chips[rs[j].chip].bytes
  }

  /** A swap is two relocations. */
  lemma SwapIsTwoMoves(rs: seq<ReplicaSpec>, i: nat, j: nat)
    requires i < |rs| && j < |rs| && i != j
    ensures Swapped(rs, i, j) == Moved(Moved(rs, i, rs[j].chip), j, rs[i].chip)
  {
  }

  lemma SwapExperts(rs: seq<ReplicaSpec>, i: nat, j: nat, c: ChipId)
    requires i < |rs| && j < |rs| && i != j && AllApart(rs) && rs[i].chip != rs[j].chip
    requires rs[i].expert != rs[j].expert
    requires rs[j].expert !in ExpertsOn(rs, rs[i].chip) && rs[i].expert !in ExpertsOn(rs, rs[j].chip)
    ensures AllApart(Swapped(rs, i, j))
    ensures var a, b := rs[i].expert, rs[j].expert;
      ExpertsOn(Swapped(rs, i, j), c) ==
        if c == rs[i].chip then ExpertsOn(rs, c) - {a} + {b} else if c == rs[j].chip then ExpertsOn(rs, c) - {b} + {a} else ExpertsOn(rs, c)
  {
    var half := Moved(rs, i, rs[j].chip);
    SwapIsTwoMoves(rs, i, j);
    RelocateApart(rs, i, rs[j].chip);
    RelocateExperts(rs, i, rs[j].chip, rs[i].chip);
    RelocateApart(half, j, rs[i].chip);
    RelocateExperts(rs, i, rs[j].chip, c);
    RelocateExperts(half, j, rs[i].chip, c);
  }

  lemma SwapIsValid(inv: Inventory, rs: seq<ReplicaSpec>, i: nat, j: nat)
    requires ValidPlan(inv, rs) && CanSwap(inv, rs, i, j)
    ensures ValidPlan(inv, Swapped(rs, i, j))
  {
    var half, rs' := Moved(rs, i, rs[j].chip), Swapped(rs, i, j);
    SwapIsTwoMoves(rs, i, j);
    SwapExperts(rs, i, j, 0);
    RelocateKeepsLabels(inv, rs, i, rs[j].chip);
    RelocateKeepsLabels(inv, half, j, rs[i].chip);
    forall c | c in inv.chips.Keys
      ensures HasRoom(inv, rs', c)
    {
      assert HasRoom(inv, rs, c);
      SwapRecounts(inv, rs, i, j, c);
    }
  }

  lemma SwapRecounts(inv: Inventory, rs: seq<ReplicaSpec>, i: nat, j: nat, c: ChipId)
    requires KnownAt(inv, rs, i) && KnownAt(inv, rs, j) && i != j && rs[i].chip != rs[j].chip
    ensures Residents(Swapped(rs, i, j), c) == Residents(rs, c)
    ensures var a, b := inv.weight[rs[i].expert], inv.weight[rs[j].expert];
      Used(inv, Swapped(rs, i, j), c) ==
        if c == rs[i].chip then Used(inv, rs, c) - a + b else if c == rs[j].chip then Used(inv, rs, c) - b + a else Used(inv, rs, c)
  {
    var half := Moved(rs, i, rs[j].chip);
    SwapIsTwoMoves(rs, i, j);
    UsedReplaced(inv, rs, i, half[i], c);
    UsedReplaced(inv, half, j, half[j].(chip := rs[i].chip), c);
    ResidentsReplaced(rs, i, half[i], c);
    ResidentsReplaced(half, j, half[j].(chip := rs[i].chip), c);
  }

  /** Between two chips the checks of a swap of different experts pass exactly
      when the plan after the swap is valid. */
  lemma SwapAllowedIff(inv: Inventory, rs: seq<ReplicaSpec>, i: nat, j: nat)
    requires ValidPlan(inv, rs) && i < |rs| && j < |rs| && rs[i].expert != rs[j].expert && rs[i].chip != rs[j].chip
    ensures CanSwap(inv, rs, i, j) <==> ValidPlan(inv, Swapped(rs, i, j))
  {
    var rs' := Swapped(rs, i, j);
    assert KnownAt(inv, rs, i) && KnownAt(inv, rs, j);
    if CanSwap(inv, rs, i, j) { SwapIsValid(inv, rs, i, j); }
    if ValidPlan(inv, rs') {
      SwapLeavesRoom(rs, rs', i, j, rs[i].chip, rs[j].expert);
      SwapLeavesRoom(rs, rs', j, i, rs[j].chip, rs[i].expert);
      assert HasRoom(inv, rs', rs[i].chip) && HasRoom(inv, rs', rs[j].chip);
      SwapRecounts(inv, rs, i, j, rs[i].chip);
      SwapRecounts(inv, rs, i, j, rs[j].chip);
    }
  }

  lemma SwapLeavesRoom(rs: seq<ReplicaSpec>, rs': seq<ReplicaSpec>, i: nat, j: nat, c: ChipId, e: ExpertId)
    requires i < |rs| && j < |rs| && AllApart(rs') && rs[i].expert != rs[j].expert && rs[i].chip != rs[j].chip
    requires |rs'| == |rs| && rs'[j] == rs[j].(chip := rs[i].chip) && (forall k | 0 <= k < |rs| && k != i && k != j :: rs'[k] == rs[k])
    requires c == rs[i].chip && e == rs[j].expert
    ensures e !in ExpertsOn(rs, c)
  {
    if e in ExpertsOn(rs, c) {
      var k :| 0 <= k < |rs| && rs[k].chip == c && rs[k].expert == e;
      NotTwice(rs, rs', j, k);
    }
  }

  // ----- what stays -----

  /** Same replicas in the same order, possibly on other chips. */
  predicate SameReplicas(rs: seq<ReplicaSpec>, rs': seq<ReplicaSpec>) {
    |rs'| == |rs| && forall i | 0 <= i < |rs| :: rs'[i].(chip := rs[i].chip) == rs[i]
  }

  /** Replicas below n do not move. */
  predicate FixedBelow(rs: seq<ReplicaSpec>, rs': seq<ReplicaSpec>, n: nat) {
    |rs'| == |rs| && forall i | 0 <= i < n && i < |rs| :: rs'[i] == rs[i]
  }
}
