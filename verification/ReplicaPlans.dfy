/** Expert replicas on chips: when a placement is a valid plan. */
module ReplicaPlans {
  import opened Basics

  type ExpertId = nat

  datatype ReplicaSpec = ReplicaSpec(id: nat, expert: ExpertId, chip: ChipId, primary: bool)
  datatype ChipSpec = ChipSpec(bytes: nat, maxExperts: Option<nat>)

  /** The weight of each expert and the room on each chip. */
  datatype Inventory = Inventory(weight: map<ExpertId, nat>, chips: map<ChipId, ChipSpec>)

  // ----- recounts -----

  function Burden(inv: Inventory, r: ReplicaSpec, c: ChipId): nat {
    if r.chip == c && r.expert in inv.weight then inv.weight[r.expert] else 0
  }

  /** The weight resident on c. */
  function Used(inv: Inventory, rs: seq<ReplicaSpec>, c: ChipId): nat {
    if rs == [] then 0 else Used(inv, rs[..|rs| - 1], c) + Burden(inv, rs[|rs| - 1], c)
  }

  function Here(r: ReplicaSpec, c: ChipId): nat {
    if r.chip == c then 1 else 0
  }

  function Residents(rs: seq<ReplicaSpec>, c: ChipId): nat {
    if rs == [] then 0 else Residents(rs[..|rs| - 1], c) + Here(rs[|rs| - 1], c)
  }

  function IsPrimaryOf(r: ReplicaSpec, e: ExpertId): nat {
    if r.expert == e && r.primary then 1 else 0
  }

  function Primaries(rs: seq<ReplicaSpec>, e: ExpertId): nat {
    if rs == [] then 0 else Primaries(rs[..|rs| - 1], e) + IsPrimaryOf(rs[|rs| - 1], e)
  }

  function ExpertsOn(rs: seq<ReplicaSpec>, c: ChipId): set<ExpertId> {
    set i | 0 <= i < |rs| && rs[i].chip == c :: rs[i].expert
  }

  // ----- recounts of two parts -----

  lemma ExpertsOnJoin(a: seq<ReplicaSpec>, b: seq<ReplicaSpec>, c: ChipId)
    ensures ExpertsOn(a + b, c) == ExpertsOn(a, c) + ExpertsOn(b, c)
  {
    var ab := a + b;
    forall e | e in ExpertsOn(a, c) || e in ExpertsOn(b, c)
      ensures e in ExpertsOn(ab, c)
    {
      if e in ExpertsOn(a, c) {
        var i :| 0 <= i < |a| && a[i].chip == c && a[i].expert == e;
        assert ab[i] == a[i];
      } else {
        var i :| 0 <= i < |b| && b[i].chip == c && b[i].expert == e;
        assert ab[|a| + i] == b[i];
      }
    }
    forall e | e in ExpertsOn(ab, c)
      ensures e in ExpertsOn(a, c) || e in ExpertsOn(b, c)
    {
      var i :| 0 <= i < |ab| && ab[i].chip == c && ab[i].expert == e;
      if i < |a| { assert a[i] == ab[i]; } else { assert b[i - |a|] == ab[i]; }
    }
  }

  lemma {:induction false} UsedJoin(inv: Inventory, a: seq<ReplicaSpec>, b: seq<ReplicaSpec>, c: ChipId)
    ensures Used(inv, a + b, c) == Used(inv, a, c) + Used(inv, b, c)
    ensures Residents(a + b, c) == Residents(a, c) + Residents(b, c)
    ensures forall e {:trigger Primaries(a + b, e)} :: Primaries(a + b, e) == Primaries(a, e) + Primaries(b, e)
  {
    if b == [] {
      assert a + b == a;
    } else {
      var last := |b| - 1;
      UsedJoin(inv, a, b[..last], c);
      assert (a + b)[..|a + b| - 1] == a + b[..last];
    }
  }

  // ----- validity -----

  predicate KnownAt(inv: Inventory, rs: seq<ReplicaSpec>, i: nat) {
    i < |rs| && rs[i].expert in inv.weight && rs[i].chip in inv.chips
  }

  /** Replicas i and j are different, and not the same expert on one chip. */
  predicate Apart(rs: seq<ReplicaSpec>, i: nat, j: nat) {
    && i < |rs| && j < |rs| && rs[i].id != rs[j].id
    && (rs[i].expert != rs[j].expert || rs[i].chip != rs[j].chip)
  }

  predicate HasRoom(inv: Inventory, rs: seq<ReplicaSpec>, c: ChipId) {
    && c in inv.chips && Used(inv, rs, c) <= inv.chips[c].bytes
    && (inv.chips[c].maxExperts.Some? ==> Residents(rs, c) <= inv.chips[c].maxExperts.value)
  }

  ghost predicate AllKnown(inv: Inventory, rs: seq<ReplicaSpec>) {
    forall i: nat {:trigger KnownAt(inv, rs, i)} | i < |rs| :: KnownAt(inv, rs, i)
  }

  ghost predicate AllApart(rs: seq<ReplicaSpec>) {
    forall i: nat, j: nat {:trigger Apart(rs, i, j)} | i < j < |rs| :: Apart(rs, i, j)
  }

  ghost predicate ValidPlan(inv: Inventory, rs: seq<ReplicaSpec>) {
    && inv.weight.Keys != {} && inv.chips.Keys != {}
    && AllKnown(inv, rs) && AllApart(rs)
    && (forall e {:trigger Primaries(rs, e)} | e in inv.weight.Keys :: Primaries(rs, e) == 1)
    && (forall c {:trigger HasRoom(inv, rs, c)} | c in inv.chips.Keys :: HasRoom(inv, rs, c))
  }

  // ----- the constructor -----

  datatype PlanError =
    NoExperts | NoChips | DuplicateReplica | UnknownExpert | UnknownChip | DuplicateOnChip
    | BadPrimaries | CapacityExceeded | CountExceeded

  /** What the first n replicas add up to. */
  ghost predicate Tallied(inv: Inventory, rs: seq<ReplicaSpec>, n: nat, used: map<ChipId, nat>, residents: map<ChipId, nat>,
                          primaries: map<ExpertId, nat>)
    requires n <= |rs|
  {
    && used.Keys == inv.chips.Keys == residents.Keys && primaries.Keys == inv.weight.Keys
    && (forall c | c in inv.chips.Keys :: used[c] == Used(inv, rs[..n], c) && residents[c] == Residents(rs[..n], c))
    && (forall e | e in inv.weight.Keys :: primaries[e] == Primaries(rs[..n], e))
  }

  lemma PrefixNext(inv: Inventory, rs: seq<ReplicaSpec>, n: nat)
    requires n < |rs|
    ensures forall c {:trigger Used(inv, rs[..n + 1], c)} :: Used(inv, rs[..n + 1], c) == Used(inv, rs[..n], c) + Burden(inv, rs[n], c)
    ensures forall c {:trigger Residents(rs[..n + 1], c)} :: Residents(rs[..n + 1], c) == Residents(rs[..n], c) + Here(rs[n], c)
    ensures forall e {:trigger Primaries(rs[..n + 1], e)} :: Primaries(rs[..n + 1], e) == Primaries(rs[..n], e) + IsPrimaryOf(rs[n], e)
  {
    assert rs[..n + 1][..n] == rs[..n];
  }

  lemma TallyNext(inv: Inventory, rs: seq<ReplicaSpec>, n: nat, used: map<ChipId, nat>, residents: map<ChipId, nat>,
                  primaries: map<ExpertId, nat>)
    requires n < |rs| && Tallied(inv, rs, n, used, residents, primaries) && KnownAt(inv, rs, n)
    ensures var r := rs[n];
      Tallied(inv, rs, n + 1, used[r.chip := used[r.chip] + inv.weight[r.expert]],
              residents[r.chip := residents[r.chip] + 1],
              primaries[r.expert := primaries[r.expert] + (if r.primary then 1 else 0)])
  {
    PrefixNext(inv, rs, n);
  }

  /** No two of the first n replicas share an id, or an expert and a chip. */
  ghost predicate ApartUpTo(rs: seq<ReplicaSpec>, n: nat) {
    forall i: nat, j: nat {:trigger Apart(rs, i, j)} | i < j < n && n <= |rs| :: Apart(rs, i, j)
  }

  /** `ReplicaPlan.__init__`: succeeds exactly for the valid placements. */
  method MakePlan(inv: Inventory, rs: seq<ReplicaSpec>) returns (r: Result<seq<ReplicaSpec>, PlanError>)
    ensures r.Ok? <==> ValidPlan(inv, rs)
    ensures r.Ok? ==> r.value == rs
  {
    var unique := UniqueIds(rs);
    if !unique { return Err(DuplicateReplica); }
    if inv.weight.Keys == {} { return Err(NoExperts); }
    if inv.chips.Keys == {} { return Err(NoChips); }
    var error, used, residents, primaries := Tally(inv, rs);
    if error.Some? { return Err(error.value); }
    assert rs[..|rs|] == rs;
    if exists e | e in inv.weight.Keys :: primaries[e] != 1 { return Err(BadPrimaries); }
    r := CheckRoom(inv, rs, used, residents);
  }

  method UniqueIds(rs: seq<ReplicaSpec>) returns (unique: bool)
    ensures unique <==> forall i, j | 0 <= i < j < |rs| :: rs[i].id != rs[j].id
    ensures !unique ==> !AllApart(rs)
  {
    var ids: set<nat> := {};
    var n := 0;
    while n < |rs|
      invariant 0 <= n <= |rs| && forall x :: x in ids <==> exists i | 0 <= i < n :: rs[i].id == x
      invariant forall i, j | 0 <= i < j < n :: rs[i].id != rs[j].id
    {
      if rs[n].id in ids {
        ghost var i :| 0 <= i < n && rs[i].id == rs[n].id;
        assert !Apart(rs, i, n);
        return false;
      }
      ids := ids + {rs[n].id};
      n := n + 1;
    }
    unique := true;
  }

  /** Add up weights, counts and primaries, unless a replica is misplaced. */
  method Tally(inv: Inventory, rs: seq<ReplicaSpec>)
    returns (error: Option<PlanError>, used: map<ChipId, nat>, residents: map<ChipId, nat>, primaries: map<ExpertId, nat>)
    requires forall i, j | 0 <= i < j < |rs| :: rs[i].id != rs[j].id
    ensures error.None? <==> AllKnown(inv, rs) && AllApart(rs)
    ensures error.None? ==> Tallied(inv, rs, |rs|, used, residents, primaries)
  {
    used, residents := map c | c in inv.chips.Keys :: 0, map c | c in inv.chips.Keys :: 0;
    primaries := map e | e in inv.weight.Keys :: 0;
    var locations: set<(ExpertId, ChipId)> := {};
    var n := 0;
    while n < |rs|
      invariant 0 <= n <= |rs| && locations == Locations(rs[..n])
      invariant ApartUpTo(rs, n) && forall i: nat {:trigger KnownAt(inv, rs, i)} | i < n :: KnownAt(inv, rs, i)
      invariant Tallied(inv, rs, n, used, residents, primaries)
    {
      var x := rs[n];
      if x.expert !in inv.weight { assert !KnownAt(inv, rs, n); return Some(UnknownExpert), used, residents, primaries; }
      if x.chip !in inv.chips { assert !KnownAt(inv, rs, n); return Some(UnknownChip), used, residents, primaries; }
      if (x.expert, x.chip) in locations {
        Clash(rs, n);
        return Some(DuplicateOnChip), used, residents, primaries;
      }
      NextLocation(rs, n);
      locations := locations + {(x.expert, x.chip)};
      assert KnownAt(inv, rs, n);
      TallyNext(inv, rs, n, used, residents, primaries);
      used := used[x.chip := used[x.chip] + inv.weight[x.expert]];
      residents := residents[x.chip := residents[x.chip] + 1];
      primaries := primaries[x.expert := primaries[x.expert] + (if x.primary then 1 else 0)];
      n := n + 1;
    }
    error := None;
  }

  function Locations(rs: seq<ReplicaSpec>): set<(ExpertId, ChipId)> {
    set i | 0 <= i < |rs| :: (rs[i].expert, rs[i].chip)
  }

  lemma Clash(rs: seq<ReplicaSpec>, n: nat)
    requires n < |rs| && (rs[n].expert, rs[n].chip) in Locations(rs[..n])
    ensures !AllApart(rs)
  {
    var p := rs[..n];
    var i :| 0 <= i < |p| && (p[i].expert, p[i].chip) == (rs[n].expert, rs[n].chip);
    assert !Apart(rs, i, n);
  }

  lemma NextLocation(rs: seq<ReplicaSpec>, n: nat)
    requires n < |rs| && ApartUpTo(rs, n) && (rs[n].expert, rs[n].chip) !in Locations(rs[..n])
    requires forall i, j | 0 <= i < j < |rs| :: rs[i].id != rs[j].id
    ensures ApartUpTo(rs, n + 1)
    ensures Locations(rs[..n + 1]) == Locations(rs[..n]) + {(rs[n].expert, rs[n].chip)}
  {
    var p, q := rs[..n], rs[..n + 1];
    assert q == p + [rs[n]];
    assert forall i | 0 <= i < n :: (p[i].expert, p[i].chip) in Locations(p);
    forall i: nat, j: nat | i < j < n + 1
      ensures Apart(rs, i, j)
    {
      if j < n { assert Apart(rs, i, j); } else { assert p[i] == rs[i]; }
    }
    forall x | x in Locations(p)
      ensures x in Locations(q)
    {
      var i :| 0 <= i < |p| && (p[i].expert, p[i].chip) == x;
      assert q[i] == p[i];
    }
    assert (q[n].expert, q[n].chip) in Locations(q);
  }

  method CheckRoom(inv: Inventory, rs: seq<ReplicaSpec>, used: map<ChipId, nat>, residents: map<ChipId, nat>)
    returns (r: Result<seq<ReplicaSpec>, PlanError>)
    requires used.Keys == inv.chips.Keys == residents.Keys
    requires forall c | c in inv.chips.Keys :: used[c] == Used(inv, rs, c) && residents[c] == Residents(rs, c)
    ensures r.Ok? <==> forall c {:trigger HasRoom(inv, rs, c)} | c in inv.chips.Keys :: HasRoom(inv, rs, c)
    ensures r.Ok? ==> r.value == rs
  {
    var todo := inv.chips.Keys;
    while todo != {}
      invariant todo <= inv.chips.Keys
      invariant forall c {:trigger HasRoom(inv, rs, c)} | c in inv.chips.Keys - todo :: HasRoom(inv, rs, c)
      decreases todo
    {
      var c :| c in todo;
      if used[c] > inv.chips[c].bytes { assert !HasRoom(inv, rs, c); return Err(CapacityExceeded); }
      if inv.chips[c].maxExperts.Some? && residents[c] > inv.chips[c].maxExperts.value {
        assert !HasRoom(inv, rs, c);
        return Err(CountExceeded);
      }
      todo := todo - {c};
    }
    assert inv.chips.Keys - todo == inv.chips.Keys;
    r := Ok(rs);
  }
}
