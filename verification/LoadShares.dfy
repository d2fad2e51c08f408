/** What the load of a zone and the imbalance are, from the copies each expert
    has there. */
module LoadShares {
  import opened Basics
  import opened Sums
  import opened Eplb
  import opened ReplicaPlans
  import opened RebalanceRuns
  import opened Rebalancers
  import opened LoadBalance

  /** The places of the copies of e. */
  function PlacesOf(rs: seq<ReplicaSpec>, e: ExpertId): set<nat> {
    set i | 0 <= i < |rs| && rs[i].expert == e
  }

  /** Those in zone z. */
  function PlacesIn(rs: seq<ReplicaSpec>, e: ExpertId, zone: Zoning, z: nat): set<nat> {
    set i | 0 <= i < |rs| && rs[i].expert == e && zone(rs[i].chip) == z
  }

  lemma {:induction false} CopiesAre(rs: seq<ReplicaSpec>, e: ExpertId)
    ensures Copies(rs, e) == |PlacesOf(rs, e)|
  {
    if rs != [] {
      var n := |rs| - 1;
      CopiesAre(rs[..n], e);
      assert PlacesOf(rs, e) == PlacesOf(rs[..n], e) + if rs[n].expert == e then {n} else {};
    }
  }

  /** The equal share of each copy of e. */
  function ShareOf(bin: Bin, all: seq<ReplicaSpec>, e: ExpertId): real
    requires e in bin
  {
    if PlacesOf(all, e) == {} then 0.0 else bin[e] as real / |PlacesOf(all, e)| as real
  }

  /** The part of the assignments to e that its copies in zone z serve. */
  function PartIn(bin: Bin, all: seq<ReplicaSpec>, rs: seq<ReplicaSpec>, e: ExpertId, zone: Zoning, z: nat): real
    requires e in bin
  {
    Repeated(|PlacesIn(rs, e, zone, z)|, ShareOf(bin, all, e))
  }

  function PartsIn(bin: Bin, all: seq<ReplicaSpec>, rs: seq<ReplicaSpec>, zone: Zoning, z: nat): map<ExpertId, real> {
    map e | e in bin.Keys :: PartIn(bin, all, rs, e, zone, z)
  }

  lemma PlacesNext(rs: seq<ReplicaSpec>, n: nat, e: ExpertId, zone: Zoning, z: nat)
    requires n + 1 == |rs|
    ensures |PlacesIn(rs, e, zone, z)| == |PlacesIn(rs[..n], e, zone, z)| + if rs[n].expert == e && zone(rs[n].chip) == z then 1 else 0
  {
    var before := PlacesIn(rs[..n], e, zone, z);
    assert PlacesIn(rs, e, zone, z) == before + if rs[n].expert == e && zone(rs[n].chip) == z then {n} else {};
  }

  lemma ShareIsPerCopy(bin: Bin, all: seq<ReplicaSpec>, e: ExpertId)
    requires e in bin
    ensures ShareOf(bin, all, e) == PerCopy(bin, all, e)
  {
    CopiesAre(all, e);
  }

  lemma PartNext(bin: Bin, all: seq<ReplicaSpec>, rs: seq<ReplicaSpec>, n: nat, e: ExpertId, zone: Zoning, z: nat)
    requires n + 1 == |rs| && e in bin
    ensures PartIn(bin, all, rs, e, zone, z) == PartIn(bin, all, rs[..n], e, zone, z)
      + if rs[n].expert == e && zone(rs[n].chip) == z then ShareOf(bin, all, e) else 0.0
  {
    PlacesNext(rs, n, e, zone, z);
  }

  function Grown(parts: map<ExpertId, real>, e: ExpertId, here: bool, x: real): map<ExpertId, real> {
    if e in parts && here then parts[e := parts[e] + x] else parts
  }

  lemma PartsNext(bin: Bin, all: seq<ReplicaSpec>, rs: seq<ReplicaSpec>, n: nat, front: seq<ReplicaSpec>, zone: Zoning, z: nat)
    requires n + 1 == |rs| && front == rs[..n]
    ensures PartsIn(bin, all, rs, zone, z) ==
      Grown(PartsIn(bin, all, front, zone, z), rs[n].expert, zone(rs[n].chip) == z, PerCopy(bin, all, rs[n].expert))
  {
    if rs[n].expert in bin { ShareIsPerCopy(bin, all, rs[n].expert); }
    var after, before := PartsIn(bin, all, rs, zone, z), PartsIn(bin, all, front, zone, z);
    var e, here := rs[n].expert, zone(rs[n].chip) == z;
    var x := PerCopy(bin, all, e);
    forall k | k in bin.Keys
      ensures after[k] == before[k] + if e == k && here then x else 0.0
    {
      PartNext(bin, all, rs, n, k, zone, z);
    }
    assert after == Grown(before, e, here, x);
  }

  lemma GrownSum(parts: map<ExpertId, real>, e: ExpertId, here: bool, x: real)
    ensures Sum(Grown(parts, e, here, x)) == Sum(parts) + if e in parts && here then x else 0.0
  {
    if e in parts && here { SumUpdate(parts, e, parts[e] + x); }
  }

  lemma {:induction false} LoadIsParts(bin: Bin, all: seq<ReplicaSpec>, rs: seq<ReplicaSpec>, zone: Zoning, z: nat)
    ensures LoadOn(bin, all, rs, zone, z) == Sum(PartsIn(bin, all, rs, zone, z))
  {
    if rs == [] {
      NoParts(bin, all, zone, z);
    } else {
      var n := |rs| - 1;
      LoadIsParts(bin, all, rs[..n], zone, z);
      PartsNext(bin, all, rs, n, rs[..n], zone, z);
      GrownSum(PartsIn(bin, all, rs[..n], zone, z), rs[n].expert, zone(rs[n].chip) == z, PerCopy(bin, all, rs[n].expert));
    }
  }

  lemma NoParts(bin: Bin, all: seq<ReplicaSpec>, zone: Zoning, z: nat)
    ensures Sum(PartsIn(bin, all, [], zone, z)) == 0.0
  {
    forall e | e in bin.Keys
      ensures PartIn(bin, all, [], e, zone, z) == 0.0
    {
      assert PlacesIn([], e, zone, z) == {};
    }
    SumZero(PartsIn(bin, all, [], zone, z));
  }

  /** The load of a zone: of each expert as many equal shares of its
      assignments as it has copies there. */
  lemma ZoneLoadIsShares(bin: Bin, rs: seq<ReplicaSpec>, zone: Zoning, zones: seq<nat>, i: nat)
    requires i < |zones|
    ensures ZoneLoads(bin, rs, zone, zones)[i] == Sum(PartsIn(bin, rs, rs, zone, zones[i]))
  {
    LoadIsParts(bin, rs, rs, zone, zones[i]);
  }

  // ----- sums over steps -----

  /** sums[k] is what the first k values add up to. */
  predicate SumsTo(values: seq<real>, sums: seq<real>) {
    |sums| == |values| + 1 && sums[0] == 0.0 && forall k | 0 <= k < |values| :: sums[k + 1] == sums[k] + values[k]
  }

  lemma {:induction false} TotalIsSum(values: seq<real>, sums: seq<real>)
    requires SumsTo(values, sums)
    ensures TotalOf(values) == sums[|values|]
  {
    if values != [] {
      TotalIsSum(values[..|values| - 1], sums[..|values|]);
    }
  }

  lemma {:induction false} AggregateIsSum(bins: seq<Bin>, rs: seq<ReplicaSpec>, c: ChipId, sums: seq<real>)
    requires |sums| == |bins| + 1 && sums[0] == 0.0
    requires forall k | 0 <= k < |bins| :: sums[k + 1] == sums[k] + Sum(PartsIn(bins[k], rs, rs, Itself(), c))
    ensures AggregateLoad(bins, rs, c) == sums[|bins|]
  {
    if bins != [] {
      var n := |bins| - 1;
      LoadIsParts(bins[n], rs, rs, Itself(), c);
      AggregateIsSum(bins[..n], rs, c, sums[..n + 1]);
    }
  }

  /** ratio is the greatest of the loads over their mean, and one when there is
      no load. */
  ghost predicate IsRatio(loads: seq<real>, ratio: real) {
    forall sums {:trigger SumsTo(loads, sums)} | SumsTo(loads, sums) ::
      var total := sums[|loads|];
      if total <= 0.0 then ratio == 1.0
      else exists m {:trigger m in loads} :: m in loads && (forall x | x in loads :: x <= m) && ratio * total == m * |loads| as real
  }

  lemma RatioIs(loads: seq<real>)
    ensures IsRatio(loads, Ratio(loads))
  {
    forall sums | SumsTo(loads, sums) && sums[|loads|] > 0.0
      ensures exists m {:trigger m in loads} ::
        m in loads && (forall x | x in loads :: x <= m) && Ratio(loads) * sums[|loads|] == m * |loads| as real
    {
      TotalIsSum(loads, sums);
      assert loads != [];
      RatioProduct(LargestOf(loads), sums[|loads|], |loads| as real);
    }
    forall sums | SumsTo(loads, sums)
      ensures TotalOf(loads) == sums[|loads|]
    {
      TotalIsSum(loads, sums);
    }
  }

  lemma RatioProduct(m: real, total: real, n: real)
    requires total > 0.0 && n > 0.0
    ensures total / n > 0.0 && m / (total / n) * total == m * n
  {
    var mean := total / n;
    assert mean * n == total;
    var q := m / mean;
    assert q * mean == m;
    assert q * total == q * mean * n;
  }

  /** x is the mean, over the steps, of the imbalance of the zones. */
  ghost predicate IsMean(bins: seq<Bin>, own: seq<ReplicaSpec>, zone: Zoning, zones: seq<nat>, x: real) {
    exists ratios, sums {:trigger SumsTo(ratios, sums)} ::
      && SumsTo(ratios, sums) && |ratios| == |bins| && x * |bins| as real == sums[|bins|]
      && AreRatios(bins, own, zone, zones, ratios)
  }

  /** Step by step the imbalance of the zones. */
  ghost predicate AreRatios(bins: seq<Bin>, own: seq<ReplicaSpec>, zone: Zoning, zones: seq<nat>, ratios: seq<real>) {
    |ratios| == |bins| && forall k {:trigger ratios[k]} | 0 <= k < |bins| :: IsRatio(ZoneLoads(bins[k], own, zone, zones), ratios[k])
  }

  lemma {:induction false} SumsExist(values: seq<real>) returns (sums: seq<real>)
    ensures SumsTo(values, sums)
  {
    if values == [] {
      sums := [0.0];
    } else {
      var n := |values| - 1;
      sums := SumsExist(values[..n]);
      assert forall k | 0 <= k < n :: values[..n][k] == values[k];
      sums := sums + [sums[n] + values[n]];
    }
  }

  lemma {:induction false} RatiosAre(bins: seq<Bin>, own: seq<ReplicaSpec>, zone: Zoning, zones: seq<nat>)
    ensures AreRatios(bins, own, zone, zones, Ratios(bins, own, zone, zones))
  {
    if bins != [] {
      RatiosAre(bins[..|bins| - 1], own, zone, zones);
      RatioIs(ZoneLoads(bins[|bins| - 1], own, zone, zones));
    }
  }

  lemma MeanIs(bins: seq<Bin>, own: seq<ReplicaSpec>, zone: Zoning, zones: seq<nat>)
    requires bins != []
    ensures IsMean(bins, own, zone, zones, MeanOf(Ratios(bins, own, zone, zones)))
  {
    var ratios := Ratios(bins, own, zone, zones);
    RatiosAre(bins, own, zone, zones);
    var sums := SumsExist(ratios);
    TotalIsSum(ratios, sums);
    MeanTimes(ratios);
  }

  lemma MeanTimes(values: seq<real>)
    requires values != []
    ensures MeanOf(values) * |values| as real == TotalOf(values)
  {}

  /** The measured imbalance: over the copies on the brain chips, the mean over
      the steps of the greatest load of a node over their mean load, and the
      same for chips; with no steps both are one. */
  lemma ImbalanceIs(bins: seq<Bin>, brain: seq<ChipId>, nodeOf: Zoning, rs: seq<ReplicaSpec>)
    ensures bins == [] ==> Imbalance(bins, brain, nodeOf, rs) == Metrics(1.0, 1.0)
    ensures bins != [] ==>
      exists own, nodes, chips :: IsZoning(rs, brain, nodeOf, own, nodes, chips)
        && IsMean(bins, own, nodeOf, nodes, Imbalance(bins, brain, nodeOf, rs).node)
        && IsMean(bins, own, Itself(), chips, Imbalance(bins, brain, nodeOf, rs).chip)
  {
    if bins != [] {
      var own, nodes, chips := Part(rs, brain, true), Nodes(brain, nodeOf), Unique(brain);
      ZoningIs(rs, brain, nodeOf);
      MeanIs(bins, own, nodeOf, nodes);
      MeanIs(bins, own, Itself(), chips);
    }
  }

  /** part lists the replicas of rs on the chips, or off them, in their order. */
  ghost predicate IsPart(rs: seq<ReplicaSpec>, chips: seq<ChipId>, inside: bool, part: seq<ReplicaSpec>) {
    exists at: seq<nat> {:trigger PicksOut(rs, at, part)} :: PicksOut(rs, at, part) && forall i: nat | i < |rs| :: i in at <==> (rs[i].chip in chips) == inside
  }

  predicate PicksOut(rs: seq<ReplicaSpec>, at: seq<nat>, part: seq<ReplicaSpec>) {
    && |part| == |at| && (forall j, k | 0 <= j < k < |at| :: at[j] < at[k])
    && forall k | 0 <= k < |at| :: at[k] < |rs| && part[k] == rs[at[k]]
  }

  lemma {:induction false} PlacesAre(rs: seq<ReplicaSpec>, chips: seq<ChipId>, inside: bool, i: nat)
    requires i < |rs|
    ensures i in Places(rs, chips, inside) <==> (rs[i].chip in chips) == inside
  {
    var n := |rs| - 1;
    PartByPlaces(rs[..n], chips, inside);
    if i < n { PlacesAre(rs[..n], chips, inside, i); }
  }

  lemma PartIs(rs: seq<ReplicaSpec>, chips: seq<ChipId>, inside: bool)
    ensures IsPart(rs, chips, inside, Part(rs, chips, inside))
  {
    var at := Places(rs, chips, inside);
    PartByPlaces(rs, chips, inside);
    assert PicksOut(rs, at, Part(rs, chips, inside));
    forall i: nat | i < |rs|
      ensures i in at <==> (rs[i].chip in chips) == inside
    {
      PlacesAre(rs, chips, inside, i);
    }
  }

  /** own are the replicas on brain chips; nodes and chips list those of the
      brain, each once. */
  ghost predicate IsZoning(rs: seq<ReplicaSpec>, brain: seq<ChipId>, nodeOf: Zoning, own: seq<ReplicaSpec>, nodes: seq<nat>, chips: seq<nat>) {
    && IsPart(rs, brain, true, own)
    && DistinctZones(nodes) && DistinctZones(chips) && (forall c :: c in chips <==> c in brain)
    && (forall z :: z in nodes <==> exists c :: c in brain && nodeOf(c) == z)
  }

  lemma ZoningIs(rs: seq<ReplicaSpec>, brain: seq<ChipId>, nodeOf: Zoning)
    ensures IsZoning(rs, brain, nodeOf, Part(rs, brain, true), Nodes(brain, nodeOf), Unique(brain))
  {
    PartIs(rs, brain, true);
    var names := seq(|brain|, i requires 0 <= i < |brain| => nodeOf(brain[i]));
    forall z
      ensures z in Nodes(brain, nodeOf) <==> exists c :: c in brain && nodeOf(c) == z
    {
      if z in names {
        var i :| 0 <= i < |names| && names[i] == z;
        assert brain[i] in brain;
      }
      if c :| c in brain && nodeOf(c) == z {
        var i :| 0 <= i < |brain| && brain[i] == c;
        assert names[i] == z;
      }
    }
  }
}
