/** How evenly a placement spreads the routed assignments over nodes and chips. */
module LoadBalance {
  import opened Basics
  import opened Eplb
  import opened ReplicaPlans
  import opened RebalanceRuns
  import opened Rebalancers
  import opened Sums

  /** Where a chip counts: itself, or its node. */
  type Zoning = ChipId -> nat

  function Itself(): Zoning {
    (c: ChipId) => c
  }

  // ----- the load of one step -----

  function Copies(rs: seq<ReplicaSpec>, e: ExpertId): nat {
    if rs == [] then 0 else Copies(rs[..|rs| - 1], e) + if rs[|rs| - 1].expert == e then 1 else 0
  }

  /** Every copy of e gets an equal share. */
  function PerCopy(bin: Bin, all: seq<ReplicaSpec>, e: ExpertId): real {
    if e in bin && Copies(all, e) > 0 then bin[e] as real / Copies(all, e) as real else 0.0
  }

  /** What the replicas rs, of all, bring to zone z. */
  function LoadOn(bin: Bin, all: seq<ReplicaSpec>, rs: seq<ReplicaSpec>, zone: Zoning, z: nat): real {
    if rs == [] then 0.0
    else
      var last := rs[|rs| - 1];
      LoadOn(bin, all, rs[..|rs| - 1], zone, z) + if zone(last.chip) == z then PerCopy(bin, all, last.expert) else 0.0
  }

  function TotalOf(values: seq<real>): real {
    if values == [] then 0.0 else TotalOf(values[..|values| - 1]) + values[|values| - 1]
  }

  function LargestOf(values: seq<real>): (m: real)
    requires values != []
    ensures m in values && forall v | v in values :: v <= m
  {
    var last := values[|values| - 1];
    if |values| == 1 then last else
    assert values == values[..|values| - 1] + [last];
    Max(LargestOf(values[..|values| - 1]), last)
  }

  /** `_ratio`: the largest load over the mean. */
  function Ratio(values: seq<real>): real {
    if values == [] || TotalOf(values) <= 0.0 then 1.0 else LargestOf(values) / (TotalOf(values) / |values| as real)
  }

  function ZoneLoads(bin: Bin, rs: seq<ReplicaSpec>, zone: Zoning, zones: seq<nat>): (s: seq<real>)
    ensures |s| == |zones| && forall i | 0 <= i < |s| :: s[i] == LoadOn(bin, rs, rs, zone, zones[i])
  {
    seq(|zones|, i requires 0 <= i < |zones| => LoadOn(bin, rs, rs, zone, zones[i]))
  }

  // ----- imbalance is at least one -----

  predicate AllAtMost(values: seq<real>, m: real) {
    forall i | 0 <= i < |values| :: values[i] <= m
  }

  predicate AllAt(values: seq<real>, m: real) {
    forall i | 0 <= i < |values| :: values[i] == m
  }

  lemma AllAtNext(values: seq<real>, m: real)
    requires values != []
    ensures AllAt(values, m) <==> AllAt(values[..|values| - 1], m) && values[|values| - 1] == m
    ensures AllAtMost(values, m) <==> AllAtMost(values[..|values| - 1], m) && values[|values| - 1] <= m
  {
    var front := values[..|values| - 1];
    assert forall i | 0 <= i < |front| :: front[i] == values[i];
    if AllAt(front, m) && values[|values| - 1] == m {
      forall i | 0 <= i < |values|
        ensures values[i] == m
      {
        if i < |front| { assert front[i] == values[i]; }
      }
    }
    if AllAtMost(front, m) && values[|values| - 1] <= m {
      forall i | 0 <= i < |values|
        ensures values[i] <= m
      {
        if i < |front| { assert front[i] == values[i]; }
      }
    }
  }

  lemma {:induction false} TotalAtMost(values: seq<real>, m: real)
    requires AllAtMost(values, m)
    ensures TotalOf(values) <= Repeated(|values|, m)
    ensures TotalOf(values) == Repeated(|values|, m) <==> AllAt(values, m)
  {
    if values != [] {
      AllAtNext(values, m);
      TotalAtMost(values[..|values| - 1], m);
    }
  }

  lemma RatioOver(largest: real, total: real, n: real)
    requires total > 0.0 && n > 0.0 && total <= largest * n
    ensures total / n > 0.0 && largest / (total / n) >= 1.0
    ensures largest / (total / n) == 1.0 <==> total == largest * n
  {
    var mean := total / n;
    assert mean * n == total;
    assert mean > 0.0;
    var q := largest / mean;
    assert q * mean == largest;
    Steeper(mean, largest, n);
    Steeper(1.0, q, mean);
    Steeper(q, 1.0, mean);
    Steeper(largest, mean, n);
  }

  lemma Steeper(a: real, b: real, n: real)
    requires n > 0.0
    ensures a > b <==> a * n > b * n
  {
    if a > b { assert (a - b) * n > 0.0; } else { assert (b - a) * n >= 0.0; }
  }

  lemma RatioOfTotal(k: nat, m: real, total: real)
    requires k > 0 && 0.0 < total <= Repeated(k, m)
    ensures total / k as real > 0.0 && m / (total / k as real) >= 1.0
    ensures m / (total / k as real) == 1.0 <==> total == Repeated(k, m)
  {
    RepeatedIsProduct(k, m);
    RatioOver(m, total, k as real);
  }

  ghost predicate AllEven(values: seq<real>) {
    forall i, j | 0 <= i < |values| && 0 <= j < |values| :: values[i] == values[j]
  }

  lemma LargestBounds(values: seq<real>)
    requires values != []
    ensures AllAtMost(values, LargestOf(values))
    ensures AllAt(values, LargestOf(values)) <==> AllEven(values)
  {
    var m := LargestOf(values);
    assert forall i | 0 <= i < |values| :: values[i] in values;
    var k :| 0 <= k < |values| && values[k] == m;
  }

  /** The ratio is one exactly when nothing is routed or all loads are equal. */
  lemma RatioAtLeastOne(values: seq<real>)
    ensures Ratio(values) >= 1.0
    ensures Ratio(values) == 1.0 <==> TotalOf(values) <= 0.0 || AllEven(values)
  {
    if values != [] && TotalOf(values) > 0.0 {
      var m := LargestOf(values);
      LargestBounds(values);
      TotalAtMost(values, m);
      RatioOfTotal(|values|, m, TotalOf(values));
    }
  }

  // ----- nothing is lost between zones -----

  /** Each zone once. */
  ghost predicate DistinctZones(zones: seq<nat>) {
    forall i, j | 0 <= i < j < |zones| :: zones[i] != zones[j]
  }

  ghost predicate Zoned(rs: seq<ReplicaSpec>, zone: Zoning, zones: seq<nat>) {
    forall r | r in rs :: zone(r.chip) in zones
  }

  function Indicator(zones: seq<nat>, z: nat, x: real): seq<real> {
    seq(|zones|, i requires 0 <= i < |zones| => if zones[i] == z then x else 0.0)
  }

  lemma {:induction false} IndicatorTotal(zones: seq<nat>, z: nat, x: real)
    requires DistinctZones(zones)
    ensures TotalOf(Indicator(zones, z, x)) == if z in zones then x else 0.0
  {
    if zones != [] {
      var n := |zones| - 1;
      IndicatorTotal(zones[..n], z, x);
      assert zones == zones[..n] + [zones[n]];
      assert Indicator(zones, z, x)[..n] == Indicator(zones[..n], z, x);
      if z == zones[n] { assert z !in zones[..n]; }
    }
  }

  lemma {:induction false} TotalAdds(a: seq<real>, b: seq<real>, s: seq<real>)
    requires |a| == |b| == |s| && forall i | 0 <= i < |s| :: s[i] == a[i] + b[i]
    ensures TotalOf(s) == TotalOf(a) + TotalOf(b)
  {
    if s != [] {
      var n := |s| - 1;
      TotalAdds(a[..n], b[..n], s[..n]);
    }
  }

  function PartLoads(bin: Bin, all: seq<ReplicaSpec>, rs: seq<ReplicaSpec>, zone: Zoning, zones: seq<nat>): seq<real> {
    seq(|zones|, i requires 0 <= i < |zones| => LoadOn(bin, all, rs, zone, zones[i]))
  }

  function TotalShares(bin: Bin, all: seq<ReplicaSpec>, rs: seq<ReplicaSpec>): real {
    if rs == [] then 0.0 else TotalShares(bin, all, rs[..|rs| - 1]) + PerCopy(bin, all, rs[|rs| - 1].expert)
  }

  lemma {:induction false} ZonesShareAll(bin: Bin, all: seq<ReplicaSpec>, rs: seq<ReplicaSpec>, zone: Zoning, zones: seq<nat>)
    requires DistinctZones(zones) && Zoned(rs, zone, zones)
    ensures TotalOf(PartLoads(bin, all, rs, zone, zones)) == TotalShares(bin, all, rs)
  {
    if rs == [] {
      IndicatorTotal(zones, 0, 0.0);
      assert PartLoads(bin, all, rs, zone, zones) == Indicator(zones, 0, 0.0);
    } else {
      var front, last := rs[..|rs| - 1], rs[|rs| - 1];
      assert last in rs;
      ZonesShareAll(bin, all, front, zone, zones);
      var more := Indicator(zones, zone(last.chip), PerCopy(bin, all, last.expert));
      IndicatorTotal(zones, zone(last.chip), PerCopy(bin, all, last.expert));
      TotalAdds(PartLoads(bin, all, front, zone, zones), more, PartLoads(bin, all, rs, zone, zones));
    }
  }

  /** The share of each expert that the replicas rs of all carry. */
  ghost function Carried(bin: Bin, all: seq<ReplicaSpec>, rs: seq<ReplicaSpec>): map<ExpertId, real> {
    map e | e in bin.Keys :: Repeated(Copies(rs, e), PerCopy(bin, all, e))
  }

  lemma {:induction false} SharesByExpert(bin: Bin, all: seq<ReplicaSpec>, rs: seq<ReplicaSpec>)
    ensures TotalShares(bin, all, rs) == Sum(Carried(bin, all, rs))
  {
    if rs == [] {
      assert AllEqual(Carried(bin, all, rs), 0.0);
      SumZero(Carried(bin, all, rs));
    } else {
      var front, e := rs[..|rs| - 1], rs[|rs| - 1].expert;
      SharesByExpert(bin, all, front);
      var before, after := Carried(bin, all, front), Carried(bin, all, rs);
      if e in bin {
        CarriedNext(bin, all, front, rs, e);
        SumUpdate(before, e, before[e] + PerCopy(bin, all, e));
      } else {
        assert before == after;
      }
    }
  }

  lemma CarriedNext(bin: Bin, all: seq<ReplicaSpec>, front: seq<ReplicaSpec>, rs: seq<ReplicaSpec>, e: ExpertId)
    requires rs != [] && front == rs[..|rs| - 1] && e == rs[|rs| - 1].expert && e in bin
    ensures var before := Carried(bin, all, front); Carried(bin, all, rs) == before[e := before[e] + PerCopy(bin, all, e)]
  {
  }

  /** The assignments that go to an expert with a copy. */
  function Routed(bin: Bin, rs: seq<ReplicaSpec>): map<ExpertId, real> {
    map e | e in bin.Keys :: if Copies(rs, e) > 0 then bin[e] as real else 0.0
  }

  lemma WholeShare(bin: Bin, rs: seq<ReplicaSpec>, e: ExpertId)
    requires e in bin
    ensures Repeated(Copies(rs, e), PerCopy(bin, rs, e)) == Routed(bin, rs)[e]
  {
    if Copies(rs, e) > 0 { SharedOut(bin[e] as real, Copies(rs, e)); }
  }

  lemma SharedOut(load: real, copies: nat)
    requires copies > 0
    ensures Repeated(copies, load / copies as real) == load
  {
    RepeatedIsProduct(copies, load / copies as real);
  }

  /** Summed over chips, and summed over nodes, the load is the number of
      assignments routed to experts that have a copy. */
  lemma LoadIsConserved(bin: Bin, rs: seq<ReplicaSpec>, zone: Zoning, zones: seq<nat>)
    requires DistinctZones(zones) && Zoned(rs, zone, zones)
    ensures TotalOf(ZoneLoads(bin, rs, zone, zones)) == Sum(Routed(bin, rs))
  {
    ZonesShareAll(bin, rs, rs, zone, zones);
    assert ZoneLoads(bin, rs, zone, zones) == PartLoads(bin, rs, rs, zone, zones);
    SharesByExpert(bin, rs, rs);
    forall e | e in bin.Keys
      ensures Carried(bin, rs, rs)[e] == Routed(bin, rs)[e]
    {
      WholeShare(bin, rs, e);
    }
    assert Carried(bin, rs, rs) == Routed(bin, rs);
  }

  // ----- the imbalance of a placement -----

  function Unique(s: seq<nat>): (u: seq<nat>)
    ensures forall x :: x in u <==> x in s
    ensures forall i, j | 0 <= i < j < |u| :: u[i] != u[j]
  {
    if s == [] then [] else
    var front, last := Unique(s[..|s| - 1]), s[|s| - 1];
    assert s == s[..|s| - 1] + [last];
    if last in front then front else front + [last]
  }

  function Nodes(brain: seq<ChipId>, nodeOf: Zoning): seq<nat> {
    Unique(seq(|brain|, i requires 0 <= i < |brain| => nodeOf(brain[i])))
  }

  /** The imbalance in every step. */
  function Ratios(bins: seq<Bin>, rs: seq<ReplicaSpec>, zone: Zoning, zones: seq<nat>): seq<real> {
    if bins == [] then []
    else Ratios(bins[..|bins| - 1], rs, zone, zones) + [Ratio(ZoneLoads(bins[|bins| - 1], rs, zone, zones))]
  }

  function MeanOf(values: seq<real>): real {
    if values == [] then 1.0 else TotalOf(values) / |values| as real
  }

  /** `placement_load_balance`: the mean imbalance over nodes and over chips. */
  function Imbalance(bins: seq<Bin>, brain: seq<ChipId>, nodeOf: Zoning, rs: seq<ReplicaSpec>): Metrics {
    var own := Part(rs, brain, true);
    Metrics(MeanOf(Ratios(bins, own, nodeOf, Nodes(brain, nodeOf))), MeanOf(Ratios(bins, own, Itself(), Unique(brain))))
  }

  lemma {:induction false} RatiosAtLeastOne(bins: seq<Bin>, rs: seq<ReplicaSpec>, zone: Zoning, zones: seq<nat>)
    ensures |Ratios(bins, rs, zone, zones)| == |bins|
    ensures TotalOf(Ratios(bins, rs, zone, zones)) >= |bins| as real
  {
    if bins != [] {
      var n := |bins| - 1;
      RatiosAtLeastOne(bins[..n], rs, zone, zones);
      RatioAtLeastOne(ZoneLoads(bins[n], rs, zone, zones));
      var all := Ratios(bins, rs, zone, zones);
      assert all[..n] == Ratios(bins[..n], rs, zone, zones);
    }
  }

  lemma MeanBound(values: seq<real>)
    requires TotalOf(values) >= |values| as real
    ensures MeanOf(values) >= 1.0
  {
    if values != [] {
      var total, n := TotalOf(values), |values| as real;
      assert (total / n) * n == total;
      Steeper(1.0, total / n, n);
    }
  }

  lemma MeanAtLeastOne(bins: seq<Bin>, rs: seq<ReplicaSpec>, zone: Zoning, zones: seq<nat>)
    ensures MeanOf(Ratios(bins, rs, zone, zones)) >= 1.0
  {
    RatiosAtLeastOne(bins, rs, zone, zones);
    MeanBound(Ratios(bins, rs, zone, zones));
  }

  /** No placement is better than perfectly even. */
  lemma ScoreAtLeastEven(bins: seq<Bin>, brain: seq<ChipId>, nodeOf: Zoning, rs: seq<ReplicaSpec>)
    ensures Score(Imbalance(bins, brain, nodeOf, rs)) >= 1.25
  {
    var own := Part(rs, brain, true);
    MeanAtLeastOne(bins, own, nodeOf, Nodes(brain, nodeOf));
    MeanAtLeastOne(bins, own, Itself(), Unique(brain));
  }

  // ----- the measure by loops -----

  function Only(bin: Bin, experts: set<ExpertId>): Bin {
    map e | e in bin.Keys && e in experts :: bin[e]
  }

  lemma {:induction false} LoadSplits(a: Bin, b: Bin, both: Bin, all: seq<ReplicaSpec>, rs: seq<ReplicaSpec>, zone: Zoning, z: nat)
    requires a.Keys !! b.Keys && both == a + b
    ensures LoadOn(both, all, rs, zone, z) == LoadOn(a, all, rs, zone, z) + LoadOn(b, all, rs, zone, z)
  {
    if rs != [] { LoadSplits(a, b, both, all, rs[..|rs| - 1], zone, z); }
  }

  lemma {:induction false} LoadElsewhere(bin: Bin, all: seq<ReplicaSpec>, rs: seq<ReplicaSpec>, zone: Zoning, z: nat)
    requires forall e | e in bin.Keys :: Copies(all, e) == 0
    ensures LoadOn(bin, all, rs, zone, z) == 0.0
  {
    if rs != [] { LoadElsewhere(bin, all, rs[..|rs| - 1], zone, z); }
  }

  method CountCopies(rs: seq<ReplicaSpec>, e: ExpertId) returns (n: nat)
    ensures n == Copies(rs, e)
  {
    n := 0;
    for i := 0 to |rs|
      invariant n == Copies(rs[..i], e)
    {
      assert rs[..i + 1][..i] == rs[..i];
      if rs[i].expert == e { n := n + 1; }
    }
    assert rs[..|rs|] == rs;
  }

  /** The load of one zone, from the experts still to be counted and those done. */
  ghost predicate IsTable(bin: Bin, all: seq<ReplicaSpec>, rs: seq<ReplicaSpec>, zone: Zoning, zones: set<nat>, load: map<nat, real>, base: map<nat, real>) {
    && load.Keys == zones == base.Keys
    && forall z {:trigger load[z]} | z in zones :: load[z] == base[z] + LoadOn(bin, all, rs, zone, z)
  }

  /** Adds the shares of one expert's copies. */
  method AddShares(e: ExpertId, count: nat, rs: seq<ReplicaSpec>, zone: Zoning, zones: set<nat>, base: map<nat, real>) returns (load: map<nat, real>)
    requires base.Keys == zones && forall r | r in rs :: zone(r.chip) in zones
    ensures IsTable(map[e := count], rs, rs, zone, zones, load, base)
  {
    load := base;
    ghost var bin := map[e := count];
    var copies := CountCopies(rs, e);
    if copies == 0 {
      forall z | z in zones
        ensures LoadOn(bin, rs, rs, zone, z) == 0.0
      {
        LoadElsewhere(bin, rs, rs, zone, z);
      }
      return;
    }
    var share := count as real / copies as real;
    for i := 0 to |rs|
      invariant IsTable(bin, rs, rs[..i], zone, zones, load, base)
    {
      assert rs[..i + 1][..i] == rs[..i] && rs[i] in rs;
      if rs[i].expert == e {
        var z := zone(rs[i].chip);
        load := load[z := load[z] + share];
      }
    }
    assert rs[..|rs|] == rs;
  }

  /** The load of every zone in one step. */
  method StepLoads(bin: Bin, rs: seq<ReplicaSpec>, zone: Zoning, zones: set<nat>) returns (load: map<nat, real>)
    requires forall r | r in rs :: zone(r.chip) in zones
    ensures load.Keys == zones && forall z | z in zones :: load[z] == LoadOn(bin, rs, rs, zone, z)
  {
    load := map z | z in zones :: 0.0;
    var todo := bin.Keys;
    forall z | z in zones
      ensures LoadOn(Only(bin, {}), rs, rs, zone, z) == 0.0
    {
      LoadElsewhere(Only(bin, {}), rs, rs, zone, z);
    }
    assert bin.Keys - todo == {};
    while todo != {}
      invariant todo <= bin.Keys && load.Keys == zones
      invariant forall z | z in zones :: load[z] == LoadOn(Only(bin, bin.Keys - todo), rs, rs, zone, z)
      decreases todo
    {
      var e :| e in todo;
      var next := AddShares(e, bin[e], rs, zone, zones, load);
      var done := bin.Keys - todo;
      assert Only(bin, bin.Keys - (todo - {e})) == Only(bin, done) + map[e := bin[e]];
      forall z | z in zones
        ensures next[z] == LoadOn(Only(bin, bin.Keys - (todo - {e})), rs, rs, zone, z)
      {
        LoadSplits(Only(bin, done), map[e := bin[e]], Only(bin, bin.Keys - (todo - {e})), rs, rs, zone, z);
      }
      load := next;
      todo := todo - {e};
    }
    assert Only(bin, bin.Keys - todo) == bin;
  }

  /** The imbalance of one step over the listed zones. */
  method StepRatio(bin: Bin, rs: seq<ReplicaSpec>, zone: Zoning, zones: seq<nat>) returns (ratio: real)
    requires Zoned(rs, zone, zones)
    ensures ratio == Ratio(ZoneLoads(bin, rs, zone, zones))
  {
    var load := StepLoads(bin, rs, zone, set z | z in zones);
    var values := seq(|zones|, i requires 0 <= i < |zones| && forall z | z in zones :: z in load => load[zones[i]]);
    assert values == ZoneLoads(bin, rs, zone, zones);
    ratio := Ratio(values);
  }

  lemma PartIsZoned(rs: seq<ReplicaSpec>, brain: seq<ChipId>, nodeOf: Zoning)
    ensures Zoned(Part(rs, brain, true), Itself(), Unique(brain))
    ensures Zoned(Part(rs, brain, true), nodeOf, Nodes(brain, nodeOf))
  {
    PartByPlaces(rs, brain, true);
    var names := seq(|brain|, i requires 0 <= i < |brain| => nodeOf(brain[i]));
    forall r | r in Part(rs, brain, true)
      ensures r.chip in brain && nodeOf(r.chip) in Nodes(brain, nodeOf)
    {
      InPart(rs, brain, r);
      var i :| 0 <= i < |brain| && brain[i] == r.chip;
      assert names[i] == nodeOf(r.chip) && names[i] in names;
    }
  }

  lemma {:induction false} InPart(rs: seq<ReplicaSpec>, brain: seq<ChipId>, r: ReplicaSpec)
    requires r in Part(rs, brain, true)
    ensures r.chip in brain
  {
    if rs != [] && !(rs[|rs| - 1].chip in brain && r == rs[|rs| - 1]) {
      InPart(rs[..|rs| - 1], brain, r);
    }
  }

  /** `placement_load_balance`, step by step. */
  method PlacementLoadBalance(plan: seq<ReplicaSpec>, bins: seq<Bin>, brain: seq<ChipId>, nodeOf: Zoning) returns (m: Metrics)
    ensures m == Imbalance(bins, brain, nodeOf, plan)
  {
    var own := Part(plan, brain, true);
    var chips, nodes := Unique(brain), Nodes(brain, nodeOf);
    PartIsZoned(plan, brain, nodeOf);
    var nodeValues, chipValues := [], [];
    for n := 0 to |bins|
      invariant nodeValues == Ratios(bins[..n], own, nodeOf, nodes) && chipValues == Ratios(bins[..n], own, Itself(), chips)
    {
      assert bins[..n + 1][..n] == bins[..n];
      var node := StepRatio(bins[n], own, nodeOf, nodes);
      var chip := StepRatio(bins[n], own, Itself(), chips);
      nodeValues, chipValues := nodeValues + [node], chipValues + [chip];
    }
    assert bins[..|bins|] == bins;
    m := Metrics(MeanOf(nodeValues), MeanOf(chipValues));
  }

  // ----- rebalancing a trace -----

  /** `_aggregate_chip_loads`. */
  function AggregateLoad(bins: seq<Bin>, rs: seq<ReplicaSpec>, c: ChipId): real {
    if bins == [] then 0.0 else AggregateLoad(bins[..|bins| - 1], rs, c) + LoadOn(bins[|bins| - 1], rs, rs, Itself(), c)
  }

  lemma {:induction false} PartJoin(a: seq<ReplicaSpec>, b: seq<ReplicaSpec>, brain: seq<ChipId>)
    ensures Part(a + b, brain, true) == Part(a, brain, true) + Part(b, brain, true)
  {
    if b == [] {
      assert a + b == a;
    } else {
      assert (a + b)[..|a + b| - 1] == a + b[..|b| - 1];
      PartJoin(a, b[..|b| - 1], brain);
    }
  }

  lemma {:induction false} PartOfPart(rs: seq<ReplicaSpec>, brain: seq<ChipId>, inside: bool)
    ensures Part(Part(rs, brain, inside), brain, true) == if inside then Part(rs, brain, true) else []
  {
    if rs != [] {
      var front, last := rs[..|rs| - 1], rs[|rs| - 1];
      PartOfPart(front, brain, inside);
      PartJoin(Part(front, brain, inside), [last], brain);
      assert Part(rs, brain, inside) == Part(front, brain, inside) + (if (last.chip in brain) == inside then [last] else []);
      assert [last][..0] == [];
      PartJoin(Part(front, brain, inside), [], brain);
    }
  }

  lemma PartOfReordered(rs: seq<ReplicaSpec>, brain: seq<ChipId>)
    ensures Part(Reordered(rs, brain), brain, true) == Part(rs, brain, true)
  {
    PartJoin(Part(rs, brain, false), Part(rs, brain, true), brain);
    PartOfPart(rs, brain, false);
    PartOfPart(rs, brain, true);
  }

  /** Listing the replicas that stay put first changes no load. */
  lemma ImbalanceOfReordered(bins: seq<Bin>, brain: seq<ChipId>, nodeOf: Zoning, rs: seq<ReplicaSpec>)
    ensures Imbalance(bins, brain, nodeOf, Reordered(rs, brain)) == Imbalance(bins, brain, nodeOf, rs)
  {
    PartOfReordered(rs, brain);
  }

  /** Rebalancing a placement on a trace. */
  function TraceTask(inv: Inventory, brain: seq<ChipId>, bins: seq<Bin>, nodeOf: Zoning, tolerance: real, fixed: nat): Task {
    Task(inv, brain, (rs: seq<ReplicaSpec>) => Imbalance(bins, brain, nodeOf, rs),
         (rs: seq<ReplicaSpec>, c: ChipId) => AggregateLoad(bins, rs, c), tolerance, fixed)
  }

  /** `rebalance_brain_replicas` on a trace: the same replicas, a valid plan,
      best moves and then best swaps until none gains or the passes are spent,
      and so an imbalance no higher than before, and lower whenever an open move
      or swap of the given plan gains and a pass is allowed. */
  method RebalanceBrain(inv: Inventory, plan: seq<ReplicaSpec>, brain: seq<ChipId>, evaluation: bool, bins: seq<Bin>, nodeOf: Zoning,
                        tolerance: real, maxPasses: int)
    returns (r: Result<seq<ReplicaSpec>, RebalanceError>)
    requires ValidPlan(inv, plan) && tolerance >= 0.0 && forall c | c in brain :: c in inv.chips
    ensures r.Ok? <==> maxPasses >= 0 && !evaluation
    ensures r.Ok? ==> ValidPlan(inv, r.value) && SameLabels(plan, r.value)
    ensures r.Ok? ==> Score(Imbalance(bins, brain, nodeOf, r.value)) <= Score(Imbalance(bins, brain, nodeOf, plan))
    ensures r.Ok? && Part(plan, brain, true) != [] ==>
      var g := TraceTask(inv, brain, bins, nodeOf, tolerance, |Part(plan, brain, false)|);
      && Rebalances(g, Reordered(plan, brain), r.value, maxPasses)
      && (maxPasses > 0 && !(Ends(g, false, Reordered(plan, brain)) && Ends(g, true, Reordered(plan, brain))) ==>
           Score(Imbalance(bins, brain, nodeOf, r.value)) < Score(Imbalance(bins, brain, nodeOf, plan)) - tolerance)
  {
    var g := TraceTask(inv, brain, bins, nodeOf, tolerance, |Part(plan, brain, false)|);
    ImbalanceOfReordered(bins, brain, nodeOf, plan);
    r := Rebalance(inv, plan, brain, evaluation, g.measure, g.load, tolerance, maxPasses);
    if r.Ok? && Part(plan, brain, true) != [] {
      RunGains(g, Reordered(plan, brain), r.value, maxPasses);
    }
  }
}
