/** The energy of a set of layer runs on the provisioned chips. */
module EnergyAccounts {
  import opened Basics
  import opened Energies
  import opened Sums

  datatype Profile = Profile(idle: real, dynamic: real)

  datatype Execution = Execution(chip: ChipId, during: Interval)

  datatype LayerUse = LayerUse(completion: real, executions: seq<Execution>, network: real)

  datatype Breakdown = Breakdown(
    start: real, finish: real, tokens: int, busy: real, dynamic: real, idle: real, network: real, total: real, perToken: real)

  datatype EnergyError = NoResults | NoProfiles | BadTokens | BadStart | BadWindow | LateLayer | UnknownChip | OutsideWindow

  type Profiles = map<ChipId, Profile>

  // ----- what is charged -----

  function Executions(results: seq<LayerUse>): seq<Execution> {
    if results == [] then [] else Executions(results[..|results| - 1]) + results[|results| - 1].executions
  }

  function NetworkEnergy(results: seq<LayerUse>): real {
    if results == [] then 0.0 else NetworkEnergy(results[..|results| - 1]) + results[|results| - 1].network
  }

  /** When chip c computes. */
  function OnChip(execs: seq<Execution>, c: ChipId): seq<Interval> {
    if execs == [] then []
    else OnChip(execs[..|execs| - 1], c) + (if execs[|execs| - 1].chip == c then [execs[|execs| - 1].during] else [])
  }

  function IdlePower(profiles: Profiles): map<ChipId, real> {
    map c | c in profiles.Keys :: profiles[c].idle
  }

  function Charged(profiles: Profiles, busy: map<ChipId, real>): map<ChipId, real> {
    map c | c in profiles.Keys && c in busy.Keys :: busy[c] * profiles[c].dynamic
  }

  /** The busy time of every provisioned chip. */
  ghost predicate IsBusyTable(execs: seq<Execution>, chips: set<ChipId>, busy: map<ChipId, real>) {
    busy.Keys == chips && forall c {:trigger busy[c]} | c in chips :: IsDuration(OnChip(execs, c), busy[c])
  }

  ghost predicate ChargedFor(execs: seq<Execution>, profiles: Profiles, busy: map<ChipId, real>, time: real, energy: real) {
    && time == Sum(busy) && energy == Sum(Charged(profiles, busy)) && busy.Keys == profiles.Keys
    && forall b {:trigger IsBusyTable(execs, profiles.Keys, b)} | b == busy :: IsBusyTable(execs, profiles.Keys, b)
  }

  /** The busy time of all chips and their dynamic energy: each moment of each
      chip is charged once. */
  ghost predicate IsComputeUse(execs: seq<Execution>, profiles: Profiles, time: real, energy: real) {
    exists busy: map<ChipId, real> {:trigger ChargedFor(execs, profiles, busy, time, energy)} ::
      ChargedFor(execs, profiles, busy, time, energy)
  }

  /** The breakdown charges the union of each chip's busy intervals, idle power
      on every provisioned chip for the whole window, and the network. */
  ghost predicate IsAccount(results: seq<LayerUse>, profiles: Profiles, b: Breakdown) {
    && IsComputeUse(Executions(results), profiles, b.busy, b.dynamic)
    && b.network == NetworkEnergy(results)
    && Balances(b, Sum(IdlePower(profiles)))
  }

  /** The parts add up to the total, and the tokens share it. */
  predicate Balances(b: Breakdown, idlePower: real) {
    && b.idle == (b.finish - b.start) * idlePower
    && b.total == b.dynamic + b.idle + b.network
    && b.tokens > 0 && b.perToken * b.tokens as real == b.total
  }

  function MakeBreakdown(start: real, finish: real, tokens: int, busy: real, dynamic: real, idlePower: real, network: real): (b: Breakdown)
    requires tokens > 0
    ensures Balances(b, idlePower)
    ensures b.start == start && b.finish == finish && b.tokens == tokens && b.busy == busy && b.dynamic == dynamic && b.network == network
  {
    var idle := (finish - start) * idlePower;
    var total := dynamic + idle + network;
    Breakdown(start, finish, tokens, busy, dynamic, idle, network, total, total / tokens as real)
  }

  // ----- what is accepted -----

  function Latest(results: seq<LayerUse>): (t: real)
    requires results != []
    ensures forall r | r in results :: r.completion <= t
    ensures exists r :: r in results && r.completion == t
  {
    var last := results[|results| - 1];
    if |results| == 1 then last.completion else
    assert results == results[..|results| - 1] + [last];
    Max(Latest(results[..|results| - 1]), last.completion)
  }

  function Finish(results: seq<LayerUse>, finish: Option<real>): real
    requires results != []
  {
    if finish.Some? then finish.value else Latest(results)
  }

  predicate ExecutionFits(e: Execution, profiles: Profiles, lo: real, hi: real) {
    e.chip in profiles.Keys && lo <= e.during.start && e.during.finish <= hi
  }

  predicate LayerFits(r: LayerUse, profiles: Profiles, start: real, finish: real, tolerance: real) {
    r.completion <= finish + tolerance && forall e | e in r.executions :: ExecutionFits(e, profiles, start - tolerance, finish + tolerance)
  }

  ghost predicate LayersFit(results: seq<LayerUse>, profiles: Profiles, start: real, finish: real, tolerance: real) {
    forall r | r in results :: LayerFits(r, profiles, start, finish, tolerance)
  }

  ghost predicate Accepted(results: seq<LayerUse>, profiles: Profiles, tokens: int, start: real, finish: Option<real>, tolerance: real) {
    && results != [] && profiles.Keys != {} && tokens > 0 && start >= 0.0 && start <= Finish(results, finish)
    && LayersFit(results, profiles, start, Finish(results, finish), tolerance)
  }

  ghost predicate ValidProfiles(profiles: Profiles) {
    forall c | c in profiles.Keys :: profiles[c].idle >= 0.0 && profiles[c].dynamic >= 0.0
  }

  /** Every execution starts before it finishes. */
  ghost predicate ProperUse(results: seq<LayerUse>) {
    forall r {:trigger r in results} | r in results :: forall e | e in r.executions :: e.during.start <= e.during.finish
  }

  // ----- bounds on the account -----

  lemma {:induction false} ExecutionsFrom(results: seq<LayerUse>, e: Execution)
    requires e in Executions(results)
    ensures exists r :: r in results && e in r.executions
  {
    if results != [] {
      var front, last := results[..|results| - 1], results[|results| - 1];
      assert last in results;
      if e !in last.executions {
        ExecutionsFrom(front, e);
        var r :| r in front && e in r.executions;
        assert r in results;
      }
    }
  }

  lemma {:induction false} OnChipFrom(execs: seq<Execution>, c: ChipId, i: Interval)
    requires i in OnChip(execs, c)
    ensures Execution(c, i) in execs
  {
    if execs != [] {
      var front, last := execs[..|execs| - 1], execs[|execs| - 1];
      assert last in execs;
      if i in OnChip(front, c) {
        OnChipFrom(front, c, i);
        assert Execution(c, i) in front;
      } else {
        assert last == Execution(c, i);
      }
    }
  }

  lemma ScaledUp(x: real, w: real, p: real)
    requires 0.0 <= x <= w && p >= 0.0
    ensures 0.0 <= x * p <= w * p
  {
  }

  lemma BusyWithinWindow(results: seq<LayerUse>, profiles: Profiles, start: real, finish: real, tolerance: real, c: ChipId, d: real)
    requires LayersFit(results, profiles, start, finish, tolerance) && start <= finish && tolerance >= 0.0
    requires IsDuration(OnChip(Executions(results), c), d)
    ensures 0.0 <= d <= finish - start + 2.0 * tolerance
  {
    var s := OnChip(Executions(results), c);
    forall i | i in s
      ensures start - tolerance <= i.start && i.finish <= finish + tolerance
    {
      OnChipFrom(Executions(results), c, i);
      ExecutionsFrom(results, Execution(c, i));
      var r :| r in results && Execution(c, i) in r.executions;
      assert ExecutionFits(Execution(c, i), profiles, start - tolerance, finish + tolerance);
    }
    DurationWithin(s, d, start - tolerance, finish + tolerance);
  }

  /** Every chip busy for a time w. */
  function Throughout(profiles: Profiles, w: real): map<ChipId, real> {
    map c | c in profiles.Keys :: w
  }

  ghost predicate Bounded(busy: map<ChipId, real>, w: real) {
    forall c | c in busy.Keys :: 0.0 <= busy[c] <= w
  }

  lemma BusyIsBounded(results: seq<LayerUse>, profiles: Profiles, start: real, finish: real, tolerance: real, busy: map<ChipId, real>, time: real, energy: real)
    requires LayersFit(results, profiles, start, finish, tolerance) && start <= finish && tolerance >= 0.0
    requires ChargedFor(Executions(results), profiles, busy, time, energy)
    ensures Bounded(busy, finish - start + 2.0 * tolerance)
  {
    var w := finish - start + 2.0 * tolerance;
    assert IsBusyTable(Executions(results), profiles.Keys, busy);
    forall c | c in profiles.Keys
      ensures 0.0 <= busy[c] <= w
    {
      BusyWithinWindow(results, profiles, start, finish, tolerance, c, busy[c]);
    }
  }

  lemma BusyTotal(profiles: Profiles, busy: map<ChipId, real>, w: real)
    requires busy.Keys == profiles.Keys && Bounded(busy, w)
    ensures 0.0 <= Sum(busy) <= Sum(Throughout(profiles, w))
  {
    SumNonNegative(busy);
    SumMonotone(busy, Throughout(profiles, w));
  }

  lemma ChargedTotal(profiles: Profiles, busy: map<ChipId, real>, w: real)
    requires ValidProfiles(profiles) && busy.Keys == profiles.Keys && Bounded(busy, w)
    ensures 0.0 <= Sum(Charged(profiles, busy)) <= Sum(Charged(profiles, Throughout(profiles, w)))
  {
    var charged, most := Charged(profiles, busy), Charged(profiles, Throughout(profiles, w));
    forall c | c in profiles.Keys
      ensures 0.0 <= charged[c] <= most[c]
    {
      ScaledUp(busy[c], w, profiles[c].dynamic);
    }
    SumNonNegative(charged);
    SumMonotone(charged, most);
  }

  /** The chips are busy for no longer than the window, whatever overlaps, and
      dynamic energy is at most that of every chip computing throughout it. */
  lemma UseWithinWindow(results: seq<LayerUse>, profiles: Profiles, time: real, energy: real, start: real, finish: real, tolerance: real)
    requires IsComputeUse(Executions(results), profiles, time, energy) && ValidProfiles(profiles)
    requires LayersFit(results, profiles, start, finish, tolerance) && start <= finish && tolerance >= 0.0
    ensures var whole := Throughout(profiles, finish - start + 2.0 * tolerance);
      0.0 <= time <= Sum(whole) && 0.0 <= energy <= Sum(Charged(profiles, whole))
  {
    var busy: map<ChipId, real> :| ChargedFor(Executions(results), profiles, busy, time, energy);
    BusyIsBounded(results, profiles, start, finish, tolerance, busy, time, energy);
    BusyTotal(profiles, busy, finish - start + 2.0 * tolerance);
    ChargedTotal(profiles, busy, finish - start + 2.0 * tolerance);
  }

  /** Chip c computes at a moment exactly if one of its executions lasts over it. */
  lemma {:induction false} OnChipIs(execs: seq<Execution>, c: ChipId, x: real)
    ensures Busy(OnChip(execs, c), x) <==> exists e :: e in execs && e.chip == c && e.during.start <= x <= e.during.finish
  {
    if execs != [] {
      var front, last := execs[..|execs| - 1], execs[|execs| - 1];
      OnChipIs(front, c, x);
      assert execs == front + [last];
      var all := OnChip(execs, c);
      if last.chip == c {
        BusyInLast(all, x);
        assert all[..|all| - 1] == OnChip(front, c);
        if During(last.during, x) { assert last in execs; }
      } else {
        assert all == OnChip(front, c);
      }
      if Busy(OnChip(front, c), x) {
        var e :| e in front && e.chip == c && e.during.start <= x <= e.during.finish;
        assert e in execs;
      }
      if e :| e in execs && e.chip == c && e.during.start <= x <= e.during.finish {
        assert e in front || e == last;
      }
    }
  }

  /** sums[k] is what the first k layer runs spent on the network. */
  lemma {:induction false} NetworkIsSum(results: seq<LayerUse>, sums: seq<real>)
    requires |sums| == |results| + 1 && sums[0] == 0.0
    requires forall k | 0 <= k < |results| :: sums[k + 1] == sums[k] + results[k].network
    ensures NetworkEnergy(results) == sums[|results|]
  {
    if results != [] {
      NetworkIsSum(results[..|results| - 1], sums[..|results|]);
    }
  }

  /** What an account charges, chip by chip: dynamic power for the time the chip
      is busy, and idle power for the whole window on every chip. */
  lemma AccountIs(results: seq<LayerUse>, profiles: Profiles, b: Breakdown)
    returns (busy: map<ChipId, real>, dynamic: map<ChipId, real>, idle: map<ChipId, real>)
    requires IsAccount(results, profiles, b)
    ensures IsBusyTable(Executions(results), profiles.Keys, busy) && b.busy == Sum(busy)
    ensures dynamic.Keys == idle.Keys == profiles.Keys == busy.Keys
    ensures forall c | c in profiles.Keys :: dynamic[c] == busy[c] * profiles[c].dynamic && idle[c] == profiles[c].idle
    ensures b.dynamic == Sum(dynamic) && Balances(b, Sum(idle))
  {
    busy := BusyBehind(Executions(results), profiles, b.busy, b.dynamic);
    dynamic, idle := Charged(profiles, busy), IdlePower(profiles);
    ChargedIs(profiles, busy);
  }

  lemma BusyBehind(execs: seq<Execution>, profiles: Profiles, time: real, energy: real) returns (busy: map<ChipId, real>)
    requires IsComputeUse(execs, profiles, time, energy)
    ensures IsBusyTable(execs, profiles.Keys, busy) && time == Sum(busy) && energy == Sum(Charged(profiles, busy))
  {
    busy :| ChargedFor(execs, profiles, busy, time, energy);
    assert IsBusyTable(execs, profiles.Keys, busy);
  }

  lemma ChargedIs(profiles: Profiles, busy: map<ChipId, real>)
    requires busy.Keys == profiles.Keys
    ensures forall c | c in profiles.Keys :: Charged(profiles, busy)[c] == busy[c] * profiles[c].dynamic
  {
  }

  /** Two sets of runs that keep every chip busy at the same moments cost the
      same: neither the order of the intervals nor their overlap matters. */
  lemma UseIgnoresOverlap(xs: seq<Execution>, ys: seq<Execution>, profiles: Profiles, time: real, energy: real, time': real, energy': real)
    requires IsComputeUse(xs, profiles, time, energy) && IsComputeUse(ys, profiles, time', energy')
    requires forall c: ChipId | c in profiles.Keys :: SameMoments(OnChip(xs, c), OnChip(ys, c))
    ensures time == time' && energy == energy'
  {
    var busyX: map<ChipId, real> :| ChargedFor(xs, profiles, busyX, time, energy);
    var busyY: map<ChipId, real> :| ChargedFor(ys, profiles, busyY, time', energy');
    SameBusyTable(xs, ys, profiles.Keys, busyX, busyY);
  }

  lemma SameBusyTable(xs: seq<Execution>, ys: seq<Execution>, chips: set<ChipId>, busyX: map<ChipId, real>, busyY: map<ChipId, real>)
    requires IsBusyTable(xs, chips, busyX) && IsBusyTable(ys, chips, busyY)
    requires forall c: ChipId | c in chips :: SameMoments(OnChip(xs, c), OnChip(ys, c))
    ensures busyX == busyY
  {
    forall c | c in chips
      ensures busyX[c] == busyY[c]
    {
      DurationIsUnique(OnChip(xs, c), OnChip(ys, c), busyX[c], busyY[c]);
    }
  }

  // ----- the account -----

  predicate Collected(execs: seq<Execution>, intervals: map<ChipId, seq<Interval>>) {
    forall c | c in intervals.Keys :: intervals[c] == OnChip(execs, c)
  }

  lemma CollectNext(execs: seq<Execution>, intervals: map<ChipId, seq<Interval>>, e: Execution)
    requires Collected(execs, intervals) && e.chip in intervals
    ensures Collected(execs + [e], intervals[e.chip := intervals[e.chip] + [e.during]])
  {
    assert (execs + [e])[..|execs|] == execs;
  }

  /** What is wrong with a layer run: it completes too late, or else its first
      execution that does not fit is on an unknown chip or outside the window. */
  ghost predicate IsMisfit(r: LayerUse, profiles: Profiles, lo: real, hi: real, error: EnergyError) {
    if r.completion > hi then error == LateLayer
    else exists k: nat {:trigger IsFirstOut(r.executions, k, profiles, lo, hi)} ::
      IsFirstOut(r.executions, k, profiles, lo, hi) && error == (if r.executions[k].chip in profiles then OutsideWindow else UnknownChip)
  }

  /** Execution k is the first that does not fit. */
  predicate IsFirstOut(execs: seq<Execution>, k: nat, profiles: Profiles, lo: real, hi: real) {
    k < |execs| && (forall e | e in execs[..k] :: ExecutionFits(e, profiles, lo, hi)) && !ExecutionFits(execs[k], profiles, lo, hi)
  }

  /** The error of the first layer run that does not fit. */
  ghost predicate IsFirstMisfit(results: seq<LayerUse>, profiles: Profiles, start: real, finish: real, tolerance: real, error: EnergyError) {
    exists n {:trigger results[n]} :: 0 <= n < |results| && LayersFit(results[..n], profiles, start, finish, tolerance)
      && IsMisfit(results[n], profiles, start - tolerance, finish + tolerance, error)
  }

  /** Adds the intervals of one layer run, which must fit the window. */
  method Collect(r: LayerUse, profiles: Profiles, start: real, finish: real, tolerance: real, before: map<ChipId, seq<Interval>>, ghost execs: seq<Execution>)
    returns (intervals: map<ChipId, seq<Interval>>, error: Option<EnergyError>)
    requires before.Keys == profiles.Keys && Collected(execs, before)
    ensures error.None? <==> LayerFits(r, profiles, start, finish, tolerance)
    ensures error.None? ==> intervals.Keys == profiles.Keys && Collected(execs + r.executions, intervals)
    ensures error.Some? ==> IsMisfit(r, profiles, start - tolerance, finish + tolerance, error.value)
  {
    intervals := before;
    var lo, hi := start - tolerance, finish + tolerance;
    if r.completion > hi { return intervals, Some(LateLayer); }
    var k := 0;
    assert execs + r.executions[..0] == execs;
    while k < |r.executions|
      invariant 0 <= k <= |r.executions| && intervals.Keys == profiles.Keys
      invariant Collected(execs + r.executions[..k], intervals)
      invariant forall e | e in r.executions[..k] :: ExecutionFits(e, profiles, lo, hi)
    {
      var e := r.executions[k];
      assert e in r.executions;
      assert ExecutionFits(e, profiles, lo, hi) || IsFirstOut(r.executions, k, profiles, lo, hi);
      if e.chip !in profiles { return intervals, Some(UnknownChip); }
      if e.during.start < lo || e.during.finish > hi { return intervals, Some(OutsideWindow); }
      CollectNext(execs + r.executions[..k], intervals, e);
      assert execs + r.executions[..k + 1] == execs + r.executions[..k] + [e];
      assert r.executions[..k + 1] == r.executions[..k] + [e];
      intervals := intervals[e.chip := intervals[e.chip] + [e.during]];
      k := k + 1;
    }
    assert r.executions[..k] == r.executions;
    return intervals, None;
  }

  lemma FitsNext(results: seq<LayerUse>, n: nat, profiles: Profiles, start: real, finish: real, tolerance: real)
    requires n < |results| && LayersFit(results[..n], profiles, start, finish, tolerance) && LayerFits(results[n], profiles, start, finish, tolerance)
    ensures LayersFit(results[..n + 1], profiles, start, finish, tolerance)
  {
    assert results[..n + 1] == results[..n] + [results[n]];
  }

  /** The intervals of every chip, or the first error. */
  method CollectAll(results: seq<LayerUse>, profiles: Profiles, start: real, finish: real, tolerance: real)
    returns (r: Result<map<ChipId, seq<Interval>>, EnergyError>)
    ensures r.Ok? <==> LayersFit(results, profiles, start, finish, tolerance)
    ensures r.Ok? ==> r.value.Keys == profiles.Keys && Collected(Executions(results), r.value)
    ensures r.Err? ==> IsFirstMisfit(results, profiles, start, finish, tolerance, r.error)
  {
    var intervals: map<ChipId, seq<Interval>> := map c | c in profiles.Keys :: [];
    var n := 0;
    while n < |results|
      invariant 0 <= n <= |results| && intervals.Keys == profiles.Keys
      invariant Collected(Executions(results[..n]), intervals)
      invariant LayersFit(results[..n], profiles, start, finish, tolerance)
    {
      var error: Option<EnergyError>;
      intervals, error := Collect(results[n], profiles, start, finish, tolerance, intervals, Executions(results[..n]));
      assert results[n] in results;
      if error.Some? { return Err(error.value); }
      assert results[..n + 1][..n] == results[..n];
      FitsNext(results, n, profiles, start, finish, tolerance);
      n := n + 1;
    }
    assert results[..n] == results;
    r := Ok(intervals);
  }

  lemma OnChipIsProper(results: seq<LayerUse>, c: ChipId)
    requires ProperUse(results)
    ensures Proper(OnChip(Executions(results), c))
  {
    forall i | i in OnChip(Executions(results), c)
      ensures i.start <= i.finish
    {
      OnChipFrom(Executions(results), c, i);
      ExecutionsFrom(results, Execution(c, i));
      var r :| r in results && Execution(c, i) in r.executions;
    }
  }

  /** The busy time of every chip. */
  method BusyTimes(results: seq<LayerUse>, profiles: Profiles, intervals: map<ChipId, seq<Interval>>) returns (busy: map<ChipId, real>)
    requires intervals.Keys == profiles.Keys && Collected(Executions(results), intervals) && ProperUse(results)
    ensures IsBusyTable(Executions(results), profiles.Keys, busy)
  {
    busy := map[];
    var todo := profiles.Keys;
    while todo != {}
      invariant todo <= profiles.Keys
      invariant IsBusyTable(Executions(results), profiles.Keys - todo, busy)
      decreases todo
    {
      var c :| c in todo;
      OnChipIsProper(results, c);
      var d := MergedDuration(intervals[c]);
      busy := busy[c := d];
      todo := todo - {c};
    }
    assert profiles.Keys - todo == profiles.Keys;
  }

  /** `sum` over the values of a table. */
  method AddUp(m: map<ChipId, real>) returns (total: real)
    ensures total == Sum(m)
  {
    total := 0.0;
    var rest := m;
    while rest != map[]
      invariant total + Sum(rest) == Sum(m)
      decreases |rest|
    {
      var c :| c in rest;
      SumRemove(rest, c);
      total := total + rest[c];
      rest := rest - {c};
    }
    SumEmpty(rest);
  }

  method NetworkTotal(results: seq<LayerUse>) returns (total: real)
    ensures total == NetworkEnergy(results)
  {
    total := 0.0;
    for n := 0 to |results|
      invariant total == NetworkEnergy(results[..n])
    {
      total := total + results[n].network;
      assert results[..n + 1][..n] == results[..n];
    }
    assert results[..|results|] == results;
  }

  /** `account_system_energy`. */
  method AccountSystemEnergy(results: seq<LayerUse>, profiles: Profiles, tokens: int, start: real, finish: Option<real>, tolerance: real)
    returns (r: Result<Breakdown, EnergyError>)
    requires ValidProfiles(profiles) && ProperUse(results)
    ensures r.Ok? <==> Accepted(results, profiles, tokens, start, finish, tolerance)
    ensures r.Ok? ==> IsAccount(results, profiles, r.value) && r.value.start == start && r.value.tokens == tokens
    ensures r.Ok? ==> if finish.Some? then r.value.finish == finish.value else
      (forall x | x in results :: x.completion <= r.value.finish) && exists x :: x in results && x.completion == r.value.finish
    ensures r.Err? ==>
      if results == [] then r.error == NoResults
      else if profiles.Keys == {} then r.error == NoProfiles
      else if tokens <= 0 then r.error == BadTokens
      else if start < 0.0 then r.error == BadStart
      else if Finish(results, finish) < start then r.error == BadWindow
      else IsFirstMisfit(results, profiles, start, Finish(results, finish), tolerance, r.error)
  {
    if results == [] { return Err(NoResults); }
    if profiles.Keys == {} { return Err(NoProfiles); }
    if tokens <= 0 { return Err(BadTokens); }
    if start < 0.0 { return Err(BadStart); }
    var end := Finish(results, finish);
    if end < start { return Err(BadWindow); }
    var collected := CollectAll(results, profiles, start, end, tolerance);
    if collected.Err? { return Err(collected.error); }
    var b := Assess(results, profiles, collected.value, tokens, start, end);
    r := Ok(b);
  }

  method Assess(results: seq<LayerUse>, profiles: Profiles, intervals: map<ChipId, seq<Interval>>, tokens: int, start: real, end: real)
    returns (b: Breakdown)
    requires intervals.Keys == profiles.Keys && Collected(Executions(results), intervals) && ProperUse(results) && tokens > 0
    ensures IsAccount(results, profiles, b) && b.start == start && b.finish == end && b.tokens == tokens
  {
    var busy := BusyTimes(results, profiles, intervals);
    var busyTime := AddUp(busy);
    var dynamic := AddUp(Charged(profiles, busy));
    var idlePower := AddUp(IdlePower(profiles));
    assert ChargedFor(Executions(results), profiles, busy, busyTime, dynamic);
    var network := NetworkTotal(results);
    b := MakeBreakdown(start, end, tokens, busyTime, dynamic, idlePower, network);
  }
}
