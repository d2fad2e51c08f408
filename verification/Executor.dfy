/** Pricing a graph of operations: the cost and where it is attributed. */
module Executors {
  import opened Basics
  import opened Sums

  type Tally = map<string, real>

  // ----- operations and the system -----

  /** A collective has a time and an energy; any other operation is priced by
      its device, on a number of shards. */
  datatype Work =
    | Collective(time: real, energy: real, overlappable: bool, overlapScale: real)
    | Compute(time: real, bound: string, energy: real, bySource: Tally, shards: nat, flops: real)

  datatype Op = Op(pool: string, role: string, outBytes: real, wireScale: real, work: Work)

  /** `bridge` is the time and energy of some bytes between two pools, if they
      are connected. */
  datatype System = System(pools: set<string>, default: string, bridge: (string, string, real) -> Option<(real, real)>)

  ghost predicate ValidWork(w: Work) {
    match w
    case Collective(time, energy, overlappable, overlapScale) => time >= 0.0 && energy >= 0.0
    case Compute(time, bound, energy, bySource, shards, flops) => time >= 0.0 && energy == Sum(bySource)
  }

  ghost predicate ValidSystem(sys: System) {
    forall p, q, bytes {:trigger sys.bridge(p, q, bytes)} ::
      sys.bridge(p, q, bytes).Some? ==> sys.bridge(p, q, bytes).value.0 >= 0.0
  }

  ghost predicate ValidOps(ops: seq<Op>) {
    forall op {:trigger ValidWork(op.work)} | op in ops :: ValidWork(op.work)
  }

  // ----- the result -----

  datatype StepResult = StepResult(
    time: real, energy: real,
    tByPool: Tally, tByRole: Tally, tByBound: Tally, eByPool: Tally, eBySource: Tally, busyByPool: Tally,
    bytesCrossed: real, crossings: nat, tBridge: real, tCollective: real, flops: real)

  function Nothing(): StepResult {
    StepResult(0.0, 0.0, map[], map[], map[], map[], map[], map[], 0.0, 0, 0.0, 0.0, 0.0)
  }

  function Get(m: Tally, k: string): real {
    if k in m then m[k] else 0.0
  }

  function Bump(m: Tally, k: string, v: real): Tally {
    m[k := Get(m, k) + v]
  }

  /** Adds v times over for every source. */
  function BumpAll(m: Tally, more: Tally, times: nat): Tally {
    map k | k in m.Keys + more.Keys :: Get(m, k) + if k in more then Repeated(times, more[k]) else 0.0
  }

  /** Crossing to another pool. */
  function Crossed(r: StepResult, bytes: real, cost: Option<(real, real)>): StepResult {
    var t, e := if cost.Some? then cost.value.0 else 0.0, if cost.Some? then cost.value.1 else 0.0;
    r.(time := r.time + t, energy := r.energy + e,
       tByBound := Bump(r.tByBound, "bridge", t),
       eBySource := if cost.Some? then Bump(r.eBySource, "bridge", e) else r.eBySource,
       bytesCrossed := r.bytesCrossed + bytes, crossings := r.crossings + 1, tBridge := r.tBridge + t)
  }

  function Exposed(time: real, overlappable: bool, overlap: real, scale: real): (t: real)
    requires time >= 0.0
    ensures t >= 0.0
  {
    if overlappable && overlap > 0.0 then
      var left := Max(0.0, 1.0 - overlap * scale);
      assert time * left >= 0.0;
      time * left
    else time
  }

  function Collected(r: StepResult, pool: string, role: string, t: real, e: real): StepResult {
    r.(time := r.time + t, energy := r.energy + e, tCollective := r.tCollective + t,
       tByPool := Bump(r.tByPool, pool, t), tByRole := Bump(r.tByRole, role, t), tByBound := Bump(r.tByBound, "collective", t),
       eByPool := Bump(r.eByPool, pool, e), eBySource := Bump(r.eBySource, "collective", e), busyByPool := Bump(r.busyByPool, pool, t))
  }

  function Computed(r: StepResult, pool: string, role: string, t: real, bound: string, energy: real, bySource: Tally, shards: nat, flops: real): StepResult {
    var e := Repeated(shards, energy);
    r.(time := r.time + t, energy := r.energy + e, flops := r.flops + flops,
       tByPool := Bump(r.tByPool, pool, t), tByRole := Bump(r.tByRole, role, t), tByBound := Bump(r.tByBound, bound, t),
       eByPool := Bump(r.eByPool, pool, e), eBySource := BumpAll(r.eBySource, bySource, shards), busyByPool := Bump(r.busyByPool, pool, t))
  }

  // ----- the walk over the graph -----

  datatype Walk = Walk(result: StepResult, pool: Option<string>, bytes: real)

  /** The pool an operation lands on: its own, or the default if unknown. */
  function PoolOf(sys: System, op: Op): string {
    if op.pool in sys.pools then op.pool else sys.default
  }

  function WireBytes(w: Walk, op: Op): real {
    w.bytes * op.wireScale
  }

  function BridgeCost(sys: System, p: string, q: string, bytes: real): Option<(real, real)> {
    sys.bridge(p, q, bytes)
  }

  function CrossTo(sys: System, w: Walk, op: Op): StepResult {
    var pool := PoolOf(sys, op);
    if w.pool.Some? && pool != w.pool.value then
      Crossed(w.result, WireBytes(w, op), BridgeCost(sys, w.pool.value, pool, WireBytes(w, op)))
    else w.result
  }

  function Charge(r: StepResult, pool: string, op: Op, overlap: real): StepResult
    requires op.work.time >= 0.0
  {
    match op.work
    case Collective(time, energy, overlappable, overlapScale) =>
      Collected(r, pool, op.role, Exposed(time, overlappable, overlap, overlapScale), energy)
    case Compute(time, bound, energy, bySource, shards, flops) =>
      Computed(r, pool, op.role, time, bound, energy, bySource, shards, flops)
  }

  function Visit(sys: System, w: Walk, op: Op, overlap: real): Walk
    requires op.work.time >= 0.0
  {
    Walk(Charge(CrossTo(sys, w, op), PoolOf(sys, op), op, overlap), Some(PoolOf(sys, op)), op.outBytes)
  }

  function VisitAll(sys: System, ops: seq<Op>, overlap: real): Walk
    requires Timed(ops)
  {
    if ops == [] then Walk(Nothing(), None, 0.0)
    else
      var front, last := ops[..|ops| - 1], ops[|ops| - 1];
      assert last in ops;
      Visit(sys, VisitAll(sys, front, overlap), last, overlap)
  }

  // ----- the attribution adds up -----

  lemma BumpAdds(m: Tally, k: string, v: real)
    ensures Sum(Bump(m, k, v)) == Sum(m) + v
  {
    if k in m { SumUpdate(m, k, m[k] + v); } else { SumAdd(m, k, v); }
  }

  ghost function Extended(m: Tally, keys: set<string>): Tally {
    map k | k in m.Keys + keys :: Get(m, k)
  }

  lemma {:induction false} ExtendKeeps(m: Tally, keys: set<string>)
    ensures Sum(Extended(m, keys)) == Sum(m)
    decreases keys
  {
    if keys == {} {
      assert Extended(m, keys) == m;
    } else {
      var k := Member(keys);
      ExtendKeeps(m, keys - {k});
      ExtendOne(m, keys, k);
    }
  }

  lemma ExtendOne(m: Tally, keys: set<string>, k: string)
    requires k in keys
    ensures Sum(Extended(m, keys)) == Sum(Extended(m, keys - {k}))
  {
    var less := Extended(m, keys - {k});
    if k in less {
      assert Extended(m, keys) == less;
    } else {
      assert Extended(m, keys) == less[k := 0.0];
      SumAdd(less, k, 0.0);
    }
  }

  ghost function Multiple(m: Tally, n: nat): Tally {
    map k | k in m.Keys :: Repeated(n, m[k])
  }

  lemma {:induction false} MultipleAdds(m: Tally, n: nat)
    ensures Sum(Multiple(m, n)) == Repeated(n, Sum(m))
  {
    if n == 0 {
      assert AllEqual(Multiple(m, 0), 0.0);
      SumZero(Multiple(m, 0));
    } else {
      MultipleAdds(m, n - 1);
      SumPointwise(Multiple(m, n - 1), m, Multiple(m, n));
    }
  }

  lemma BumpAllAdds(m: Tally, more: Tally, times: nat)
    ensures Sum(BumpAll(m, more, times)) == Sum(m) + Repeated(times, Sum(more))
  {
    var a, b := Extended(m, more.Keys), Extended(Multiple(more, times), m.Keys);
    ExtendKeeps(m, more.Keys);
    ExtendKeeps(Multiple(more, times), m.Keys);
    MultipleAdds(more, times);
    SumPointwise(a, b, BumpAll(m, more, times));
  }

  /** Time by bound adds up to the time; time by pool and by role to the time
      outside the bridge; energy by source to the energy. */
  ghost predicate AddsUp(r: StepResult) {
    && r.time == Sum(r.tByBound)
    && r.time == Sum(r.tByPool) + r.tBridge
    && r.time == Sum(r.tByRole) + r.tBridge
    && r.energy == Sum(r.eBySource)
    && r.busyByPool == r.tByPool
  }

  /** No time is negative, and bridge and collectives are part of the time. */
  ghost predicate Sensible(r: StepResult) {
    && r.tBridge >= 0.0 && r.tCollective >= 0.0 && r.tBridge + r.tCollective <= r.time
    && forall k | k in r.busyByPool.Keys :: r.busyByPool[k] >= 0.0
  }

  lemma CrossingAddsUp(sys: System, w: Walk, op: Op)
    requires ValidSystem(sys) && AddsUp(w.result) && Sensible(w.result)
    ensures AddsUp(CrossTo(sys, w, op)) && Sensible(CrossTo(sys, w, op))
  {
    var pool, r := PoolOf(sys, op), w.result;
    if w.pool.Some? && pool != w.pool.value {
      CrossedAddsUp(r, WireBytes(w, op), BridgeCost(sys, w.pool.value, pool, WireBytes(w, op)));
    }
  }

  lemma CrossedAddsUp(r: StepResult, bytes: real, cost: Option<(real, real)>)
    requires AddsUp(r) && Sensible(r) && (cost.Some? ==> cost.value.0 >= 0.0)
    ensures AddsUp(Crossed(r, bytes, cost)) && Sensible(Crossed(r, bytes, cost))
  {
    match cost
    case Some((t, e)) =>
      BumpAdds(r.tByBound, "bridge", t);
      BumpAdds(r.eBySource, "bridge", e);
    case None =>
      BumpAdds(r.tByBound, "bridge", 0.0);
  }

  lemma CollectiveAddsUp(r: StepResult, pool: string, role: string, t: real, e: real)
    requires AddsUp(r) && Sensible(r) && t >= 0.0
    ensures AddsUp(Collected(r, pool, role, t, e)) && Sensible(Collected(r, pool, role, t, e))
  {
    BumpAdds(r.tByBound, "collective", t);
    BumpAdds(r.tByPool, pool, t);
    BumpAdds(r.tByRole, role, t);
    BumpAdds(r.eBySource, "collective", e);
  }

  lemma ComputeAddsUp(r: StepResult, pool: string, role: string, t: real, bound: string, energy: real, bySource: Tally, shards: nat, flops: real)
    requires AddsUp(r) && Sensible(r) && t >= 0.0 && energy == Sum(bySource)
    ensures var r' := Computed(r, pool, role, t, bound, energy, bySource, shards, flops); AddsUp(r') && Sensible(r')
  {
    BumpAdds(r.tByBound, bound, t);
    BumpAdds(r.tByPool, pool, t);
    BumpAdds(r.tByRole, role, t);
    BumpAllAdds(r.eBySource, bySource, shards);
  }

  lemma VisitAddsUp(sys: System, w: Walk, op: Op, overlap: real)
    requires ValidSystem(sys) && ValidWork(op.work) && AddsUp(w.result) && Sensible(w.result)
    ensures AddsUp(Visit(sys, w, op, overlap).result) && Sensible(Visit(sys, w, op, overlap).result)
  {
    CrossingAddsUp(sys, w, op);
    var r, pool := CrossTo(sys, w, op), PoolOf(sys, op);
    match op.work
    case Collective(time, energy, overlappable, overlapScale) =>
      CollectiveAddsUp(r, pool, op.role, Exposed(time, overlappable, overlap, overlapScale), energy);
    case Compute(time, bound, energy, bySource, shards, flops) =>
      ComputeAddsUp(r, pool, op.role, time, bound, energy, bySource, shards, flops);
  }

  /** The breakdown of every run adds up. */
  lemma {:induction false} WalkAddsUp(sys: System, ops: seq<Op>, overlap: real)
    requires ValidSystem(sys) && ValidOps(ops)
    ensures forall op | op in ops :: op.work.time >= 0.0
    ensures AddsUp(VisitAll(sys, ops, overlap).result) && Sensible(VisitAll(sys, ops, overlap).result)
  {
    forall op | op in ops
      ensures op.work.time >= 0.0
    {
      assert ValidWork(op.work);
    }
    if ops == [] {
      SumEmpty(Nothing().tByBound);
    } else {
      var front, last := ops[..|ops| - 1], ops[|ops| - 1];
      assert last in ops && ValidWork(last.work);
      WalkAddsUp(sys, front, overlap);
      VisitAddsUp(sys, VisitAll(sys, front, overlap), last, overlap);
    }
  }

  // ----- what is attributed where -----

  /** The time an operation takes on its pool. */
  function TimeOf(op: Op, overlap: real): real
    requires op.work.time >= 0.0
  {
    match op.work
    case Collective(time, energy, overlappable, overlapScale) => Exposed(time, overlappable, overlap, overlapScale)
    case Compute(time, bound, energy, bySource, shards, flops) => time
  }

  ghost predicate Timed(ops: seq<Op>) {
    forall op | op in ops :: op.work.time >= 0.0
  }

  /** The time of the operations that landed on a pool. */
  function TimeOn(sys: System, ops: seq<Op>, overlap: real, pool: string): real
    requires Timed(ops)
  {
    if ops == [] then 0.0 else
    var last := ops[|ops| - 1];
    assert last in ops;
    TimeOn(sys, ops[..|ops| - 1], overlap, pool) + if PoolOf(sys, last) == pool then TimeOf(last, overlap) else 0.0
  }

  function TimeAs(ops: seq<Op>, overlap: real, role: string): real
    requires Timed(ops)
  {
    if ops == [] then 0.0 else
    var last := ops[|ops| - 1];
    assert last in ops;
    TimeAs(ops[..|ops| - 1], overlap, role) + if last.role == role then TimeOf(last, overlap) else 0.0
  }

  /** How often consecutive operations change pool. */
  function Changes(sys: System, ops: seq<Op>): nat {
    if |ops| < 2 then 0
    else
      var n := |ops| - 1;
      Changes(sys, ops[..n]) + if PoolOf(sys, ops[n]) != PoolOf(sys, ops[n - 1]) then 1 else 0
  }

  /** What one operation adds. */
  lemma VisitCharges(sys: System, w: Walk, op: Op, overlap: real, pool: string, role: string)
    requires op.work.time >= 0.0
    ensures var w', t := Visit(sys, w, op, overlap), TimeOf(op, overlap);
      && Get(w'.result.tByPool, pool) == Get(w.result.tByPool, pool) + (if PoolOf(sys, op) == pool then t else 0.0)
      && Get(w'.result.tByRole, role) == Get(w.result.tByRole, role) + (if op.role == role then t else 0.0)
      && w'.result.crossings == w.result.crossings + (if w.pool.Some? && w.pool.value != PoolOf(sys, op) then 1 else 0)
      && w'.pool == Some(PoolOf(sys, op))
  {
    var r := CrossTo(sys, w, op);
    assert r.tByPool == w.result.tByPool && r.tByRole == w.result.tByRole;
  }

  /** Every pool is charged exactly the operations that landed on it, every role
      exactly its own, and every change of pool is one crossing. */
  lemma {:induction false} ChargedWhereDue(sys: System, ops: seq<Op>, overlap: real, pool: string, role: string)
    requires Timed(ops)
    ensures var w := VisitAll(sys, ops, overlap);
      && Get(w.result.tByPool, pool) == TimeOn(sys, ops, overlap, pool)
      && Get(w.result.tByRole, role) == TimeAs(ops, overlap, role)
      && w.result.crossings == Changes(sys, ops)
      && w.pool == if ops == [] then None else Some(PoolOf(sys, ops[|ops| - 1]))
  {
    if ops != [] {
      var front, last := ops[..|ops| - 1], ops[|ops| - 1];
      assert last in ops;
      ChargedWhereDue(sys, front, overlap, pool, role);
      VisitCharges(sys, VisitAll(sys, front, overlap), last, overlap, pool, role);
      assert front != [] ==> front[|front| - 1] == ops[|ops| - 2];
    }
  }

  /** The busiest pool, and bridge plus collectives, fit in the time. */
  lemma PartsFit(r: StepResult, k: string)
    requires AddsUp(r) && Sensible(r) && k in r.busyByPool
    ensures r.busyByPool[k] <= r.time
  {
    SumBoundsTerm(r.tByPool, k);
  }

  /** Prices the operations one after the other. */
  method Execute(sys: System, ops: seq<Op>, overlap: real) returns (r: StepResult)
    requires ValidSystem(sys) && ValidOps(ops)
    ensures forall op | op in ops :: op.work.time >= 0.0
    ensures r == VisitAll(sys, ops, overlap).result && AddsUp(r) && Sensible(r)
  {
    WalkAddsUp(sys, ops, overlap);
    var w := Walk(Nothing(), None, 0.0);
    for n := 0 to |ops|
      invariant w == VisitAll(sys, ops[..n], overlap)
    {
      assert ops[n] in ops && ops[..n + 1][..n] == ops[..n];
      w := Visit(sys, w, ops[n], overlap);
    }
    assert ops[..|ops|] == ops;
    r := w.result;
  }

  // ----- merging two results -----

  function Joined(a: Tally, b: Tally): Tally {
    BumpAll(a, b, 1)
  }

  /** `StepResult.merge`: one after the other, or side by side. */
  function Merge(a: StepResult, b: StepResult, serial: bool): StepResult {
    StepResult(
      if serial then a.time + b.time else Max(a.time, b.time), a.energy + b.energy,
      Joined(a.tByPool, b.tByPool), Joined(a.tByRole, b.tByRole), Joined(a.tByBound, b.tByBound),
      Joined(a.eByPool, b.eByPool), Joined(a.eBySource, b.eBySource), Joined(a.busyByPool, b.busyByPool),
      a.bytesCrossed + b.bytesCrossed, a.crossings + b.crossings, a.tBridge + b.tBridge, a.tCollective + b.tCollective, a.flops + b.flops)
  }

  lemma JoinAdds(a: Tally, b: Tally)
    ensures Sum(Joined(a, b)) == Sum(a) + Sum(b)
  {
    BumpAllAdds(a, b, 1);
    assert Repeated(1, Sum(b)) == Repeated(0, Sum(b)) + Sum(b);
  }

  /** A serial merge adds up; side by side, the breakdown adds up exactly when
      one of the two took no time. */
  lemma MergeAddsUp(a: StepResult, b: StepResult, serial: bool)
    requires AddsUp(a) && AddsUp(b) && Sensible(a) && Sensible(b)
    ensures AddsUp(Merge(a, b, serial)) <==> serial || a.time == 0.0 || b.time == 0.0
  {
    JoinAdds(a.tByBound, b.tByBound);
    JoinAdds(a.tByPool, b.tByPool);
    JoinAdds(a.tByRole, b.tByRole);
    JoinAdds(a.eBySource, b.eBySource);
  }

  // ----- micro-batch pipelining -----

  /** m runs of the same step, in the given time. */
  function Repeatedly(r: StepResult, m: nat, time: real, fill: real): StepResult {
    StepResult(
      time, Repeated(m, r.energy),
      Times(r.tByPool, m), Times(r.tByRole, m), Times(r.tByBound, m)["pipeline_fill" := fill],
      Times(r.eByPool, m), Times(r.eBySource, m), Times(r.busyByPool, m),
      Repeated(m, r.bytesCrossed), m * r.crossings, Repeated(m, r.tBridge), Repeated(m, r.tCollective), Repeated(m, r.flops))
  }

  function Times(t: Tally, m: nat): Tally {
    map k | k in t.Keys :: Repeated(m, t[k])
  }

  lemma TimesAdds(t: Tally, m: nat)
    ensures Sum(Times(t, m)) == Repeated(m, Sum(t))
  {
    MultipleAdds(t, m);
    assert Times(t, m) == Multiple(t, m);
  }

  /** p is the largest of the values and zero. */
  ghost predicate IsPeak(t: Tally, p: real) {
    p >= 0.0 && (forall k | k in t.Keys :: t[k] <= p) && (p == 0.0 || exists k :: k in t.Keys && t[k] == p)
  }

  method Peak(t: Tally) returns (p: real)
    ensures IsPeak(t, p)
  {
    p := 0.0;
    var todo := t.Keys;
    while todo != {}
      invariant todo <= t.Keys && p >= 0.0
      invariant forall k | k in t.Keys - todo :: t[k] <= p
      invariant p == 0.0 || exists k :: k in t.Keys && t[k] == p
      decreases todo
    {
      var k :| k in todo;
      if t[k] > p { p := t[k]; }
      todo := todo - {k};
    }
  }

  /** The steady-state period: the busiest pool, or the serial glue. */
  ghost predicate IsPeriod(r: StepResult, period: real) {
    exists p :: IsPeak(r.busyByPool, p) && period == Max(p, r.tBridge + r.tCollective)
  }

  /** The pipeline never waits longer than one micro-batch per period. */
  lemma PeriodFits(r: StepResult, period: real)
    requires AddsUp(r) && Sensible(r) && IsPeriod(r, period)
    ensures 0.0 <= period <= r.time
    ensures forall k | k in r.busyByPool.Keys :: r.busyByPool[k] <= period
  {
    var p :| IsPeak(r.busyByPool, p) && period == Max(p, r.tBridge + r.tCollective);
    if p != 0.0 {
      var k :| k in r.busyByPool.Keys && r.busyByPool[k] == p;
      PartsFit(r, k);
    }
  }

  lemma {:induction false} RepeatedNonNegative(n: nat, d: real)
    requires d >= 0.0
    ensures Repeated(n, d) >= 0.0
  {
    if n > 0 { RepeatedNonNegative(n - 1, d); }
  }

  /** A pipelined step takes between one and m micro-batch times, and saves
      nothing exactly when one pool is busy all the time. */
  lemma PipelineBounds(time: real, period: real, m: nat)
    requires 0.0 <= period <= time && m > 1
    ensures time <= time - period + Repeated(m, period) <= Repeated(m, time)
    ensures time - period + Repeated(m, period) >= Repeated(m, time) <==> period == time
  {
    RepeatedNonNegative(m - 1, period);
    RepeatedMonotone(m - 1, period, time);
    RepeatedMonotone(m - 1, time, period);
  }

  /** What a pipelined run of m micro-batches reports, against the serial run
      of the whole graph. */
  ghost predicate IsPipelined(whole: StepResult, part: StepResult, m: nat, r: StepResult) {
    exists period: real {:trigger PipelinedAt(whole, part, m, r, period)} :: PipelinedAt(whole, part, m, r, period)
  }

  ghost predicate PipelinedAt(whole: StepResult, part: StepResult, m: nat, r: StepResult, period: real) {
    && IsPeriod(part, period)
    && if period == part.time && whole.time <= Repeated(m, part.time) then r == whole
       else r == Repeatedly(part, m, part.time - period + Repeated(m, period), part.time - period)
  }

  /** `execute_pipelined` on a graph and its micro-batch. With fewer than two
      busy pools it is the serial run; otherwise the time is fill plus m
      periods, unless one pool is busy all the time and the serial run is no
      slower. */
  method ExecutePipelined(sys: System, ops: seq<Op>, micro: seq<Op>, overlap: real, microbatches: int) returns (r: StepResult)
    requires ValidSystem(sys) && ValidOps(ops) && ValidOps(micro)
    ensures forall op | op in ops || op in micro :: op.work.time >= 0.0
    ensures var whole, part := VisitAll(sys, ops, overlap).result, VisitAll(sys, micro, overlap).result;
      if microbatches <= 1 || |part.busyByPool| < 2 then r == whole else IsPipelined(whole, part, microbatches, r)
  {
    var whole := Execute(sys, ops, overlap);
    var part := Execute(sys, micro, overlap);
    if microbatches <= 1 || |part.busyByPool| < 2 { return whole; }
    r := Pipeline(whole, part, microbatches);
  }

  method Pipeline(whole: StepResult, part: StepResult, m: nat) returns (r: StepResult)
    requires AddsUp(part) && Sensible(part) && m > 1
    ensures IsPipelined(whole, part, m, r)
  {
    var busiest := Peak(part.busyByPool);
    var period := Max(busiest, part.tBridge + part.tCollective);
    assert IsPeriod(part, period);
    PeriodFits(part, period);
    PipelineBounds(part.time, period, m);
    var fill := part.time - period;
    if fill + Repeated(m, period) >= Repeated(m, part.time) {
      if whole.time <= fill + Repeated(m, period) {
        assert PipelinedAt(whole, part, m, whole, period);
        return whole;
      }
    }
    r := Repeatedly(part, m, Max(part.time, fill + Repeated(m, period)), fill);
    assert PipelinedAt(whole, part, m, r, period);
  }

  /** Any pipelined time lies between one and m micro-batch times, or is that
      of a serial run no slower than m micro-batches. */
  lemma PipelinedTime(whole: StepResult, part: StepResult, m: nat, r: StepResult)
    requires AddsUp(part) && Sensible(part) && m > 1 && IsPipelined(whole, part, m, r)
    ensures r.time <= Repeated(m, part.time)
    ensures r == whole || part.time <= r.time
  {
    var period: real :| PipelinedAt(whole, part, m, r, period);
    PeriodFits(part, period);
    PipelineBounds(part.time, period, m);
  }

  /** Energy by source still adds up in a pipelined result; time by bound does
      so exactly when nothing was overlapped, because the micro-batches are
      charged in full and the fill comes on top. */
  lemma PipelineAttribution(part: StepResult, m: nat, period: real)
    requires AddsUp(part) && Sensible(part) && IsPeriod(part, period) && m > 1 && "pipeline_fill" !in part.tByBound
    ensures var fill := part.time - period;
      var r := Repeatedly(part, m, fill + Repeated(m, period), fill);
      && r.energy == Sum(r.eBySource)
      && Sum(r.tByBound) == Repeated(m, part.time) + fill
      && (r.time == Sum(r.tByBound) <==> period == part.time)
  {
    PeriodFits(part, period);
    TimesAdds(part.eBySource, m);
    TimesAdds(part.tByBound, m);
    SumAdd(Times(part.tByBound, m), "pipeline_fill", part.time - period);
    RepeatedMonotone(m, period, part.time);
    RepeatedMonotone(m, part.time, period);
  }

  /** All else in a pipelined result is m times that of one micro-batch. */
  lemma PipelinedIsManyfold(part: StepResult, m: nat, time: real, fill: real, pool: string)
    ensures var r, n := Repeatedly(part, m, time, fill), m as real;
      && r.energy == part.energy * n && r.bytesCrossed == part.bytesCrossed * n && r.crossings == m * part.crossings
      && r.tBridge == part.tBridge * n && r.tCollective == part.tCollective * n && r.flops == part.flops * n
      && Get(r.tByPool, pool) == Get(part.tByPool, pool) * n && Get(r.tByRole, pool) == Get(part.tByRole, pool) * n
      && Get(r.tByBound, pool) == (if pool == "pipeline_fill" then fill else Get(part.tByBound, pool) * n)
      && Get(r.eByPool, pool) == Get(part.eByPool, pool) * n && Get(r.eBySource, pool) == Get(part.eBySource, pool) * n
      && Get(r.busyByPool, pool) == Get(part.busyByPool, pool) * n
  {
    ManyfoldOf(m, part.energy);
    ManyfoldOf(m, part.bytesCrossed);
    ManyfoldOf(m, part.tBridge);
    ManyfoldOf(m, part.tCollective);
    ManyfoldOf(m, part.flops);
    TimesAt(part.tByPool, m, pool);
    TimesAt(part.tByRole, m, pool);
    TimesAt(part.tByBound, m, pool);
    TimesAt(part.eByPool, m, pool);
    TimesAt(part.eBySource, m, pool);
    TimesAt(part.busyByPool, m, pool);
  }

  lemma ManyfoldOf(m: nat, x: real)
    ensures Repeated(m, x) == x * m as real
  {
    RepeatedIsProduct(m, x);
  }

  lemma TimesAt(t: Tally, m: nat, k: string)
    ensures Get(Times(t, m), k) == Get(t, k) * m as real
  {
    if k in t { RepeatedIsProduct(m, t[k]); }
  }

  /** Merged results add up key by key; only the time depends on how. */
  lemma MergedIsSum(a: StepResult, b: StepResult, serial: bool, k: string)
    ensures var r := Merge(a, b, serial);
      && (serial ==> r.time == a.time + b.time)
      && (!serial ==> r.time >= a.time && r.time >= b.time && (r.time == a.time || r.time == b.time))
      && r.energy == a.energy + b.energy && r.bytesCrossed == a.bytesCrossed + b.bytesCrossed && r.crossings == a.crossings + b.crossings
      && r.tBridge == a.tBridge + b.tBridge && r.tCollective == a.tCollective + b.tCollective && r.flops == a.flops + b.flops
      && Get(r.tByPool, k) == Get(a.tByPool, k) + Get(b.tByPool, k) && Get(r.tByRole, k) == Get(a.tByRole, k) + Get(b.tByRole, k)
      && Get(r.tByBound, k) == Get(a.tByBound, k) + Get(b.tByBound, k) && Get(r.eByPool, k) == Get(a.eByPool, k) + Get(b.eByPool, k)
      && Get(r.eBySource, k) == Get(a.eBySource, k) + Get(b.eBySource, k) && Get(r.busyByPool, k) == Get(a.busyByPool, k) + Get(b.busyByPool, k)
  {
    JoinedAt(a.tByPool, b.tByPool, k);
    JoinedAt(a.tByRole, b.tByRole, k);
    JoinedAt(a.tByBound, b.tByBound, k);
    JoinedAt(a.eByPool, b.eByPool, k);
    JoinedAt(a.eBySource, b.eBySource, k);
    JoinedAt(a.busyByPool, b.busyByPool, k);
  }

  lemma JoinedAt(a: Tally, b: Tally, k: string)
    ensures Get(Joined(a, b), k) == Get(a, k) + Get(b, k)
  {
    if k in b { assert Repeated(1, b[k]) == Repeated(0, b[k]) + b[k]; }
  }
}
