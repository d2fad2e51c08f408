/** The cost of a whole graph as sums over its operations and pool changes. */
module ExecutorTotals {
  import opened Basics
  import opened Sums
  import opened Executors

  /** Where an operation runs: on its pool, or the default one. */
  function Place(sys: System, op: Op): string {
    if op.pool in sys.pools then op.pool else sys.default
  }

  function Unhidden(hidden: real): real {
    if hidden < 1.0 then 1.0 - hidden else 0.0
  }

  /** The time an operation is charged: a collective that can overlap only for
      the part that is not hidden. */
  function OwnTime(op: Op, overlap: real): real {
    match op.work
    case Collective(time, energy, overlappable, scale) =>
      if overlappable && overlap > 0.0 then time * Unhidden(overlap * scale) else time
    case Compute(time, bound, energy, bySource, shards, flops) => time
  }

  /** The energy of all shards. */
  function OwnEnergy(op: Op): real {
    match op.work
    case Collective(time, energy, overlappable, scale) => energy
    case Compute(time, bound, energy, bySource, shards, flops) => energy * shards as real
  }

  /** What goes over the bridge when op runs on another pool than prev. */
  function HopBytes(sys: System, prev: Op, op: Op): real {
    if Place(sys, prev) == Place(sys, op) then 0.0 else prev.outBytes * op.wireScale
  }

  /** The time and energy of that, nothing without a bridge. */
  function Hop(sys: System, prev: Op, op: Op): (real, real) {
    if Place(sys, prev) == Place(sys, op) then (0.0, 0.0) else
    match sys.bridge(Place(sys, prev), Place(sys, op), HopBytes(sys, prev, op))
    case Some(cost) => cost
    case None => (0.0, 0.0)
  }

  /** What bounds the operation's time. */
  function BoundOf(op: Op): string {
    if op.work.Collective? then "collective" else op.work.bound
  }

  /** What a source contributes to the operation's energy. */
  function FromSource(op: Op, source: string): real {
    match op.work
    case Collective(time, energy, overlappable, scale) => if source == "collective" then energy else 0.0
    case Compute(time, bound, energy, bySource, shards, flops) => if source in bySource then bySource[source] * shards as real else 0.0
  }

  /** Costs of operations and of changes between them, together, with what falls
      on one pool, one bound and one source. */
  datatype Bill = Bill(
    ownTime: real, hopTime: real, ownEnergy: real, hopEnergy: real, bytes: real, collective: real, flops: real,
    poolEnergy: real, boundTime: real, sourceEnergy: real)

  datatype Asked = Asked(pool: string, bound: string, source: string)

  /** With one operation more, after a change of pool. */
  function Extended(sys: System, b: Bill, hop: (real, real), bytes: real, op: Op, overlap: real, asked: Asked): Bill {
    Bill(b.ownTime + OwnTime(op, overlap), b.hopTime + hop.0, b.ownEnergy + OwnEnergy(op), b.hopEnergy + hop.1,
         b.bytes + bytes, b.collective + (if op.work.Collective? then OwnTime(op, overlap) else 0.0),
         b.flops + (if op.work.Compute? then op.work.flops else 0.0),
         b.poolEnergy + (if Place(sys, op) == asked.pool then OwnEnergy(op) else 0.0),
         b.boundTime + (if BoundOf(op) == asked.bound then OwnTime(op, overlap) else 0.0) + (if asked.bound == "bridge" then hop.0 else 0.0),
         b.sourceEnergy + FromSource(op, asked.source) + (if asked.source == "bridge" then hop.1 else 0.0))
  }

  function BillFor(sys: System, ops: seq<Op>, overlap: real, asked: Asked): Bill
    decreases |ops|
  {
    if ops == [] then Bill(0.0, 0.0, 0.0, 0.0, 0.0, 0.0, 0.0, 0.0, 0.0, 0.0)
    else if |ops| == 1 then Extended(sys, BillFor(sys, [], overlap, asked), (0.0, 0.0), 0.0, ops[0], overlap, asked)
    else
      var n := |ops| - 1;
      Extended(sys, BillFor(sys, ops[..n], overlap, asked), Hop(sys, ops[n - 1], ops[n]), HopBytes(sys, ops[n - 1], ops[n]), ops[n], overlap, asked)
  }

  // ----- one operation -----

  /** The numbers of r' are those of r and the operation's own. */
  predicate Charged(r: StepResult, r': StepResult, at: string, op: Op, overlap: real, asked: Asked) {
    var t, e := OwnTime(op, overlap), OwnEnergy(op);
    && r'.time == r.time + t && r'.energy == r.energy + e && r'.tBridge == r.tBridge && r'.bytesCrossed == r.bytesCrossed
    && r'.tCollective == r.tCollective + (if op.work.Collective? then t else 0.0)
    && r'.flops == r.flops + (if op.work.Compute? then op.work.flops else 0.0)
    && Get(r'.eByPool, asked.pool) == Get(r.eByPool, asked.pool) + (if at == asked.pool then e else 0.0)
    && Get(r'.tByBound, asked.bound) == Get(r.tByBound, asked.bound) + (if BoundOf(op) == asked.bound then t else 0.0)
    && Get(r'.eBySource, asked.source) == Get(r.eBySource, asked.source) + FromSource(op, asked.source)
  }

  /** The numbers of r' are those of r, a time and an energy. */
  predicate Grown(r: StepResult, r': StepResult, at: string, t: real, e: real, collective: real, flops: real, bound: string,
                  source: real, asked: Asked) {
    && r'.time == r.time + t && r'.energy == r.energy + e && r'.tBridge == r.tBridge && r'.bytesCrossed == r.bytesCrossed
    && r'.tCollective == r.tCollective + collective && r'.flops == r.flops + flops
    && Get(r'.eByPool, asked.pool) == Get(r.eByPool, asked.pool) + (if at == asked.pool then e else 0.0)
    && Get(r'.tByBound, asked.bound) == Get(r.tByBound, asked.bound) + (if bound == asked.bound then t else 0.0)
    && Get(r'.eBySource, asked.source) == Get(r.eBySource, asked.source) + source
  }

  lemma CollectedGrows(r: StepResult, at: string, role: string, t: real, e: real, asked: Asked)
    ensures Grown(r, Collected(r, at, role, t, e), at, t, e, t, 0.0, "collective", if asked.source == "collective" then e else 0.0, asked)
  {
  }

  lemma ComputedGrows(r: StepResult, at: string, role: string, t: real, bound: string, energy: real, bySource: Tally, shards: nat,
                      flops: real, asked: Asked)
    ensures Grown(r, Computed(r, at, role, t, bound, energy, bySource, shards, flops), at, t, Repeated(shards, energy), 0.0, flops, bound,
              if asked.source in bySource then Repeated(shards, bySource[asked.source]) else 0.0, asked)
  {
  }

  lemma GrownIsCharged(r: StepResult, r': StepResult, at: string, op: Op, overlap: real, asked: Asked)
    requires Grown(r, r', at, OwnTime(op, overlap), OwnEnergy(op), if op.work.Collective? then OwnTime(op, overlap) else 0.0,
               if op.work.Compute? then op.work.flops else 0.0, BoundOf(op), FromSource(op, asked.source), asked)
    ensures Charged(r, r', at, op, overlap, asked)
  {
  }

  lemma CollectiveAdds(r: StepResult, at: string, op: Op, overlap: real, asked: Asked)
    requires op.work.time >= 0.0 && op.work.Collective?
    ensures Charged(r, Charge(r, at, op, overlap), at, op, overlap, asked)
  {
    ExposedIs(op.work.time, op.work.overlappable, overlap, op.work.overlapScale);
    var t := OwnTime(op, overlap);
    if op.work.overlappable && overlap > 0.0 {
      assert t == op.work.time * Unhidden(overlap * op.work.overlapScale);
    }
    assert Charge(r, at, op, overlap) == Collected(r, at, op.role, t, op.work.energy);
    CollectedGrows(r, at, op.role, t, op.work.energy, asked);
    GrownIsCharged(r, Collected(r, at, op.role, t, op.work.energy), at, op, overlap, asked);
  }

  lemma ComputeAdds(r: StepResult, at: string, op: Op, overlap: real, asked: Asked)
    requires op.work.time >= 0.0 && op.work.Compute?
    ensures Charged(r, Charge(r, at, op, overlap), at, op, overlap, asked)
  {
    var k := op.work;
    RepeatedIsProduct(k.shards, k.energy);
    if asked.source in k.bySource { RepeatedIsProduct(k.shards, k.bySource[asked.source]); }
    ComputedGrows(r, at, op.role, k.time, k.bound, k.energy, k.bySource, k.shards, k.flops, asked);
    GrownIsCharged(r, Charge(r, at, op, overlap), at, op, overlap, asked);
  }

  /** What one operation costs where it runs. */
  lemma ChargeAdds(r: StepResult, at: string, op: Op, overlap: real, asked: Asked)
    requires op.work.time >= 0.0
    ensures Charged(r, Charge(r, at, op, overlap), at, op, overlap, asked)
  {
    if op.work.Collective? {
      CollectiveAdds(r, at, op, overlap, asked);
    } else {
      ComputeAdds(r, at, op, overlap, asked);
    }
  }

  lemma ExposedIs(time: real, overlappable: bool, overlap: real, scale: real)
    requires time >= 0.0
    ensures Exposed(time, overlappable, overlap, scale) ==
      if overlappable && overlap > 0.0 then time * Unhidden(overlap * scale) else time
  {
  }

  // ----- one change of pool -----

  /** The numbers of r' are those of r and of the change. */
  predicate Hopped(r: StepResult, r': StepResult, hop: (real, real), bytes: real, asked: Asked) {
    && r'.time == r.time + hop.0 && r'.energy == r.energy + hop.1
    && r'.tBridge == r.tBridge + hop.0 && r'.bytesCrossed == r.bytesCrossed + bytes
    && r'.tCollective == r.tCollective && r'.flops == r.flops && r'.eByPool == r.eByPool
    && Get(r'.tByBound, asked.bound) == Get(r.tByBound, asked.bound) + (if asked.bound == "bridge" then hop.0 else 0.0)
    && Get(r'.eBySource, asked.source) == Get(r.eBySource, asked.source) + (if asked.source == "bridge" then hop.1 else 0.0)
  }

  /** What changing to the pool of the next operation costs. */
  lemma CrossingAdds(sys: System, w: Walk, prev: Op, op: Op, asked: Asked)
    requires w.pool == Some(Place(sys, prev)) && w.bytes == prev.outBytes
    ensures Hopped(w.result, CrossTo(sys, w, op), Hop(sys, prev, op), HopBytes(sys, prev, op), asked)
  {
    if Place(sys, prev) == PoolOf(sys, op) {
      NothingHopped(w.result, asked);
    } else {
      var bytes := WireBytes(w, op);
      assert bytes == HopBytes(sys, prev, op);
      CrossedHops(w.result, bytes, BridgeCost(sys, Place(sys, prev), PoolOf(sys, op), bytes), asked);
    }
  }

  lemma CrossedHops(r: StepResult, bytes: real, cost: Option<(real, real)>, asked: Asked)
    ensures Hopped(r, Crossed(r, bytes, cost), if cost.Some? then cost.value else (0.0, 0.0), bytes, asked)
  {
  }

  lemma NothingHopped(r: StepResult, asked: Asked)
    ensures Hopped(r, r, (0.0, 0.0), 0.0, asked)
  {
  }

  // ----- the whole graph -----

  /** What a walk hands on to the next operation. */
  predicate HandsOn(sys: System, w: Walk, ops: seq<Op>) {
    if ops == [] then w.pool == None else w.pool == Some(Place(sys, ops[|ops| - 1])) && w.bytes == ops[|ops| - 1].outBytes
  }

  /** The result says what the bill says. */
  ghost predicate Billed(r: StepResult, b: Bill, asked: Asked) {
    && r.time == b.ownTime + b.hopTime && r.energy == b.ownEnergy + b.hopEnergy
    && r.tBridge == b.hopTime && r.bytesCrossed == b.bytes && r.tCollective == b.collective && r.flops == b.flops
    && Get(r.eByPool, asked.pool) == b.poolEnergy && Get(r.tByBound, asked.bound) == b.boundTime
    && Get(r.eBySource, asked.source) == b.sourceEnergy
  }

  lemma BillGrows(sys: System, r: StepResult, r1: StepResult, r2: StepResult, b: Bill, hop: (real, real), bytes: real,
                  op: Op, overlap: real, asked: Asked)
    requires Billed(r, b, asked) && Hopped(r, r1, hop, bytes, asked) && Charged(r1, r2, Place(sys, op), op, overlap, asked)
    ensures Billed(r2, Extended(sys, b, hop, bytes, op, overlap, asked), asked)
  {
  }

  /** Time and energy of a graph are those of its operations and of the changes
      of pool between them; the parts are those of the operations they belong to. */
  lemma {:induction false} GraphCosts(sys: System, ops: seq<Op>, overlap: real, asked: Asked)
    requires Timed(ops)
    ensures Billed(VisitAll(sys, ops, overlap).result, BillFor(sys, ops, overlap, asked), asked)
    ensures HandsOn(sys, VisitAll(sys, ops, overlap), ops)
  {
    if ops != [] {
      var n := |ops| - 1;
      var front, op := ops[..n], ops[n];
      assert op in ops;
      GraphCosts(sys, front, overlap, asked);
      VisitBilled(sys, VisitAll(sys, front, overlap), BillFor(sys, front, overlap, asked), ops, overlap, asked);
    }
  }

  /** The last operation and the change to it. */
  lemma VisitBilled(sys: System, w: Walk, b: Bill, ops: seq<Op>, overlap: real, asked: Asked)
    requires ops != [] && Billed(w.result, b, asked) && HandsOn(sys, w, ops[..|ops| - 1]) && ops[|ops| - 1].work.time >= 0.0
    ensures var n := |ops| - 1;
      var w', hop := Visit(sys, w, ops[n], overlap), if n > 0 then Hop(sys, ops[n - 1], ops[n]) else (0.0, 0.0);
      var bytes := if n > 0 then HopBytes(sys, ops[n - 1], ops[n]) else 0.0;
      Billed(w'.result, Extended(sys, b, hop, bytes, ops[n], overlap, asked), asked) && HandsOn(sys, w', ops)
  {
    var n, op := |ops| - 1, ops[|ops| - 1];
    var r1 := CrossTo(sys, w, op);
    ChargeAdds(r1, PoolOf(sys, op), op, overlap, asked);
    if n > 0 {
      CrossingAdds(sys, w, ops[n - 1], op, asked);
      BillGrows(sys, w.result, r1, Charge(r1, PoolOf(sys, op), op, overlap), b, Hop(sys, ops[n - 1], op), HopBytes(sys, ops[n - 1], op), op, overlap, asked);
    } else {
      NothingHopped(r1, asked);
      BillGrows(sys, w.result, r1, Charge(r1, PoolOf(sys, op), op, overlap), b, (0.0, 0.0), 0.0, op, overlap, asked);
    }
  }
}
