/** Breakdowns that do not add up to the reported time. */
module ExecutorExamples {
  import opened Basics
  import opened Sums
  import opened Executors

  /** One second of computing on a pool. */
  function Second(pool: string): Op {
    Op(pool, "moe", 0.0, 1.0, Compute(1.0, "compute", 0.0, map[], 1, 0.0))
  }

  /** Two pools, joined for free. */
  function TwoPools(): System {
    System({"a", "b"}, "a", (p, q, bytes) => Some((0.0, 0.0)))
  }

  lemma SecondsAreValid(p: string, q: string)
    ensures ValidSystem(TwoPools()) && ValidOps([Second(p), Second(q)]) && ValidOps([Second(p)])
  {
    SumEmpty(Second(p).work.bySource);
  }

  lemma OneVisit(sys: System, a: Op)
    requires a.work.time >= 0.0
    ensures VisitAll(sys, [a], 0.0) == Visit(sys, Walk(Nothing(), None, 0.0), a, 0.0)
  {
    assert [a][..0] == [];
  }

  lemma TwoVisits(sys: System, a: Op, b: Op)
    requires a.work.time >= 0.0 && b.work.time >= 0.0
    ensures VisitAll(sys, [a, b], 0.0) == Visit(sys, VisitAll(sys, [a], 0.0), b, 0.0)
  {
    assert [a, b][..1] == [a];
  }

  /** What a second on a pool changes. */
  predicate Adds(r: StepResult, r': StepResult, pool: string) {
    && r'.time == r.time + 1.0 && r'.busyByPool == Bump(r.busyByPool, pool, 1.0)
    && r'.tBridge == r.tBridge && r'.tCollective == r.tCollective
    && r'.tByBound.Keys <= r.tByBound.Keys + {"bridge", "compute"}
  }

  lemma SecondAdds(w: Walk, pool: string)
    requires pool in TwoPools().pools
    ensures Adds(w.result, Visit(TwoPools(), w, Second(pool), 0.0).result, pool)
  {
  }

  lemma OneSecond(pool: string)
    requires pool in TwoPools().pools
    ensures Adds(Nothing(), VisitAll(TwoPools(), [Second(pool)], 0.0).result, pool)
  {
    OneVisit(TwoPools(), Second(pool));
    SecondAdds(Walk(Nothing(), None, 0.0), pool);
  }

  /** A second on each of two pools. */
  predicate IsTwoSeconds(r: StepResult, p: string, q: string) {
    && r.time == 2.0 && r.busyByPool == map[p := 1.0, q := 1.0] && r.tBridge == 0.0 && r.tCollective == 0.0
    && r.tByBound.Keys <= {"bridge", "compute"}
  }

  lemma BothAdd(r0: StepResult, r1: StepResult, r2: StepResult, p: string, q: string)
    requires r0 == Nothing() && Adds(r0, r1, p) && Adds(r1, r2, q) && p != q
    ensures IsTwoSeconds(r2, p, q)
  {
  }

  lemma TwoSeconds(p: string, q: string)
    requires p in TwoPools().pools && q in TwoPools().pools && p != q
    ensures IsTwoSeconds(VisitAll(TwoPools(), [Second(p), Second(q)], 0.0).result, p, q)
  {
    var w := VisitAll(TwoPools(), [Second(p)], 0.0);
    OneSecond(p);
    SecondAdds(w, q);
    TwoVisits(TwoPools(), Second(p), Second(q));
    BothAdd(Nothing(), w.result, Visit(TwoPools(), w, Second(q), 0.0).result, p, q);
  }

  /** Side by side two seconds take one, and the breakdown still says two. */
  lemma SideBySideIsCountedTwice()
    ensures var sys := TwoPools();
      var r := Merge(VisitAll(sys, [Second("a")], 0.0).result, VisitAll(sys, [Second("b")], 0.0).result, false);
      r.time == 1.0 && Sum(r.tByBound) == 2.0
  {
    var sys := TwoPools();
    OneSecond("a");
    OneSecond("b");
    SecondsAreValid("a", "a");
    SecondsAreValid("b", "b");
    WalkAddsUp(sys, [Second("a")], 0.0);
    WalkAddsUp(sys, [Second("b")], 0.0);
    JoinAdds(VisitAll(sys, [Second("a")], 0.0).result.tByBound, VisitAll(sys, [Second("b")], 0.0).result.tByBound);
  }

  lemma PeriodOfTwo(r: StepResult, p: string, q: string, period: real)
    requires IsPeriod(r, period) && r.busyByPool == map[p := 1.0, q := 1.0] && r.tBridge == 0.0 && r.tCollective == 0.0
    ensures period == 1.0
  {
    assert p in r.busyByPool.Keys;
  }

  lemma CountedTwice(whole: StepResult, part: StepResult, p: string, q: string, r: StepResult)
    requires IsPipelined(whole, part, 2, r) && AddsUp(part) && Sensible(part) && IsTwoSeconds(part, p, q)
    ensures r.time == 3.0 && Sum(r.tByBound) == 5.0
  {
    var period: real :| PipelinedAt(whole, part, 2, r, period);
    PeriodOfTwo(part, p, q, period);
    assert |"pipeline_fill"| == 13 && |"bridge"| == 6 && |"compute"| == 7;
    PipelineAttribution(part, 2, period);
    RepeatedIsProduct(2, 2.0);
    RepeatedIsProduct(2, 1.0);
  }

  /** Two micro-batches over two pools of a second each take three seconds, and
      the breakdown says five. */
  lemma PipelineIsCountedTwice(whole: StepResult, r: StepResult)
    requires IsPipelined(whole, VisitAll(TwoPools(), [Second("a"), Second("b")], 0.0).result, 2, r)
    ensures r.time == 3.0 && Sum(r.tByBound) == 5.0
  {
    var ops := [Second("a"), Second("b")];
    SecondsAreValid("a", "b");
    WalkAddsUp(TwoPools(), ops, 0.0);
    assert "a"[0] != "b"[0];
    TwoSeconds("a", "b");
    CountedTwice(whole, VisitAll(TwoPools(), ops, 0.0).result, "a", "b", r);
  }
}
