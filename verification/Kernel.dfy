/** Latency of a grouped expert kernel as a function of its batch size. */
module Kernels {
  import opened Basics
  import opened Sorting

  datatype Sample = Sample(m: int, latency: real)

  type Curve = seq<Sample>

  datatype KernelError = NoSamples | DuplicateSize | Decreasing | BadSize

  predicate ValidSample(s: Sample) {
    s.m > 0 && s.latency > 0.0
  }

  predicate NoSlower(a: Sample, b: Sample) {
    a.m <= b.m ==> a.latency <= b.latency
  }

  /** Sizes ascend, latencies never fall. */
  ghost predicate ValidCurve(c: Curve) {
    && c != [] && (forall s | s in c :: ValidSample(s))
    && forall i, j | 0 <= i < j < |c| :: c[i].m < c[j].m && c[i].latency <= c[j].latency
  }

  // ----- building a curve -----

  predicate SizeOrder(a: Sample, b: Sample) {
    a.m <= b.m
  }

  function BySize(): (Sample, Sample) -> bool {
    (a: Sample, b: Sample) => SizeOrder(a, b)
  }

  function SizeOf(s: Sample): int {
    s.m
  }

  lemma SizesOfSorted(s: seq<Sample>)
    ensures |Sort(BySize(), s)| == |s|
    ensures forall x :: x in Sort(BySize(), s) <==> x in s
    ensures forall i, j | 0 <= i < j < |s| :: Sort(BySize(), s)[i].m <= Sort(BySize(), s)[j].m
  {
    var sorted := Sort(BySize(), s);
    SameElements(sorted, s);
    assert IsOrder(BySize());
    SortAscends(BySize(), s);
    forall i, j | 0 <= i < j < |s|
      ensures sorted[i].m <= sorted[j].m
    {
      assert BySize()(sorted[i], sorted[j]);
    }
  }

  ghost predicate NeverFaster(samples: seq<Sample>) {
    forall a, b {:trigger NoSlower(a, b)} | a in samples && b in samples :: NoSlower(a, b)
  }

  ghost predicate NeverFalls(s: seq<Sample>, k: nat) {
    k <= |s| && forall i, j | 0 <= i < j < k :: s[i].latency <= s[j].latency
  }

  lemma CurveOf(samples: seq<Sample>, ordered: seq<Sample>)
    requires ordered == Sort(BySize(), samples) && DistinctKeys(ordered, SizeOf) && NeverFalls(ordered, |ordered|)
    requires samples != [] && forall s | s in samples :: ValidSample(s)
    ensures ValidCurve(ordered) && NeverFaster(samples) && forall s :: s in ordered <==> s in samples
  {
    SizesOfSorted(samples);
    forall a, b | a in samples && b in samples
      ensures NoSlower(a, b)
    {
      InOrderNoSlower(ordered, a, b);
    }
  }

  lemma InOrderNoSlower(ordered: seq<Sample>, a: Sample, b: Sample)
    requires (forall i, j | 0 <= i < j < |ordered| :: ordered[i].m < ordered[j].m) && NeverFalls(ordered, |ordered|)
    requires a in ordered && b in ordered
    ensures NoSlower(a, b)
  {
    var i :| 0 <= i < |ordered| && ordered[i] == a;
    var j :| 0 <= j < |ordered| && ordered[j] == b;
  }

  lemma FallFound(samples: seq<Sample>, ordered: seq<Sample>)
    requires ordered == Sort(BySize(), samples) && !NeverFalls(ordered, |ordered|)
    ensures !NeverFaster(samples)
  {
    SizesOfSorted(samples);
    var i, j :| 0 <= i < j < |ordered| && ordered[i].latency > ordered[j].latency;
    assert ordered[i] in ordered && ordered[j] in ordered;
    assert !NoSlower(ordered[i], ordered[j]);
  }

  lemma SameSizes(samples: seq<Sample>)
    ensures var ordered := Sort(BySize(), samples);
      && |ordered| == |samples| && (|KeysOf(ordered, SizeOf)| == |ordered| <==> DistinctKeys(samples, SizeOf))
      && (DistinctKeys(ordered, SizeOf) <==> DistinctKeys(samples, SizeOf))
      && forall i | 0 <= i < |ordered| :: ordered[i] in samples
  {
    SizesOfSorted(samples);
    SameKeys(samples, Sort(BySize(), samples), SizeOf);
    CountKeys(Sort(BySize(), samples), SizeOf);
    assert forall i | 0 <= i < |samples| :: Sort(BySize(), samples)[i] in Sort(BySize(), samples);
  }

  /** Whether the latencies never fall. */
  method Rises(ordered: seq<Sample>) returns (rises: bool)
    requires forall i | 0 <= i < |ordered| :: ordered[i].latency >= 0.0
    ensures rises <==> NeverFalls(ordered, |ordered|)
  {
    var previous := 0.0;
    for k := 0 to |ordered|
      invariant previous == if k == 0 then 0.0 else ordered[k - 1].latency
      invariant NeverFalls(ordered, k)
    {
      if ordered[k].latency < previous { return false; }
      previous := ordered[k].latency;
    }
    return true;
  }

  /** A curve is accepted exactly when no size is repeated and a larger batch
      is never faster; it keeps every sample. */
  method MakeCurve(samples: seq<Sample>) returns (r: Result<Curve, KernelError>)
    requires forall s | s in samples :: ValidSample(s)
    ensures samples == [] ==> r == Err(NoSamples)
    ensures samples != [] && !DistinctKeys(samples, SizeOf) ==> r == Err(DuplicateSize)
    ensures r.Ok? <==> samples != [] && DistinctKeys(samples, SizeOf) && NeverFaster(samples)
    ensures r.Ok? ==> ValidCurve(r.value) && forall s :: s in r.value <==> s in samples
  {
    var ordered := Sort(BySize(), samples);
    SameSizes(samples);
    if ordered == [] { return Err(NoSamples); }
    if |KeysOf(ordered, SizeOf)| != |ordered| { return Err(DuplicateSize); }
    var rises := Rises(ordered);
    if !rises {
      FallFound(samples, ordered);
      return Err(Decreasing);
    }
    CurveOf(samples, ordered);
    r := Ok(ordered);
  }

  // ----- prediction -----

  /** `bisect_left`: how many samples are smaller than m. */
  function Position(c: Curve, m: int): (p: nat)
    requires ValidCurve(c)
    ensures p <= |c|
    ensures forall i | 0 <= i < p :: c[i].m < m
    ensures forall i | p <= i < |c| :: c[i].m >= m
  {
    PositionFrom(c, m, |c|)
  }

  function PositionFrom(c: Curve, m: int, k: nat): (p: nat)
    requires ValidCurve(c) && k <= |c| && forall i | k <= i < |c| :: c[i].m >= m
    ensures p <= |c|
    ensures forall i | 0 <= i < p :: c[i].m < m
    ensures forall i | p <= i < |c| :: c[i].m >= m
  {
    if k == 0 || c[k - 1].m < m then k else PositionFrom(c, m, k - 1)
  }

  function Slope(l: Sample, u: Sample): (d: real)
    requires l.m < u.m && l.latency <= u.latency
    ensures d >= 0.0 && d * (u.m - l.m) as real == u.latency - l.latency
  {
    (u.latency - l.latency) / (u.m - l.m) as real
  }

  function Line(l: Sample, u: Sample, m: int): real
    requires l.m < u.m && l.latency <= u.latency
  {
    l.latency + Slope(l, u) * (m - l.m) as real
  }

  function OnLine(l: Sample, u: Sample, m: int): real
    requires l.m < u.m && l.latency <= u.latency
  {
    Max(Line(l, u, m), Min(l.latency, u.latency) * 0.1)
  }

  /** The two samples whose line predicts m. */
  function Lower(c: Curve, m: int): nat
    requires ValidCurve(c) && |c| > 1
    ensures Lower(c, m) + 1 < |c|
  {
    var p := Position(c, m);
    if p == 0 then 0 else if p == |c| then |c| - 2 else p - 1
  }

  predicate IsMeasured(c: Curve, m: int)
    requires ValidCurve(c)
  {
    var p := Position(c, m);
    p < |c| && c[p].m == m
  }

  function Latency(c: Curve, m: int): real
    requires ValidCurve(c) && m > 0
  {
    if IsMeasured(c, m) then c[Position(c, m)].latency
    else if |c| == 1 then c[0].latency
    else OnLine(c[Lower(c, m)], c[Lower(c, m) + 1], m)
  }

  /** Outside the measured range, or off a single measured point. */
  predicate IsExtrapolated(c: Curve, m: int)
    requires ValidCurve(c) && m > 0
  {
    !IsMeasured(c, m) && (|c| == 1 || Position(c, m) == 0 || Position(c, m) == |c|)
  }

  lemma LineRises(l: Sample, u: Sample, m: int, n: int)
    requires l.m < u.m && l.latency <= u.latency && m <= n
    ensures Line(l, u, m) <= Line(l, u, n)
  {
    var d := Slope(l, u);
    assert d * (n - m) as real >= 0.0;
    assert d * (n - l.m) as real == d * (m - l.m) as real + d * (n - m) as real;
  }

  /** The line passes through its samples, and the floor never lifts it there. */
  lemma LineMeets(l: Sample, u: Sample, m: int)
    requires l.m < u.m && 0.0 < l.latency <= u.latency
    ensures m <= l.m ==> OnLine(l, u, m) <= l.latency
    ensures m >= l.m ==> OnLine(l, u, m) >= l.latency
    ensures m <= u.m ==> OnLine(l, u, m) <= u.latency
    ensures m >= u.m ==> OnLine(l, u, m) >= u.latency
  {
    assert Line(l, u, l.m) == l.latency && Line(l, u, u.m) == u.latency;
    if m <= l.m { LineRises(l, u, m, l.m); } else { LineRises(l, u, l.m, m); }
    if m <= u.m { LineRises(l, u, m, u.m); } else { LineRises(l, u, u.m, m); }
  }

  lemma ExactAtSamples(c: Curve, i: nat)
    requires ValidCurve(c) && i < |c|
    ensures c[i].m > 0 && Latency(c, c[i].m) == c[i].latency && !IsExtrapolated(c, c[i].m)
  {
    assert c[i] in c;
    var p := Position(c, c[i].m);
    assert forall q | 0 <= q < i :: c[q].m < c[i].m;
  }

  lemma PredictionIsPositive(c: Curve, m: int)
    requires ValidCurve(c) && m > 0
    ensures Latency(c, m) > 0.0
  {
    assert c[0] in c && (IsMeasured(c, m) ==> c[Position(c, m)] in c);
    if |c| > 1 { assert c[Lower(c, m)] in c && c[Lower(c, m) + 1] in c; }
  }

  /** At and above a sample the prediction is no faster than it. */
  lemma AtLeastSample(c: Curve, m: int, i: nat)
    requires ValidCurve(c) && m > 0 && i < |c| && c[i].m <= m
    ensures c[i].latency <= Latency(c, m)
  {
    var p := Position(c, m);
    if !IsMeasured(c, m) && |c| > 1 {
      var k := Lower(c, m);
      assert i < p && c[k] in c;
      LineMeets(c[k], c[k + 1], m);
    }
  }

  /** At and below a sample the prediction is no slower than it. */
  lemma AtMostSample(c: Curve, m: int, i: nat)
    requires ValidCurve(c) && m > 0 && i < |c| && m <= c[i].m
    ensures Latency(c, m) <= c[i].latency
  {
    var p := Position(c, m);
    if !IsMeasured(c, m) && |c| > 1 {
      var k := Lower(c, m);
      assert p <= i && c[k] in c;
      LineMeets(c[k], c[k + 1], m);
    }
  }

  /** A larger batch never takes less time: within a bracket, across brackets,
      and beyond both ends. */
  lemma PredictionRises(c: Curve, m: int, n: int)
    requires ValidCurve(c) && 0 < m <= n
    ensures Latency(c, m) <= Latency(c, n)
  {
    var p, q := Position(c, m), Position(c, n);
    if p < |c| && c[p].m <= n {
      AtMostSample(c, m, p);
      AtLeastSample(c, n, p);
    } else {
      assert p == q && !IsMeasured(c, m) && !IsMeasured(c, n);
      if |c| > 1 { LineRises(c[Lower(c, m)], c[Lower(c, m) + 1], m, n); }
    }
  }

  /** From the first sample on, the prediction lies on the straight line through
      two neighbouring samples: the floor matters below the first only. */
  lemma PredictionIsLinear(c: Curve, m: int)
    requires ValidCurve(c) && |c| > 1 && m >= c[0].m
    ensures m > 0
    ensures var k := if IsMeasured(c, m) && Position(c, m) + 1 < |c| then Position(c, m) else Lower(c, m);
      && (Latency(c, m) - c[k].latency) * (c[k + 1].m - c[k].m) as real == (c[k + 1].latency - c[k].latency) * (m - c[k].m) as real
      && (m <= c[|c| - 1].m ==> c[k].m <= m <= c[k + 1].m) && (m > c[|c| - 1].m ==> k == |c| - 2)
  {
    assert c[0] in c;
    var k := Lower(c, m);
    assert c[k] in c;
    if !IsMeasured(c, m) { OnLineIsChord(c[k], c[k + 1], m); }
  }

  /** Below the first of several samples the prediction is on the line through
      the first two, but no less than a tenth of the first. */
  lemma PredictionBelow(c: Curve, m: int)
    requires ValidCurve(c) && |c| > 1 && 0 < m < c[0].m
    ensures var floor, x := 0.1 * c[0].latency, Latency(c, m);
      && x >= floor && (x - c[0].latency) * (c[1].m - c[0].m) as real >= (c[1].latency - c[0].latency) * (m - c[0].m) as real
      && (x == floor || (x - c[0].latency) * (c[1].m - c[0].m) as real == (c[1].latency - c[0].latency) * (m - c[0].m) as real)
  {
    var l, u := c[0], c[1];
    assert Position(c, m) == 0 && Lower(c, m) == 0;
    LineIsChord(l, u, m);
    var line, x, run := Line(l, u, m), Latency(c, m), (u.m - l.m) as real;
    assert x >= line && (x - l.latency) * run == (line - l.latency) * run + (x - line) * run;
    assert (x - line) * run >= 0.0;
  }

  lemma LineIsChord(l: Sample, u: Sample, m: int)
    requires l.m < u.m && l.latency <= u.latency
    ensures (Line(l, u, m) - l.latency) * (u.m - l.m) as real == (u.latency - l.latency) * (m - l.m) as real
  {
    Chord(Slope(l, u), u.m - l.m, m - l.m);
  }

  /** A single sample predicts every size. */
  lemma SingleSample(c: Curve, m: int)
    requires ValidCurve(c) && |c| == 1 && m > 0
    ensures Latency(c, m) == c[0].latency
  {
  }

  lemma OnLineIsChord(l: Sample, u: Sample, m: int)
    requires l.m < u.m && 0.0 < l.latency <= u.latency && l.m <= m
    ensures (OnLine(l, u, m) - l.latency) * (u.m - l.m) as real == (u.latency - l.latency) * (m - l.m) as real
  {
    LineMeets(l, u, m);
    LineRises(l, u, l.m, m);
    Chord(Slope(l, u), u.m - l.m, m - l.m);
  }

  lemma Chord(d: real, run: int, part: int)
    ensures d * part as real * run as real == d * run as real * part as real
  {
  }

  // ----- kernels -----

  datatype Kernel =
    | Measured(curve: Curve)
    | Analytic(flops: real, weight: real, peak: real, bandwidth: real, efficiency: real, saturation: int, overhead: real)

  ghost predicate ValidKernel(k: Kernel) {
    match k
    case Measured(c) => ValidCurve(c)
    case Analytic(flops, weight, peak, bandwidth, efficiency, saturation, overhead) =>
      && flops > 0.0 && weight > 0.0 && peak > 0.0 && bandwidth > 0.0
      && 0.0 < efficiency <= 1.0 && saturation > 0 && overhead >= 0.0
  }

  /** How much of the peak a batch of m can use. */
  function Fill(m: int, saturation: int): (f: real)
    requires m > 0 && saturation > 0
    ensures 0.0 < f <= 1.0
  {
    Min(1.0, m as real / saturation as real)
  }

  function ComputeTime(flops: real, rate: real, m: int, saturation: int): real
    requires flops > 0.0 && rate > 0.0 && m > 0 && saturation > 0
  {
    assert rate * Fill(m, saturation) > 0.0;
    flops * m as real / (rate * Fill(m, saturation))
  }

  function Rate(peak: real, efficiency: real): (r: real)
    requires peak > 0.0 && efficiency > 0.0
    ensures r > 0.0
  {
    peak * efficiency
  }

  function KernelLatency(k: Kernel, m: int): real
    requires ValidKernel(k) && m > 0
  {
    match k
    case Measured(c) => Latency(c, m)
    case Analytic(flops, weight, peak, bandwidth, efficiency, saturation, overhead) =>
      overhead + Max(ComputeTime(flops, Rate(peak, efficiency), m, saturation), weight / bandwidth)
  }

  lemma Cancel(a: real, b: real, f: real)
    requires b > 0.0 && f > 0.0
    ensures b * f > 0.0 && (a * f) / (b * f) == a / b
  {
    var q := a / b;
    assert a == q * b;
    assert a * f == q * (b * f);
  }

  lemma PartFill(m: int, saturation: int)
    requires 0 < m < saturation
    ensures Fill(m, saturation) * saturation as real == m as real
  {
    assert m as real / saturation as real < 1.0;
  }

  lemma Reorder(x: real, y: real, z: real)
    ensures x * y * z == x * (z * y)
  {
  }

  lemma PartRate(flops: real, rate: real, m: int, saturation: int)
    requires flops > 0.0 && rate > 0.0 && 0 < m < saturation
    ensures ComputeTime(flops, rate, m, saturation) == flops * saturation as real / rate
  {
    var f := Fill(m, saturation);
    PartFill(m, saturation);
    Cancel(flops * saturation as real, rate, f);
    Reorder(flops, saturation as real, f);
  }

  lemma WholeRate(flops: real, rate: real, m: int, saturation: int)
    requires flops > 0.0 && rate > 0.0 && 0 < saturation <= m
    ensures ComputeTime(flops, rate, m, saturation) == flops * m as real / rate
  {
    assert m as real / saturation as real >= 1.0;
    assert Fill(m, saturation) == 1.0;
  }

  lemma RatioRises(flops: real, x: int, y: int, d: real)
    requires flops > 0.0 && 0 < x <= y && d > 0.0
    ensures 0.0 < flops * x as real / d <= flops * y as real / d
  {
    assert 0.0 < flops * x as real <= flops * y as real;
  }

  /** Below saturation a smaller batch saves nothing: the time is that of a
      batch at the saturation size. */
  lemma FullRate(flops: real, rate: real, m: int, saturation: int)
    requires flops > 0.0 && rate > 0.0 && m > 0 && saturation > 0
    ensures ComputeTime(flops, rate, m, saturation) == flops * (if m < saturation then saturation else m) as real / rate
  {
    if m < saturation { PartRate(flops, rate, m, saturation); } else { WholeRate(flops, rate, m, saturation); }
  }

  lemma ComputeRises(flops: real, rate: real, m: int, n: int, saturation: int)
    requires flops > 0.0 && rate > 0.0 && 0 < m <= n && saturation > 0
    ensures 0.0 < ComputeTime(flops, rate, m, saturation) <= ComputeTime(flops, rate, n, saturation)
  {
    var x, y := if m < saturation then saturation else m, if n < saturation then saturation else n;
    FullRate(flops, rate, m, saturation);
    FullRate(flops, rate, n, saturation);
    RatioRises(flops, x, y, rate);
  }

  /** Every kernel model takes positive time, and more for a larger batch. */
  lemma KernelRises(k: Kernel, m: int, n: int)
    requires ValidKernel(k) && 0 < m <= n
    ensures 0.0 < KernelLatency(k, m) <= KernelLatency(k, n)
  {
    match k
    case Measured(c) =>
      PredictionIsPositive(c, m);
      PredictionRises(c, m, n);
    case Analytic(flops, weight, peak, bandwidth, efficiency, saturation, overhead) =>
      ComputeRises(flops, Rate(peak, efficiency), m, n, saturation);
  }

  /** An analytic kernel takes its overhead and then the longer of computing, at
      least a batch of the saturation size, and loading the weights. */
  lemma AnalyticTakesLonger(k: Kernel, m: int)
    requires ValidKernel(k) && k.Analytic? && m > 0
    ensures var compute, load := k.flops * (if m < k.saturation then k.saturation else m) as real / (k.peak * k.efficiency), k.weight / k.bandwidth;
      && KernelLatency(k, m) >= k.overhead + compute && KernelLatency(k, m) >= k.overhead + load
      && (KernelLatency(k, m) == k.overhead + compute || KernelLatency(k, m) == k.overhead + load)
  {
    FullRate(k.flops, Rate(k.peak, k.efficiency), m, k.saturation);
  }

  datatype Prediction = Prediction(m: int, latency: real, extrapolated: bool)

  lemma ExtrapolatedIsOutside(c: Curve, m: int)
    requires ValidCurve(c) && m > 0
    ensures IsExtrapolated(c, m) <==> m < c[0].m || c[|c| - 1].m < m
  {
    var p := Position(c, m);
    if p < |c| && 0 < p { assert c[0].m < m; }
    if p == |c| { assert c[|c| - 1].m < m; }
    assert p < |c| ==> c[p].m <= c[|c| - 1].m;
  }

  /** `predict`: a positive time for every positive size, flagged when it is
      not within the measured range. */
  function Predict(k: Kernel, m: int): (r: Result<Prediction, KernelError>)
    requires ValidKernel(k)
    ensures r.Ok? <==> m > 0
    ensures r.Ok? ==> r.value.m == m && r.value.latency == KernelLatency(k, m) > 0.0
    ensures r.Ok? ==> (r.value.extrapolated <==> k.Analytic? || m < k.curve[0].m || k.curve[|k.curve| - 1].m < m)
  {
    if m <= 0 then Err(BadSize) else
    KernelRises(k, m, m);
    if k.Analytic? then Ok(Prediction(m, KernelLatency(k, m), true)) else
    ExtrapolatedIsOutside(k.curve, m);
    Ok(Prediction(m, KernelLatency(k, m), IsExtrapolated(k.curve, m)))
  }
}
