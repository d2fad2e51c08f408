/** Spending a budget one unit at a time where it helps most is optimal when
    each further unit helps less. */
module ConvexAllocation {
  import opened Basics
  import opened Sums

  type Expert = nat
  type Counts = map<Expert, nat>
  /** The cost of a number of copies of an expert. */
  type Cost = (Expert, nat) -> real

  // ----- totals -----

  ghost function Total(y: Counts): nat {
    if y == map[] then 0 else
    var k :| k in y;
    y[k] + Total(y - {k})
  }

  lemma {:induction false} TotalRemove(y: Counts, k: Expert)
    requires k in y
    ensures Total(y) == y[k] + Total(y - {k})
    decreases |y|
  {
    var j :| j in y && Total(y) == y[j] + Total(y - {j});
    if j != k {
      TotalRemove(y - {j}, k);
      TotalRemove(y - {k}, j);
      assert y - {j} - {k} == y - {k} - {j};
    }
  }

  lemma TotalUpdate(y: Counts, k: Expert, n: nat)
    requires k in y
    ensures Total(y[k := n]) == Total(y) - y[k] + n
  {
    TotalRemove(y, k);
    TotalRemove(y[k := n], k);
    assert y[k := n] - {k} == y - {k};
  }

  lemma TotalEmpty(y: Counts)
    requires y.Keys == {}
    ensures Total(y) == 0
  {
    assert y == map[];
  }

  lemma {:induction false} TotalConstant(y: Counts, n: nat)
    requires forall k | k in y.Keys :: y[k] == n
    ensures Total(y) == |y.Keys| * n
    decreases |y|
  {
    if y.Keys == {} {
      TotalEmpty(y);
    } else {
      var k := Member(y.Keys);
      TotalRemove(y, k);
      assert (y - {k}).Keys == y.Keys - {k};
      TotalConstant(y - {k}, n);
      OneTerm(|y.Keys|, n);
    }
  }

  lemma OneTerm(a: nat, n: nat)
    requires a > 0
    ensures a * n == (a - 1) * n + n
  {
  }

  lemma {:induction false} TotalBounded(y: Counts, n: nat)
    requires forall k | k in y.Keys :: y[k] <= n
    ensures Total(y) <= |y.Keys| * n
    decreases |y|
  {
    if y.Keys == {} {
      TotalEmpty(y);
    } else {
      var k := Member(y.Keys);
      var rest, size := y - {k}, |y.Keys|;
      TotalRemove(y, k);
      assert rest.Keys == y.Keys - {k};
      assert |rest.Keys| == size - 1;
      TotalBounded(rest, n);
      OneTerm(size, n);
    }
  }

  // ----- allocations -----

  predicate Uncapped(cap: Option<nat>, count: nat) {
    cap.Some? ==> count < cap.value
  }

  predicate CountOk(cap: Option<nat>, y: Counts, k: Expert) {
    k in y && 1 <= y[k] && (cap.Some? ==> y[k] <= cap.value)
  }

  ghost predicate CountsOk(S: set<Expert>, cap: Option<nat>, y: Counts) {
    y.Keys == S && forall k {:trigger CountOk(cap, y, k)} | k in S :: CountOk(cap, y, k)
  }

  /** y gives every expert of S at least one copy, at most the cap, and uses
      the whole budget. */
  ghost predicate IsAllocation(S: set<Expert>, cap: Option<nat>, total: nat, y: Counts) {
    CountsOk(S, cap, y) && Total(y) == total
  }

  function Costs(f: Cost, y: Counts): map<Expert, real> {
    map k | k in y.Keys :: f(k, y[k])
  }

  /** No allocation of the same budget costs less. */
  ghost predicate Optimal(S: set<Expert>, cap: Option<nat>, f: Cost, total: nat, x: Counts) {
    forall y {:trigger IsAllocation(S, cap, total, y)} | IsAllocation(S, cap, total, y) ::
      Sum(Costs(f, x)) <= Sum(Costs(f, y))
  }

  // ----- convexity -----

  /** What one more copy saves. */
  function Drop(f: Cost, k: Expert, c: nat): real {
    f(k, c) - f(k, c + 1)
  }

  predicate ConvexAt(f: Cost, k: Expert, c: nat) {
    Drop(f, k, c + 1) <= Drop(f, k, c)
  }

  ghost predicate Convex(S: set<Expert>, f: Cost) {
    forall k, c: nat {:trigger ConvexAt(f, k, c)} | k in S && c > 0 :: ConvexAt(f, k, c)
  }

  lemma {:induction false} DropsFall(S: set<Expert>, f: Cost, k: Expert, x: nat, y: nat)
    requires Convex(S, f) && k in S && 0 < x <= y
    ensures Drop(f, k, y) <= Drop(f, k, x)
    decreases y
  {
    if y > x {
      DropsFall(S, f, k, x, y - 1);
      assert ConvexAt(f, k, y - 1);
    }
  }

  /** d times level. */
  function Steps(level: real, d: int): real
    decreases if d < 0 then -d else d
  {
    if d == 0 then 0.0 else if d > 0 then Steps(level, d - 1) + level else Steps(level, d + 1) - level
  }

  lemma {:induction false} StepsAdd(level: real, a: int, b: int)
    ensures Steps(level, a + b) == Steps(level, a) + Steps(level, b)
    decreases if a < 0 then -a else a
  {
    if a > 0 {
      StepsAdd(level, a - 1, b);
      OneStep(level, a - 1 + b);
    } else if a < 0 {
      StepsAdd(level, a + 1, b);
      OneStep(level, a + b);
    }
  }

  lemma OneStep(level: real, d: int)
    ensures Steps(level, d + 1) == Steps(level, d) + level
  {
  }

  /** A convex cost lies above its tangent. */
  lemma {:induction false} Tangent(S: set<Expert>, f: Cost, k: Expert, x: nat, y: nat, level: real)
    requires Convex(S, f) && k in S && x > 0 && y > 0
    requires x > 1 ==> level <= Drop(f, k, x - 1)
    requires x < y ==> Drop(f, k, x) <= level
    ensures f(k, x) - f(k, y) <= Steps(level, y as int - x)
    decreases if y > x then y - x else x - y
  {
    if y > x {
      DropsFall(S, f, k, x, y - 1);
      Tangent(S, f, k, x, y - 1, level);
    } else if y < x {
      DropsFall(S, f, k, y, x - 1);
      Tangent(S, f, k, x, y + 1, level);
    }
  }

  // ----- a threshold makes an allocation optimal -----

  /** The copies of k were worth at least level, a further one at most. */
  predicate AtLevel(cap: Option<nat>, f: Cost, y: Counts, level: real, k: Expert) {
    && k in y && (y[k] > 1 ==> level <= Drop(f, k, y[k] - 1))
    && (Uncapped(cap, y[k]) ==> Drop(f, k, y[k]) <= level)
  }

  ghost predicate Levelled(S: set<Expert>, cap: Option<nat>, f: Cost, y: Counts, level: real) {
    forall k {:trigger AtLevel(cap, f, y, level, k)} | k in S :: AtLevel(cap, f, y, level, k)
  }

  predicate GapAt(a: map<Expert, real>, b: map<Expert, real>, x: Counts, y: Counts, level: real, k: Expert) {
    k in a && k in b && k in x && k in y && a[k] - b[k] <= Steps(level, y[k] as int - x[k])
  }

  lemma {:induction false} SumGap(S: set<Expert>, a: map<Expert, real>, b: map<Expert, real>, x: Counts, y: Counts, level: real)
    requires S == a.Keys == b.Keys == x.Keys == y.Keys
    requires forall k {:trigger GapAt(a, b, x, y, level, k)} | k in S :: GapAt(a, b, x, y, level, k)
    ensures Sum(a) - Sum(b) <= Steps(level, Total(y) as int - Total(x))
    decreases S
  {
    if S == {} {
      SumEmpty(a); SumEmpty(b); TotalEmpty(x); TotalEmpty(y);
    } else {
      var k := Member(S);
      forall j | j in S - {k}
        ensures GapAt(a - {k}, b - {k}, x - {k}, y - {k}, level, j)
      {
        assert GapAt(a, b, x, y, level, j);
      }
      SumGap(S - {k}, a - {k}, b - {k}, x - {k}, y - {k}, level);
      SumRemove(a, k); SumRemove(b, k); TotalRemove(x, k); TotalRemove(y, k);
      assert GapAt(a, b, x, y, level, k);
      StepsAdd(level, Total(y - {k}) as int - Total(x - {k}), y[k] as int - x[k]);
    }
  }

  lemma LevelledIsOptimal(S: set<Expert>, cap: Option<nat>, f: Cost, total: nat, x: Counts, level: real)
    requires Convex(S, f) && IsAllocation(S, cap, total, x) && Levelled(S, cap, f, x, level)
    ensures Optimal(S, cap, f, total, x)
  {
    forall y | IsAllocation(S, cap, total, y)
      ensures Sum(Costs(f, x)) <= Sum(Costs(f, y))
    {
      forall k | k in S
        ensures GapAt(Costs(f, x), Costs(f, y), x, y, level, k)
      {
        assert AtLevel(cap, f, x, level, k) && CountOk(cap, x, k) && CountOk(cap, y, k);
        Tangent(S, f, k, x[k], y[k], level);
      }
      SumGap(S, Costs(f, x), Costs(f, y), x, y, level);
    }
  }

  // ----- spending the budget -----

  /** One copy more for the expert it helps most keeps the threshold. */
  lemma GrantKeepsLevel(S: set<Expert>, cap: Option<nat>, f: Cost, y: Counts, level: real, k: Expert)
    requires Convex(S, f) && CountsOk(S, cap, y) && Levelled(S, cap, f, y, level)
    requires k in S && Uncapped(cap, y[k])
    requires forall j | j in S && Uncapped(cap, y[j]) :: Drop(f, j, y[j]) <= Drop(f, k, y[k])
    ensures Levelled(S, cap, f, y[k := y[k] + 1], Drop(f, k, y[k]))
    ensures CountsOk(S, cap, y[k := y[k] + 1]) && Total(y[k := y[k] + 1]) == Total(y) + 1
  {
    var y', level' := y[k := y[k] + 1], Drop(f, k, y[k]);
    TotalUpdate(y, k, y[k] + 1);
    assert CountOk(cap, y, k) && AtLevel(cap, f, y, level, k);
    assert ConvexAt(f, k, y[k]);
    forall j | j in S
      ensures AtLevel(cap, f, y', level', j) && CountOk(cap, y', j)
    {
      assert AtLevel(cap, f, y, level, j) && CountOk(cap, y, j);
    }
  }

  /** Once every expert is at the cap, the cap alone limits the budget. */
  lemma AllCapped(S: set<Expert>, cap: nat, y: Counts)
    requires CountsOk(S, Some(cap), y) && forall k | k in S :: y[k] >= cap
    ensures Total(y) == |S| * cap
  {
    forall k | k in y.Keys
      ensures y[k] == cap
    {
      assert CountOk(Some(cap), y, k);
    }
    TotalConstant(y, cap);
  }

  lemma AllocationFits(S: set<Expert>, cap: nat, total: nat, y: Counts)
    requires IsAllocation(S, Some(cap), total, y)
    ensures total <= |S| * cap
  {
    forall k | k in y.Keys
      ensures y[k] <= cap
    {
      assert CountOk(Some(cap), y, k);
    }
    TotalBounded(y, cap);
  }
}
