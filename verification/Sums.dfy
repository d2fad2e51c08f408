/** Finite sums over map values, and keys with the least value. */
module Sums {

  ghost function Sum<K>(m: map<K, real>): real {
    if m == map[] then 0.0 else
    var k :| k in m;
    m[k] + Sum(m - {k})
  }

  lemma SumEmpty<K>(m: map<K, real>)
    requires m.Keys == {}
    ensures Sum(m) == 0.0
  {
    assert m == map[];
  }

  /** Any key can be taken out first. */
  lemma {:induction false} SumRemove<K>(m: map<K, real>, k: K)
    requires k in m
    ensures Sum(m) == m[k] + Sum(m - {k})
    decreases |m|
  {
    var j :| j in m && Sum(m) == m[j] + Sum(m - {j});
    if j != k {
      SumRemove(m - {j}, k);
      SumRemove(m - {k}, j);
      assert m - {j} - {k} == m - {k} - {j};
    }
  }

  lemma SumAdd<K>(m: map<K, real>, k: K, v: real)
    requires k !in m
    ensures Sum(m[k := v]) == Sum(m) + v
  {
    SumRemove(m[k := v], k);
    assert m[k := v] - {k} == m;
  }

  lemma SumUpdate<K>(m: map<K, real>, k: K, v: real)
    requires k in m
    ensures Sum(m[k := v]) == Sum(m) - m[k] + v
  {
    SumRemove(m, k);
    SumRemove(m[k := v], k);
    assert m[k := v] - {k} == m - {k};
  }

  /** The sum over two disjoint parts of c. */
  lemma {:induction false} SumUnion<K>(a: map<K, real>, b: map<K, real>, c: map<K, real>)
    requires c.Keys == a.Keys + b.Keys && a.Keys !! b.Keys
    requires forall k | k in a.Keys :: c[k] == a[k]
    requires forall k | k in b.Keys :: c[k] == b[k]
    ensures Sum(c) == Sum(a) + Sum(b)
    decreases a.Keys
  {
    if a.Keys == {} {
      SumEmpty(a);
      assert c == b;
    } else {
      var k :| k in a.Keys;
      var rest := a.Keys - {k};
      var a' := map j | j in rest :: a[j];
      var c' := map j | j in rest + b.Keys :: c[j];
      SumUnion(a', b, c');
      SumAdd(a', k, a[k]);
      SumAdd(c', k, a[k]);
      assert a'[k := a[k]] == a;
      assert c'[k := a[k]] == c;
    }
  }

  lemma {:induction false} SumMonotone<K>(a: map<K, real>, b: map<K, real>)
    requires a.Keys == b.Keys
    requires forall k | k in a.Keys :: a[k] <= b[k]
    ensures Sum(a) <= Sum(b)
    decreases |a|
  {
    if a != map[] {
      var k :| k in a;
      SumRemove(a, k);
      SumRemove(b, k);
      SumMonotone(a - {k}, b - {k});
    }
  }

  lemma {:induction false} SumPointwise<K>(a: map<K, real>, b: map<K, real>, c: map<K, real>)
    requires a.Keys == b.Keys == c.Keys
    requires forall k | k in a.Keys :: c[k] == a[k] + b[k]
    ensures Sum(c) == Sum(a) + Sum(b)
    decreases |a|
  {
    if a != map[] {
      var k :| k in a;
      SumRemove(a, k);
      SumRemove(b, k);
      SumRemove(c, k);
      SumPointwise(a - {k}, b - {k}, c - {k});
    }
  }

  /** n times d. */
  function Repeated(n: nat, d: real): real {
    if n == 0 then 0.0 else Repeated(n - 1, d) + d
  }

  lemma {:induction false} RepeatedIsProduct(n: nat, d: real)
    ensures Repeated(n, d) == d * n as real
  {
    if n > 0 {
      RepeatedIsProduct(n - 1, d);
      assert d * (n - 1) as real + d == d * n as real;
    }
  }

  lemma {:induction false} RepeatedMonotone(n: nat, d: real, e: real)
    requires n > 0
    ensures Repeated(n, d) <= Repeated(n, e) <==> d <= e
  {
    if n > 1 { RepeatedMonotone(n - 1, d, e); }
  }

  lemma {:induction false} RepeatedSign(n: nat, d: real)
    requires n > 0
    ensures d < 0.0 ==> Repeated(n, d) < 0.0
    ensures d > 0.0 ==> Repeated(n, d) > 0.0
  {
    if n > 1 { RepeatedSign(n - 1, d); }
  }

  ghost predicate AllEqual<K>(m: map<K, real>, d: real) {
    forall k | k in m.Keys :: m[k] == d
  }

  lemma {:induction false} SumRepeated<K>(s: set<K>, m: map<K, real>, d: real)
    requires s == m.Keys
    requires AllEqual(m, d)
    ensures Sum(m) == Repeated(|s|, d)
    decreases s
  {
    if s == {} {
      SumEmpty(m);
    } else {
      var k :| k in s;
      SumRemove(m, k);
      assert (m - {k}).Keys == s - {k};
      SumRepeated(s - {k}, m - {k}, d);
      assert |s| == |s - {k}| + 1;
    }
  }

  lemma SumConstant<K>(s: set<K>, m: map<K, real>, d: real)
    requires s == m.Keys
    requires AllEqual(m, d)
    ensures Sum(m) == d * |s| as real
  {
    SumRepeated(s, m, d);
    RepeatedIsProduct(|s|, d);
  }

  lemma SumZero<K>(m: map<K, real>)
    requires AllEqual(m, 0.0)
    ensures Sum(m) == 0.0
  {
    SumConstant(m.Keys, m, 0.0);
  }

  lemma {:induction false} SumNonNegative<K>(m: map<K, real>)
    requires forall k | k in m.Keys :: m[k] >= 0.0
    ensures Sum(m) >= 0.0
    decreases |m|
  {
    if m != map[] {
      var k :| k in m;
      SumRemove(m, k);
      SumNonNegative(m - {k});
    }
  }

  /** A sum of non-negative terms bounds each of them. */
  lemma SumBoundsTerm<K>(m: map<K, real>, k: K)
    requires forall j | j in m.Keys :: m[j] >= 0.0
    requires k in m
    ensures m[k] <= Sum(m)
  {
    SumRemove(m, k);
    SumNonNegative(m - {k});
  }

  lemma Member<T>(s: set<T>) returns (x: T)
    requires s != {}
    ensures x in s
  {
    x :| x in s;
  }

  lemma {:induction false} LeastKey<K>(s: set<K>, m: map<K, real>) returns (x: K)
    requires s != {} && s <= m.Keys
    ensures x in s && forall y | y in s :: m[x] <= m[y]
    decreases s
  {
    x := Member(s);
    var rest := s - {x};
    assert s == rest + {x};
    if rest != {} {
      var y := LeastKey(rest, m);
      if m[y] < m[x] { x := y; }
    }
  }
}
