/** Step-aware load balancing: how many copies each expert gets. */
module Eplb {
  import opened Basics
  import opened Sums
  import opened ConvexAllocation

  type Weights = map<Expert, real>
  /** Assignments per expert in one step of one layer. */
  type Bin = map<Expert, nat>

  // ----- observed loads -----

  function BinLoad(bin: Bin, k: Expert): nat {
    if k in bin then bin[k] else 0
  }

  function TotalLoad(bins: seq<Bin>, k: Expert): nat {
    if bins == [] then 0 else TotalLoad(bins[..|bins| - 1], k) + BinLoad(bins[|bins| - 1], k)
  }

  function PeakLoad(bins: seq<Bin>, k: Expert): nat {
    if bins == [] then 0 else
    var peak := PeakLoad(bins[..|bins| - 1], k);
    if BinLoad(bins[|bins| - 1], k) > peak then BinLoad(bins[|bins| - 1], k) else peak
  }

  /** The peak is the load of the busiest step. */
  lemma {:induction false} PeakIsGreatest(bins: seq<Bin>, k: Expert)
    ensures forall i | 0 <= i < |bins| :: BinLoad(bins[i], k) <= PeakLoad(bins, k)
    ensures PeakLoad(bins, k) > 0 ==> exists i :: 0 <= i < |bins| && BinLoad(bins[i], k) == PeakLoad(bins, k)
    ensures PeakLoad(bins, k) <= TotalLoad(bins, k)
    ensures PeakLoad(bins, k) == 0 ==> TotalLoad(bins, k) == 0
  {
    if bins != [] {
      var rest, last := bins[..|bins| - 1], |bins| - 1;
      PeakIsGreatest(rest, k);
      assert forall i | 0 <= i < last :: bins[i] == rest[i];
      assert BinLoad(bins[last], k) <= PeakLoad(bins, k);
    }
  }

  /** sums[i] is the load of the first i steps. */
  lemma {:induction false} TotalIsSum(bins: seq<Bin>, k: Expert, sums: seq<nat>)
    requires |sums| == |bins| + 1 && sums[0] == 0
    requires forall i | 0 <= i < |bins| :: sums[i + 1] == sums[i] + if k in bins[i] then bins[i][k] else 0
    ensures TotalLoad(bins, k) == sums[|bins|]
  {
    if bins != [] {
      TotalIsSum(bins[..|bins| - 1], k, sums[..|bins|]);
    }
  }

  method Loads(bins: seq<Bin>, experts: set<Expert>) returns (total: map<Expert, nat>, peak: map<Expert, nat>)
    ensures total.Keys == experts == peak.Keys
    ensures forall k | k in experts :: total[k] == TotalLoad(bins, k) && peak[k] == PeakLoad(bins, k)
  {
    total, peak := map k | k in experts :: 0, map k | k in experts :: 0;
    var i := 0;
    while i < |bins|
      invariant 0 <= i <= |bins| && total.Keys == experts == peak.Keys
      invariant forall k | k in experts :: total[k] == TotalLoad(bins[..i], k) && peak[k] == PeakLoad(bins[..i], k)
    {
      var bin := bins[i];
      assert bins[..i + 1][..i] == bins[..i];
      total := map k | k in experts :: total[k] + BinLoad(bin, k);
      peak := map k | k in experts :: if BinLoad(bin, k) > peak[k] then BinLoad(bin, k) else peak[k];
      i := i + 1;
    }
    assert bins[..i] == bins;
  }

  // ----- load per copy -----

  predicate IsCount(count: nat, p: real) {
    p == count as real && p > 0.0
  }

  ghost predicate IsShare(load: real, count: nat, x: real) {
    forall p {:trigger IsCount(count, p)} | IsCount(count, p) :: x * p == load
  }

  lemma ShareExists(load: real, count: nat)
    ensures exists x :: IsShare(load, count, x)
  {
    var x := if count == 0 then 0.0 else load / count as real;
    assert IsShare(load, count, x);
  }

  /** load / count. */
  ghost function Share(load: real, count: nat): (x: real)
    ensures IsShare(load, count, x)
  {
    ShareExists(load, count);
    var x :| IsShare(load, count, x);
    x
  }

  predicate IsPair(count: nat, p: real) {
    p == (count * (count + 1)) as real && p > 0.0
  }

  ghost predicate IsGain(load: real, count: nat, x: real) {
    forall p {:trigger IsPair(count, p)} | IsPair(count, p) :: x * p == load
  }

  lemma GainExists(load: real, count: nat)
    ensures exists x :: IsGain(load, count, x)
  {
    var x := if count == 0 then 0.0 else load / (count * (count + 1)) as real;
    assert IsGain(load, count, x);
  }

  /** load / (count * (count + 1)). */
  ghost function Gain(load: real, count: nat): (x: real)
    ensures IsGain(load, count, x)
  {
    GainExists(load, count);
    var x :| IsGain(load, count, x);
    x
  }

  method NextGain(load: real, count: nat) returns (x: real)
    requires count > 0
    ensures x == Gain(load, count)
  {
    x := load / (count * (count + 1)) as real;
    ghost var p := (count * (count + 1)) as real;
    assert IsPair(count, p);
    SameQuotient(x, Gain(load, count), p, load);
  }

  lemma SameQuotient(x: real, y: real, p: real, load: real)
    requires p > 0.0 && x * p == load && y * p == load
    ensures x == y
  {
    assert (x - y) * p == 0.0;
  }

  /** The priority of the next copy is the drop in load per copy. */
  lemma GainIsDrop(load: real, count: nat)
    requires count > 0
    ensures Share(load, count) - Share(load, count + 1) == Gain(load, count)
  {
    var c := count as real;
    var p := (count * (count + 1)) as real;
    assert IsCount(count, c) && IsCount(count + 1, c + 1.0);
    assert p == c * (c + 1.0) && IsPair(count, p);
    Fractions(load, c, p, Share(load, count), Share(load, count + 1), Gain(load, count));
  }

  lemma Fractions(load: real, c: real, p: real, x: real, y: real, g: real)
    requires c > 0.0 && p == c * (c + 1.0) && x * c == load && y * (c + 1.0) == load && g * p == load
    ensures x - y == g
  {
    assert x * p == (x * c) * (c + 1.0);
    assert y * p == (y * (c + 1.0)) * c;
    assert (x - y) * p == load * (c + 1.0) - load * c;
    SameQuotient(x - y, g, p, load);
  }

  lemma GainShrinks(load: real, count: nat)
    requires load >= 0.0 && count > 0
    ensures Gain(load, count + 1) <= Gain(load, count)
  {
    var p, q := (count * (count + 1)) as real, ((count + 1) * (count + 2)) as real;
    assert 0 < count * (count + 1) < (count + 1) * (count + 2);
    assert IsPair(count, p) && IsPair(count + 1, q);
    SmallerQuotient(load, p, q, Gain(load, count), Gain(load, count + 1));
  }

  lemma SmallerQuotient(load: real, p: real, q: real, x: real, y: real)
    requires load >= 0.0 && 0.0 < p < q && x * p == load && y * q == load
    ensures y <= x
  {
    assert y >= 0.0;
    assert y * p <= y * q;
    assert (x - y) * p >= 0.0;
  }

  /** The peak load divided over the copies. */
  ghost function PeakCost(w: Weights): Cost {
    (k: Expert, c: nat) => if k in w then Share(w[k], c) else 0.0
  }

  lemma PeakDrop(w: Weights, k: Expert, c: nat)
    requires k in w && c > 0
    ensures Drop(PeakCost(w), k, c) == Gain(w[k], c)
  {
    GainIsDrop(w[k], c);
  }

  lemma PeakIsConvex(w: Weights)
    requires forall k | k in w.Keys :: w[k] >= 0.0
    ensures Convex(w.Keys, PeakCost(w))
  {
    forall k, c: nat | k in w.Keys && c > 0
      ensures ConvexAt(PeakCost(w), k, c)
    {
      PeakDrop(w, k, c);
      PeakDrop(w, k, c + 1);
      GainShrinks(w[k], c);
    }
  }

  // ----- which experts are covered -----

  /** By total load, then peak load, both falling; ties by expert. */
  predicate Ahead(total: map<Expert, nat>, peak: map<Expert, nat>, a: Expert, b: Expert)
    requires a in total && b in total && a in peak && b in peak
  {
    || total[a] > total[b]
    || (total[a] == total[b] && peak[a] > peak[b])
    || (total[a] == total[b] && peak[a] == peak[b] && a <= b)
  }

  lemma {:induction false} HeadExists(total: map<Expert, nat>, peak: map<Expert, nat>, s: set<Expert>) returns (x: Expert)
    requires s != {} && s <= total.Keys && s <= peak.Keys
    ensures x in s && forall y | y in s :: Ahead(total, peak, x, y)
    decreases s
  {
    x :| x in s;
    var rest := s - {x};
    assert s == rest + {x};
    if rest != {} {
      var y := HeadExists(total, peak, rest);
      if !Ahead(total, peak, x, y) { x := y; }
    }
  }

  lemma HasHead(total: map<Expert, nat>, peak: map<Expert, nat>, s: set<Expert>)
    requires s != {} && s <= total.Keys && s <= peak.Keys
    ensures exists x :: x in s && forall y | y in s :: Ahead(total, peak, x, y)
  {
    var x := HeadExists(total, peak, s);
  }

  function Ranked(total: map<Expert, nat>, peak: map<Expert, nat>, s: set<Expert>): (r: seq<Expert>)
    requires s <= total.Keys && s <= peak.Keys
    ensures |r| == |s| && (forall x :: x in r <==> x in s)
    ensures forall i, j | 0 <= i < j < |r| :: r[i] != r[j] && Ahead(total, peak, r[i], r[j])
    decreases s
  {
    if s == {} then [] else
    HasHead(total, peak, s);
    var x :| x in s && forall y | y in s :: Ahead(total, peak, x, y);
    assert |s - {x}| == |s| - 1;
    [x] + Ranked(total, peak, s - {x})
  }

  function Least3(a: int, b: int, c: int): int {
    var m := if a < b then a else b;
    if m < c then m else c
  }

  /** The part of the budget that goes to distinct experts. */
  function Coverage(experts: nat, budget: nat, redundancy: real): (n: nat)
    requires experts > 0 && budget > 0 && 0.0 <= redundancy < 1.0
    ensures 1 <= n <= experts && n <= budget
    ensures n > 1 ==> n as real <= budget as real * (1.0 - redundancy)
    ensures n < experts && n < budget ==> budget as real * (1.0 - redundancy) < (n + 1) as real
  {
    var share := (budget as real * (1.0 - redundancy)).Floor;
    Least3(experts, if share > 1 then share else 1, budget)
  }

  /** The experts that get copies: as many of the most loaded as covered; of
      equal loads the higher peak comes first, and then the smaller id. */
  predicate IsCovered(bins: seq<Bin>, experts: set<Expert>, count: nat, s: set<Expert>) {
    && s <= experts && |s| == count
    && forall a, b | a in s && b in experts - s ::
         TotalLoad(bins, a) >= TotalLoad(bins, b) && (TotalLoad(bins, a) == TotalLoad(bins, b) ==>
           PeakLoad(bins, a) >= PeakLoad(bins, b) && (PeakLoad(bins, a) == PeakLoad(bins, b) ==> a < b))
  }

  function PrefixSet(q: seq<nat>, n: nat): set<nat>
    requires n <= |q|
  {
    set i | 0 <= i < n :: q[i]
  }

  lemma {:induction false} PrefixSize(q: seq<nat>, n: nat)
    requires n <= |q| && forall i, j | 0 <= i < j < |q| :: q[i] != q[j]
    ensures |PrefixSet(q, n)| == n
  {
    if n > 0 {
      PrefixSize(q, n - 1);
      assert PrefixSet(q, n) == PrefixSet(q, n - 1) + {q[n - 1]};
    }
  }

  lemma CoveredByRank(bins: seq<Bin>, experts: set<Expert>, total: map<Expert, nat>, peak: map<Expert, nat>, n: nat)
    requires total.Keys == experts == peak.Keys && n <= |experts|
    requires forall k | k in experts :: total[k] == TotalLoad(bins, k) && peak[k] == PeakLoad(bins, k)
    ensures IsCovered(bins, experts, n, PrefixSet(Ranked(total, peak, experts), n))
  {
    var q := Ranked(total, peak, experts);
    var s := PrefixSet(q, n);
    PrefixSize(q, n);
    forall x | x in s
      ensures x in experts
    {
      var i :| 0 <= i < n && q[i] == x;
      assert q[i] in q;
    }
    forall a, b | a in s && b in experts - s
      ensures TotalLoad(bins, a) >= TotalLoad(bins, b) && (TotalLoad(bins, a) == TotalLoad(bins, b) ==>
        PeakLoad(bins, a) >= PeakLoad(bins, b) && (PeakLoad(bins, a) == PeakLoad(bins, b) ==> a < b))
    {
      var i :| 0 <= i < n && q[i] == a;
      assert b in q;
      var j :| 0 <= j < |q| && q[j] == b;
      assert j >= n;
      assert Ahead(total, peak, q[i], q[j]);
    }
  }

  // ----- spending the budget -----

  ghost predicate Offered(w: Weights, y: Counts, queue: set<Key>, k: Expert)
    requires k in w && k in y
  {
    Key(-Gain(w[k], y[k]), k) in queue
  }

  predicate Known(w: Weights, y: Counts, id: nat) {
    id in w && id in y && y[id] > 0
  }

  ghost predicate EntryOk(w: Weights, y: Counts, e: Key) {
    Known(w, y, e.id) && e.time == -Gain(w[e.id], y[e.id])
  }

  /** The heap offers the next copy of every expert below the cap. */
  ghost predicate QueueMatches(cap: Option<nat>, w: Weights, y: Counts, queue: set<Key>) {
    && (forall e {:trigger EntryOk(w, y, e)} | e in queue :: EntryOk(w, y, e))
    && forall k {:trigger Offered(w, y, queue, k)} | k in w.Keys && k in y.Keys && Uncapped(cap, y[k]) :: Offered(w, y, queue, k)
  }

  /** Every entry of the heap helps at most as much as the first. */
  lemma FirstHelpsMost(cap: Option<nat>, w: Weights, y: Counts, queue: set<Key>, e: Key)
    requires w.Keys == y.Keys && QueueMatches(cap, w, y, queue) && CountsOk(w.Keys, cap, y)
    requires e in queue && forall j | j in queue :: NotAfter(e, j)
    ensures Known(w, y, e.id)
    ensures forall j | j in w.Keys && Uncapped(cap, y[j]) :: Drop(PeakCost(w), j, y[j]) <= Drop(PeakCost(w), e.id, y[e.id])
  {
    assert EntryOk(w, y, e);
    PeakDrop(w, e.id, y[e.id]);
    forall j | j in w.Keys && Uncapped(cap, y[j])
      ensures Drop(PeakCost(w), j, y[j]) <= Drop(PeakCost(w), e.id, y[e.id])
    {
      assert Offered(w, y, queue, j) && CountOk(cap, y, j);
      PeakDrop(w, j, y[j]);
    }
  }

  lemma GrantKeepsQueue(cap: Option<nat>, w: Weights, y: Counts, queue: set<Key>, e: Key)
    requires w.Keys == y.Keys && QueueMatches(cap, w, y, queue) && e in queue
    ensures Known(w, y, e.id)
    ensures var y' := y[e.id := y[e.id] + 1];
      QueueMatches(cap, w, y', queue - {e} + {Key(-Gain(w[e.id], y'[e.id]), e.id)})
  {
    assert EntryOk(w, y, e);
    var y' := y[e.id := y[e.id] + 1];
    var queue' := queue - {e} + {Key(-Gain(w[e.id], y'[e.id]), e.id)};
    forall d | d in queue'
      ensures EntryOk(w, y', d)
    {
      if d in queue {
        assert EntryOk(w, y, d);
        assert e == Key(e.time, e.id) && d == Key(d.time, d.id);
      }
    }
    forall k | k in w.Keys && k in y'.Keys && Uncapped(cap, y'[k])
      ensures Offered(w, y', queue', k)
    {
      if k != e.id { assert Offered(w, y, queue, k); }
    }
  }

  lemma DropKeepsQueue(cap: Option<nat>, w: Weights, y: Counts, queue: set<Key>, e: Key)
    requires w.Keys == y.Keys && QueueMatches(cap, w, y, queue) && e in queue && e.id in y && !Uncapped(cap, y[e.id])
    ensures QueueMatches(cap, w, y, queue - {e})
  {
    forall d | d in queue - {e}
      ensures EntryOk(w, y, d)
    {
      assert EntryOk(w, y, d);
    }
    forall k | k in w.Keys && k in y.Keys && Uncapped(cap, y[k])
      ensures Offered(w, y, queue - {e}, k)
    {
      assert Offered(w, y, queue, k);
    }
  }

  lemma OnesAreLevelled(cap: Option<nat>, w: Weights, y: Counts) returns (level: real)
    requires w.Keys == y.Keys && w.Keys != {} && forall k | k in y.Keys :: y[k] == 1
    requires cap.Some? ==> cap.value >= 1
    ensures Levelled(w.Keys, cap, PeakCost(w), y, level) && CountsOk(w.Keys, cap, y) && Total(y) == |w.Keys|
  {
    var falls := map k | k in w.Keys :: -Drop(PeakCost(w), k, 1);
    var k := LeastKey(w.Keys, falls);
    level := Drop(PeakCost(w), k, 1);
    TotalConstant(y, 1);
    forall j | j in w.Keys
      ensures AtLevel(cap, PeakCost(w), y, level, j) && CountOk(cap, y, j)
    {
      assert falls[k] <= falls[j];
    }
  }

  method Offers(w: Weights, y: Counts) returns (queue: set<Key>)
    requires w.Keys == y.Keys && forall k | k in y.Keys :: y[k] == 1
    ensures QueueMatches(None, w, y, queue)
  {
    queue := {};
    var todo := w.Keys;
    while todo != {}
      invariant todo <= w.Keys
      invariant forall e {:trigger EntryOk(w, y, e)} | e in queue :: EntryOk(w, y, e)
      invariant forall k {:trigger Offered(w, y, queue, k)} | k in w.Keys - todo :: Offered(w, y, queue, k)
      decreases todo
    {
      var k :| k in todo;
      var gain := NextGain(w[k], y[k]);
      ghost var before := queue;
      queue := queue + {Key(-gain, k)};
      assert EntryOk(w, y, Key(-gain, k));
      forall j | j in w.Keys - (todo - {k})
        ensures Offered(w, y, queue, j)
      {
        if j != k { assert Offered(w, y, before, j); }
      }
      todo := todo - {k};
    }
  }

  ghost predicate SpendingFacts(cap: Option<nat>, w: Weights, y: Counts, queue: set<Key>, level: real) {
    CountsOk(w.Keys, cap, y) && QueueMatches(cap, w, y, queue) && Levelled(w.Keys, cap, PeakCost(w), y, level)
  }

  /** The state of the greedy loop. */
  ghost predicate Spending(cap: Option<nat>, w: Weights, y: Counts, queue: set<Key>, level: real) {
    forall q {:trigger SpendingFacts(cap, w, y, q, level)} | q == queue :: SpendingFacts(cap, w, y, q, level)
  }

  lemma FirstIsKnown(cap: Option<nat>, w: Weights, y: Counts, queue: set<Key>, level: real, e: Key)
    requires Spending(cap, w, y, queue, level) && e in queue
    ensures Known(w, y, e.id)
  {
    assert SpendingFacts(cap, w, y, queue, level);
    assert EntryOk(w, y, e);
  }

  lemma Dropped(cap: Option<nat>, w: Weights, y: Counts, queue: set<Key>, level: real, e: Key)
    requires Spending(cap, w, y, queue, level) && e in queue && e.id in y && !Uncapped(cap, y[e.id])
    ensures Spending(cap, w, y, queue - {e}, level)
  {
    assert SpendingFacts(cap, w, y, queue, level);
    DropKeepsQueue(cap, w, y, queue, e);
  }

  /** The copies given so far. */
  ghost predicate Spent(y: Counts, n: int) {
    forall z {:trigger Total(z)} | z == y :: Total(z) == n
  }

  // ----- whose turn it was -----

  /** The last copy of i came before the next of j would. */
  predicate LastBeforeNext(w: Weights, y: Counts, i: Expert, j: Expert)
    requires i in w && j in w && i in y && j in y && y[i] > 0
  {
    FellMore(w[i], y[i], i, w[j], y[j], j)
  }

  /** Copy m of i lowered its load a per copy by more than one copy more than n
      of j would lower its load b, or by as much and i is the smaller. */
  predicate FellMore(a: real, m: nat, i: Expert, b: real, n: nat, j: Expert)
    requires m > 0
  {
    var p, q := (m * (m - 1)) as real, (n * (n + 1)) as real;
    a * q > b * p || (a * q == b * p && i <= j)
  }

  /** Every copy beyond the first was given in its turn. */
  ghost predicate InTurn(cap: Option<nat>, w: Weights, y: Counts)
    requires w.Keys == y.Keys
  {
    forall i, j {:trigger LastBeforeNext(w, y, i, j)} | i in w.Keys && j in w.Keys && y[i] > 1 && Uncapped(cap, y[j]) ::
      LastBeforeNext(w, y, i, j)
  }

  lemma CrossProducts(x: real, y: real, p: real, q: real, a: real, b: real)
    requires p > 0.0 && q > 0.0 && x * p == a && y * q == b
    ensures x > y <==> a * q > b * p
    ensures x == y <==> a * q == b * p
  {
    var z := p * q;
    assert z > 0.0;
    assert a * q == x * z;
    assert b * p == y * z;
    if x > y { assert (x - y) * z > 0.0; }
    if x < y { assert (y - x) * z > 0.0; }
  }

  lemma TurnIsKeyOrder(w: Weights, y: Counts, i: Expert, j: Expert)
    requires i in w && j in w && i in y && j in y && y[i] > 1 && y[j] > 0
    ensures LastBeforeNext(w, y, i, j) <==>
      (i == j && Gain(w[i], y[i] - 1) == Gain(w[j], y[j])) || Before(Key(-Gain(w[i], y[i] - 1), i), Key(-Gain(w[j], y[j]), j))
  {
    var p, q := (y[i] * (y[i] - 1)) as real, (y[j] * (y[j] + 1)) as real;
    assert y[i] * (y[i] - 1) > 0 && y[j] * (y[j] + 1) > 0;
    assert (y[i] - 1) * (y[i] - 1 + 1) == y[i] * (y[i] - 1);
    assert IsPair(y[i] - 1, p) && IsPair(y[j], q);
    CrossProducts(Gain(w[i], y[i] - 1), Gain(w[j], y[j]), p, q, w[i], w[j]);
  }

  lemma GrantKeepsTurn(cap: Option<nat>, w: Weights, y: Counts, queue: set<Key>, e: Key)
    requires w.Keys == y.Keys && QueueMatches(cap, w, y, queue) && CountsOk(w.Keys, cap, y) && InTurn(cap, w, y)
    requires e in queue && (forall j | j in queue :: NotAfter(e, j)) && forall k | k in w.Keys :: w[k] >= 0.0
    ensures Known(w, y, e.id) && InTurn(cap, w, y[e.id := y[e.id] + 1])
  {
    assert EntryOk(w, y, e);
    var y' := y[e.id := y[e.id] + 1];
    GainShrinks(w[e.id], y[e.id]);
    forall i, j | i in w.Keys && j in w.Keys && y'[i] > 1 && Uncapped(cap, y'[j])
      ensures LastBeforeNext(w, y', i, j)
    {
      assert CountOk(cap, y, i) && CountOk(cap, y, j);
      TurnIsKeyOrder(w, y', i, j);
      if i == e.id {
        if j != e.id { assert Offered(w, y, queue, j); }
      } else {
        assert LastBeforeNext(w, y, i, j);
        TurnIsKeyOrder(w, y, i, j);
      }
    }
  }

  lemma {:induction false} GainFalls(load: real, a: nat, b: nat)
    requires load >= 0.0 && 0 < a <= b
    ensures Gain(load, b) <= Gain(load, a)
    decreases b
  {
    if a < b {
      GainFalls(load, a, b - 1);
      GainShrinks(load, b - 1);
    }
  }

  lemma {:induction false} SomeHasMore(y: Counts, z: Counts) returns (i: Expert)
    requires y.Keys == z.Keys && y != z && Total(y) >= Total(z)
    ensures i in y && y[i] > z[i]
    decreases |y|
  {
    var k :| k in y && y[k] != z[k];
    if y[k] > z[k] { return k; }
    TotalRemove(y, k);
    TotalRemove(z, k);
    if y - {k} == z - {k} { assert false; }
    i := SomeHasMore(y - {k}, z - {k});
  }

  /** There is one way to spend a budget in turn. */
  lemma InTurnIsUnique(cap: Option<nat>, w: Weights, budget: nat, y: Counts, z: Counts)
    requires forall k | k in w.Keys :: w[k] >= 0.0
    requires IsAllocation(w.Keys, cap, budget, y) && IsAllocation(w.Keys, cap, budget, z)
    requires InTurn(cap, w, y) && InTurn(cap, w, z)
    ensures y == z
  {
    if y != z {
      var i := SomeHasMore(y, z);
      var j := SomeHasMore(z, y);
      assert CountOk(cap, y, i) && CountOk(cap, y, j) && CountOk(cap, z, i) && CountOk(cap, z, j);
      assert LastBeforeNext(w, y, i, j) && LastBeforeNext(w, z, j, i);
      TurnIsKeyOrder(w, y, i, j);
      TurnIsKeyOrder(w, z, j, i);
      GainFalls(w[i], z[i], y[i] - 1);
      GainFalls(w[j], y[j], z[j] - 1);
      assert false;
    }
  }

  lemma Granted(cap: Option<nat>, w: Weights, y: Counts, queue: set<Key>, level: real, e: Key) returns (level': real)
    requires Spending(cap, w, y, queue, level) && forall k | k in w.Keys :: w[k] >= 0.0
    requires e in queue && (forall j | j in queue :: NotAfter(e, j)) && Known(w, y, e.id) && Uncapped(cap, y[e.id])
    requires w.Keys == y.Keys && InTurn(cap, w, y)
    ensures InTurn(cap, w, y[e.id := y[e.id] + 1])
    ensures var y' := y[e.id := y[e.id] + 1];
      && Spending(cap, w, y', queue - {e} + {Key(-Gain(w[e.id], y[e.id] + 1), e.id)}, level') && forall n :: Spent(y, n) ==> Spent(y', n + 1)
  {
    assert SpendingFacts(cap, w, y, queue, level);
    PeakIsConvex(w);
    FirstHelpsMost(cap, w, y, queue, e);
    GrantKeepsLevel(w.Keys, cap, PeakCost(w), y, level, e.id);
    GrantKeepsQueue(cap, w, y, queue, e);
    GrantKeepsTurn(cap, w, y, queue, e);
    assert Total(y[e.id := y[e.id] + 1]) == Total(y) + 1;
    level' := Drop(PeakCost(w), e.id, y[e.id]);
  }

  /** The greedy loop: the next copy always goes where it helps most. It fails
      exactly when the cap leaves no room for the budget. */
  method Spend(w: Weights, cap: Option<nat>, budget: nat) returns (r: Option<Counts>)
    requires w.Keys != {} && |w.Keys| <= budget && forall k | k in w.Keys :: w[k] >= 0.0
    requires cap.Some? ==> cap.value >= 1
    ensures r.None? <==> cap.Some? && |w.Keys| * cap.value < budget
    ensures r.Some? ==> IsAllocation(w.Keys, cap, budget, r.value) && Optimal(w.Keys, cap, PeakCost(w), budget, r.value)
    ensures r.Some? ==> InTurn(cap, w, r.value)
  {
    var y: Counts := map k | k in w.Keys :: 1;
    ghost var level := OnesAreLevelled(cap, w, y);
    assert Spent(y, |w.Keys|);
    var queue := Offers(w, y);
    var remaining := budget - |w.Keys|;
    while remaining > 0
      invariant remaining >= 0 && Spending(cap, w, y, queue, level) && Spent(y, budget - remaining)
      invariant y.Keys == w.Keys && InTurn(cap, w, y)
      decreases remaining, queue
    {
      if queue == {} {
        NothingOffered(cap, w, y, level, budget - remaining);
        return None;
      }
      var e := Least(queue);
      FirstIsKnown(cap, w, y, queue, level, e);
      if cap.Some? && y[e.id] >= cap.value {
        Dropped(cap, w, y, queue, level, e);
        queue := queue - {e};
      } else {
        level := Granted(cap, w, y, queue, level, e);
        var gain := NextGain(w[e.id], y[e.id] + 1);
        queue := queue - {e} + {Key(-gain, e.id)};
        y := y[e.id := y[e.id] + 1];
        remaining := remaining - 1;
      }
    }
    BudgetSpent(cap, w, budget, y, queue, level);
    r := Some(y);
  }

  lemma BudgetSpent(cap: Option<nat>, w: Weights, budget: nat, y: Counts, queue: set<Key>, level: real)
    requires Spending(cap, w, y, queue, level) && Spent(y, budget) && forall k | k in w.Keys :: w[k] >= 0.0
    ensures IsAllocation(w.Keys, cap, budget, y) && Optimal(w.Keys, cap, PeakCost(w), budget, y)
    ensures cap.Some? ==> budget <= |w.Keys| * cap.value
  {
    assert SpendingFacts(cap, w, y, queue, level);
    PeakIsConvex(w);
    LevelledIsOptimal(w.Keys, cap, PeakCost(w), budget, y, level);
    if cap.Some? { AllocationFits(w.Keys, cap.value, budget, y); }
  }

  lemma NothingOffered(cap: Option<nat>, w: Weights, y: Counts, level: real, n: int)
    requires w.Keys != {} && Spending(cap, w, y, {}, level) && Spent(y, n)
    ensures cap.Some? && n == |w.Keys| * cap.value
  {
    assert SpendingFacts(cap, w, y, {}, level);
    forall k | k in w.Keys
      ensures !Uncapped(cap, y[k])
    {
      assert CountOk(cap, y, k);
      assert Uncapped(cap, y[k]) ==> Offered(w, y, {}, k);
    }
    var k := Member(w.Keys);
    assert !Uncapped(cap, y[k]);
    AllCapped(w.Keys, cap.value, y);
  }

  // ----- the whole allocation -----

  datatype AllocationError =
    EvaluationTrace | NegativeBudget | BadRedundancy | BadCap | NoExperts | OverCapacity | CannotPlaceAll

  function Distinct(experts: seq<Expert>): set<Expert> {
    set k | k in experts
  }

  /** Whether the budget passes the check against the copy capacity. */
  predicate PassesCheck(experts: nat, budget: nat, cap: Option<nat>) {
    cap.Some? ==> budget <= (if experts < budget then experts else budget) * (if cap.value < budget then cap.value else budget)
  }

  /** The check asks for room for the budget if every expert had its cap. */
  lemma PassesCheckIff(experts: nat, budget: nat, cap: Option<nat>)
    requires experts > 0 && budget > 0
    ensures cap.Some? && cap.value >= 1 ==> (PassesCheck(experts, budget, cap) <==> budget <= experts * cap.value)
  {
    if cap.Some? && cap.value >= 1 {
      var c := cap.value;
      if experts >= budget || c >= budget {
        AtLeastFactor(experts, c);
        AtLeastFactor(if experts < budget then experts else budget, if c < budget then c else budget);
      }
    }
  }

  lemma AtLeastFactor(a: nat, b: nat)
    requires a > 0 && b > 0
    ensures a * b >= a && a * b >= b
  {}

  function Rejected(evaluation: bool, experts: seq<Expert>, budget: int, redundancy: real, cap: Option<int>): Option<AllocationError> {
    if evaluation then Some(EvaluationTrace)
    else if budget < 0 then Some(NegativeBudget)
    else if !(0.0 <= redundancy < 1.0) then Some(BadRedundancy)
    else if cap.Some? && cap.value < 1 then Some(BadCap)
    else if budget > 0 && experts == [] then Some(NoExperts)
    else if budget > 0 && !PassesCheck(|Distinct(experts)|, budget, Limit(cap)) then Some(OverCapacity)
    else None
  }

  function Limit(cap: Option<int>): Option<nat> {
    if cap.Some? && cap.value >= 0 then Some(cap.value) else None
  }

  function PeakWeights(bins: seq<Bin>, s: set<Expert>): Weights {
    map k | k in s :: PeakLoad(bins, k) as real
  }

  /** The outcome for inputs that pass all checks. */
  ghost predicate Balanced(bins: seq<Bin>, experts: set<Expert>, count: nat, cap: Option<nat>, budget: nat, y: Counts) {
    && IsCovered(bins, experts, count, y.Keys) && IsAllocation(y.Keys, cap, budget, y)
    && Optimal(y.Keys, cap, PeakCost(PeakWeights(bins, y.Keys)), budget, y)
    && GivenInTurn(bins, cap, y)
  }

  /** Every copy beyond the first went where the load of the busiest step, per
      copy, fell most; of equal falls to the smaller expert. */
  ghost predicate GivenInTurn(bins: seq<Bin>, cap: Option<nat>, y: Counts) {
    forall i, j {:trigger y[i], y[j]} | i in y.Keys && j in y.Keys && y[i] > 1 && Uncapped(cap, y[j]) ::
      FellMore(PeakLoad(bins, i) as real, y[i], i, PeakLoad(bins, j) as real, y[j], j)
  }

  lemma InTurnOfPeaks(bins: seq<Bin>, cap: Option<nat>, y: Counts)
    requires InTurn(cap, PeakWeights(bins, y.Keys), y)
    ensures GivenInTurn(bins, cap, y)
  {
    var w := PeakWeights(bins, y.Keys);
    forall i, j | i in y.Keys && j in y.Keys && y[i] > 1 && Uncapped(cap, y[j])
      ensures LastBeforeNext(w, y, i, j)
    {
    }
  }

  /** `allocate_eplb_replicas`: the budget goes to the most loaded experts so
      that the sum of their peak loads per copy is least; it cannot be placed
      exactly when the covered experts times the cap are too few. */
  method Allocate(evaluation: bool, bins: seq<Bin>, experts: seq<Expert>, budget: int, redundancy: real, cap: Option<int>)
    returns (r: Result<Counts, AllocationError>)
    ensures var n := |Distinct(experts)|;
      if evaluation then r == Err(EvaluationTrace)
      else if budget < 0 then r == Err(NegativeBudget)
      else if redundancy < 0.0 || redundancy >= 1.0 then r == Err(BadRedundancy)
      else if cap.Some? && cap.value < 1 then r == Err(BadCap)
      else if budget == 0 then r == Ok(map[])
      else if experts == [] then r == Err(NoExperts)
      else if cap.Some? && n * cap.value < budget then r == Err(OverCapacity)
      else
        && n > 0
        && (r.Err? ==> r.error == CannotPlaceAll)
        && (r.Err? <==> cap.Some? && Coverage(n, budget, redundancy) * cap.value < budget)
        && (r.Ok? ==> Balanced(bins, Distinct(experts), Coverage(n, budget, redundancy), Limit(cap), budget, r.value))
  {
    var keys := Distinct(experts);
    assert experts != [] ==> experts[0] in keys;
    if budget > 0 && experts != [] { PassesCheckIff(|keys|, budget, Limit(cap)); }
    var rejected := Rejected(evaluation, experts, budget, redundancy, cap);
    if rejected.Some? { return Err(rejected.value); }
    if budget == 0 { return Ok(map[]); }
    var y := Place(bins, keys, budget, redundancy, Limit(cap));
    r := if y.Some? then Ok(y.value) else Err(CannotPlaceAll);
  }

  /** The most loaded experts and their peak loads. */
  method Cover(bins: seq<Bin>, experts: set<Expert>, count: nat) returns (w: Weights)
    requires count <= |experts|
    ensures IsCovered(bins, experts, count, w.Keys) && w == PeakWeights(bins, w.Keys)
  {
    var total, peak := Loads(bins, experts);
    var selected := PrefixSet(Ranked(total, peak, experts), count);
    CoveredByRank(bins, experts, total, peak, count);
    w := NextLoads(bins, selected, total, peak);
  }

  /** The peak load, or the total where the peak is 0: then both are. */
  method NextLoads(bins: seq<Bin>, s: set<Expert>, total: map<Expert, nat>, peak: map<Expert, nat>) returns (w: Weights)
    requires s <= total.Keys && s <= peak.Keys
    requires forall k | k in s :: total[k] == TotalLoad(bins, k) && peak[k] == PeakLoad(bins, k)
    ensures w == PeakWeights(bins, s) && w.Keys == s
  {
    forall k | k in s
      ensures peak[k] == 0 ==> total[k] == 0
    {
      PeakIsGreatest(bins, k);
    }
    w := map k | k in s :: if peak[k] > 0 then peak[k] as real else total[k] as real;
  }

  method Place(bins: seq<Bin>, experts: set<Expert>, budget: nat, redundancy: real, cap: Option<nat>) returns (r: Option<Counts>)
    requires experts != {} && budget > 0 && 0.0 <= redundancy < 1.0 && (cap.Some? ==> cap.value >= 1)
    ensures r.None? <==> cap.Some? && Coverage(|experts|, budget, redundancy) * cap.value < budget
    ensures r.Some? ==> Balanced(bins, experts, Coverage(|experts|, budget, redundancy), cap, budget, r.value)
  {
    var count := Coverage(|experts|, budget, redundancy);
    var w := Cover(bins, experts, count);
    assert w.Keys != {};
    r := Spend(w, cap, budget);
    if r.Some? { InTurnOfPeaks(bins, cap, r.value); }
  }

  /** The capacity check counts all experts, not the covered ones: two experts
      with room for four copies pass it, yet only one of them is covered. */
  lemma CheckIsNotEnough()
    ensures Rejected(false, [1, 2], 4, 0.75, Some(2)) == None && Coverage(2, 4, 0.75) * 2 < 4
  {
    assert Distinct([1, 2]) == {1, 2};
    assert 4.0 * (1.0 - 0.75) == 1.0;
  }
}
