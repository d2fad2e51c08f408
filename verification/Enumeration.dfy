/** Exhaustive enumeration: combinations by size, and products of choices. */
module Enumeration {

  // ----- combinations -----

  /** The ascending selections of `size` numbers from `from` to n - 1, in
      lexicographic order. */
  function Combinations(from: nat, n: nat, size: nat): seq<seq<nat>>
    decreases n - from
  {
    if size == 0 then [[]]
    else if from >= n then []
    else WithFirst(from, Combinations(from + 1, n, size - 1)) + Combinations(from + 1, n, size)
  }

  function WithFirst<T>(x: T, tails: seq<seq<T>>): seq<seq<T>> {
    if tails == [] then [] else [[x] + tails[0]] + WithFirst(x, tails[1..])
  }

  predicate IsCombination(s: seq<nat>, from: nat, n: nat) {
    (forall i | 0 <= i < |s| :: from <= s[i] < n) && forall i, j | 0 <= i < j < |s| :: s[i] < s[j]
  }

  lemma {:induction false} InWithFirst<T>(x: T, tails: seq<seq<T>>, s: seq<T>)
    ensures s in WithFirst(x, tails) <==> s != [] && s[0] == x && s[1..] in tails
  {
    if tails != [] {
      InWithFirst(x, tails[1..], s);
      if s != [] && s[0] == x && s[1..] == tails[0] {
        assert s == [x] + tails[0];
      }
    }
  }

  lemma InConcatenation<T>(a: seq<T>, b: seq<T>, x: T)
    ensures x in a + b <==> x in a || x in b
  {
  }

  /** What the recursion lists, in terms of what its two parts list. */
  lemma CombinationsStep(from: nat, n: nat, size: nat, s: seq<nat>)
    requires size > 0 && from < n
    ensures s in Combinations(from, n, size) <==>
      (s != [] && s[0] == from && s[1..] in Combinations(from + 1, n, size - 1)) || s in Combinations(from + 1, n, size)
  {
    var tails, rest := Combinations(from + 1, n, size - 1), Combinations(from + 1, n, size);
    InWithFirst(from, tails, s);
    InConcatenation(WithFirst(from, tails), rest, s);
  }

  /** The same, read from the front. */
  predicate Ascends(s: seq<nat>, from: nat, n: nat) {
    s == [] || (from <= s[0] < n && Ascends(s[1..], s[0] + 1, n))
  }

  lemma {:induction false} AscendsIffCombination(s: seq<nat>, from: nat, n: nat)
    ensures Ascends(s, from, n) <==> IsCombination(s, from, n)
    decreases |s|
  {
    if s != [] && from <= s[0] < n {
      AscendsIffCombination(s[1..], s[0] + 1, n);
      RestOfCombination(s, from, n);
    } else if s != [] {
      assert !(from <= s[0] < n);
    }
  }

  lemma RestOfCombination(s: seq<nat>, from: nat, n: nat)
    requires s != [] && from <= s[0] < n
    ensures IsCombination(s, from, n) <==> IsCombination(s[1..], s[0] + 1, n)
  {
    if IsCombination(s, from, n) {
      forall i | 0 <= i < |s[1..]|
        ensures s[0] + 1 <= s[1..][i] < n
      {
        assert s[0] < s[i + 1];
      }
    }
    if IsCombination(s[1..], s[0] + 1, n) {
      forall i | 0 < i < |s|
        ensures s[0] < s[i] < n
      {
        assert s[i] == s[1..][i - 1];
      }
      forall i, j | 0 <= i < j < |s|
        ensures s[i] < s[j]
      {
        if i > 0 { assert s[i] == s[1..][i - 1] && s[j] == s[1..][j - 1]; }
      }
    }
  }

  lemma {:induction false} CombinationsListed(from: nat, n: nat, size: nat, s: seq<nat>)
    ensures s in Combinations(from, n, size) <==> |s| == size && Ascends(s, from, n)
    decreases n - from
  {
    if size > 0 && from < n {
      CombinationsStep(from, n, size, s);
      CombinationsListed(from + 1, n, size, s);
      if s != [] {
        CombinationsListed(from + 1, n, size - 1, s[1..]);
      }
    } else {
      assert s == [] <==> s in [[]];
    }
  }

  /** Every ascending selection is listed, and nothing else. */
  lemma CombinationsComplete(from: nat, n: nat, size: nat, s: seq<nat>)
    ensures s in Combinations(from, n, size) <==> |s| == size && IsCombination(s, from, n)
  {
    CombinationsListed(from, n, size, s);
    AscendsIffCombination(s, from, n);
  }

  lemma {:induction false} AscendsFits(s: seq<nat>, from: nat, n: nat)
    requires Ascends(s, from, n) && from <= n
    ensures |s| <= n - from
  {
    if s != [] {
      AscendsFits(s[1..], s[0] + 1, n);
    }
  }

  lemma CombinationFits(s: seq<nat>, from: nat, n: nat)
    requires IsCombination(s, from, n) && from <= n
    ensures |s| <= n - from
  {
    AscendsIffCombination(s, from, n);
    AscendsFits(s, from, n);
  }

  /** The non-empty selections of at most `most` of n, smallest first. */
  function Subsets(n: nat, most: nat): seq<seq<nat>> {
    if most == 0 then [] else Subsets(n, most - 1) + Combinations(0, n, most)
  }

  lemma {:induction false} SubsetsComplete(n: nat, most: nat, s: seq<nat>)
    ensures s in Subsets(n, most) <==> 1 <= |s| <= most && IsCombination(s, 0, n)
  {
    if most > 0 {
      SubsetsComplete(n, most - 1, s);
      CombinationsComplete(0, n, most, s);
      InConcatenation(Subsets(n, most - 1), Combinations(0, n, most), s);
    }
  }

  // ----- products -----

  /** Every choice of the first item with every continuation. */
  function Spread<T>(items: seq<T>, tails: seq<seq<T>>): seq<seq<T>> {
    if items == [] then [] else WithFirst(items[0], tails) + Spread(items[1..], tails)
  }

  /** All sequences of k items. */
  function Product<T>(items: seq<T>, k: nat): seq<seq<T>> {
    if k == 0 then [[]] else Spread(items, Product(items, k - 1))
  }

  lemma {:induction false} InSpread<T>(items: seq<T>, tails: seq<seq<T>>, s: seq<T>)
    ensures s in Spread(items, tails) <==> s != [] && s[0] in items && s[1..] in tails
  {
    if items != [] {
      InWithFirst(items[0], tails, s);
      InSpread(items[1..], tails, s);
    }
  }

  lemma {:induction false} ProductComplete<T>(items: seq<T>, k: nat, s: seq<T>)
    ensures s in Product(items, k) <==> |s| == k && forall i | 0 <= i < |s| :: s[i] in items
  {
    if k > 0 {
      InSpread(items, Product(items, k - 1), s);
      if s != [] {
        ProductComplete(items, k - 1, s[1..]);
        assert forall i | 0 <= i < |s| :: s[i] == if i == 0 then s[0] else s[1..][i - 1];
        assert forall i | 0 <= i < |s[1..]| :: s[1..][i] == s[i + 1];
      }
    }
  }

  function Power(b: nat, k: nat): nat {
    if k == 0 then 1 else b * Power(b, k - 1)
  }

  lemma {:induction false} WithFirstSize<T>(x: T, tails: seq<seq<T>>)
    ensures |WithFirst(x, tails)| == |tails|
  {
    if tails != [] {
      WithFirstSize(x, tails[1..]);
    }
  }

  lemma {:induction false} SpreadSize<T>(items: seq<T>, tails: seq<seq<T>>)
    ensures |Spread(items, tails)| == |items| * |tails|
  {
    if items != [] {
      WithFirstSize(items[0], tails);
      SpreadSize(items[1..], tails);
    }
  }

  /** The search space has exactly the announced size. */
  lemma {:induction false} ProductSize<T>(items: seq<T>, k: nat)
    ensures |Product(items, k)| == Power(|items|, k)
  {
    if k > 0 {
      ProductSize(items, k - 1);
      SpreadSize(items, Product(items, k - 1));
    }
  }

  // ----- nothing is listed twice -----

  predicate Distinct<T(==)>(s: seq<T>) {
    forall i, j | 0 <= i < j < |s| :: s[i] != s[j]
  }

  lemma DistinctConcatenation<T>(a: seq<T>, b: seq<T>)
    requires Distinct(a) && Distinct(b) && forall x | x in a :: x !in b
    ensures Distinct(a + b)
  {
    forall i, j | 0 <= i < j < |a + b|
      ensures (a + b)[i] != (a + b)[j]
    {
      if i < |a| <= j {
        assert (a + b)[i] == a[i] && (a + b)[j] == b[j - |a|] && a[i] in a;
      }
    }
  }

  lemma {:induction false} WithFirstDistinct<T>(x: T, tails: seq<seq<T>>)
    requires Distinct(tails)
    ensures Distinct(WithFirst(x, tails))
  {
    if tails != [] {
      WithFirstDistinct(x, tails[1..]);
      var head := [x] + tails[0];
      forall s | s in [head]
        ensures s !in WithFirst(x, tails[1..])
      {
        InWithFirst(x, tails[1..], s);
        assert s[1..] == tails[0];
      }
      DistinctConcatenation([head], WithFirst(x, tails[1..]));
    }
  }

  lemma {:induction false} CombinationsDistinct(from: nat, n: nat, size: nat)
    ensures Distinct(Combinations(from, n, size))
    decreases n - from
  {
    if size > 0 && from < n {
      var tails, rest := Combinations(from + 1, n, size - 1), Combinations(from + 1, n, size);
      CombinationsDistinct(from + 1, n, size - 1);
      CombinationsDistinct(from + 1, n, size);
      WithFirstDistinct(from, tails);
      forall s | s in WithFirst(from, tails)
        ensures s !in rest
      {
        InWithFirst(from, tails, s);
        CombinationsListed(from + 1, n, size, s);
      }
      DistinctConcatenation(WithFirst(from, tails), rest);
    }
  }

  lemma {:induction false} SubsetsDistinct(n: nat, most: nat)
    ensures Distinct(Subsets(n, most))
  {
    if most > 0 {
      SubsetsDistinct(n, most - 1);
      CombinationsDistinct(0, n, most);
      forall s | s in Subsets(n, most - 1)
        ensures s !in Combinations(0, n, most)
      {
        SubsetsComplete(n, most - 1, s);
        CombinationsComplete(0, n, most, s);
      }
      DistinctConcatenation(Subsets(n, most - 1), Combinations(0, n, most));
    }
  }

  lemma {:induction false} SpreadDistinct<T>(items: seq<T>, tails: seq<seq<T>>)
    requires Distinct(items) && Distinct(tails)
    ensures Distinct(Spread(items, tails))
  {
    if items != [] {
      WithFirstDistinct(items[0], tails);
      NotAgain(items);
      SpreadDistinct(items[1..], tails);
      forall s | s in WithFirst(items[0], tails)
        ensures s !in Spread(items[1..], tails)
      {
        InWithFirst(items[0], tails, s);
        InSpread(items[1..], tails, s);
      }
      DistinctConcatenation(WithFirst(items[0], tails), Spread(items[1..], tails));
    }
  }

  lemma NotAgain<T>(items: seq<T>)
    requires Distinct(items) && items != []
    ensures items[0] !in items[1..] && Distinct(items[1..])
  {
    forall i | 0 <= i < |items[1..]|
      ensures items[1..][i] != items[0]
    {
      assert items[1..][i] == items[i + 1];
    }
  }

  /** Every choice is listed once. */
  lemma {:induction false} ProductDistinct<T>(items: seq<T>, k: nat)
    requires Distinct(items)
    ensures Distinct(Product(items, k))
  {
    if k > 0 {
      ProductDistinct(items, k - 1);
      SpreadDistinct(items, Product(items, k - 1));
    }
  }

  /** A list without repetition is as long as the set of its entries. */
  lemma {:induction false} DistinctSize<T>(items: seq<T>, s: set<T>)
    requires Distinct(items) && forall x :: x in s <==> x in items
    ensures |s| == |items|
    decreases |items|
  {
    if items == [] {
      assert s == {};
    } else {
      NotAgain(items);
      DistinctSize(items[1..], s - {items[0]});
    }
  }
}
