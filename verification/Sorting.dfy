/** Sorting by a total order. */
module Sorting {

  ghost predicate IsOrder<T(!new)>(le: (T, T) -> bool) {
    && (forall x, y :: le(x, y) || le(y, x))
    && forall x, y, z :: le(x, y) && le(y, z) ==> le(x, z)
  }

  ghost predicate Ascending<T>(le: (T, T) -> bool, s: seq<T>) {
    forall i, j | 0 <= i < j < |s| :: le(s[i], s[j])
  }

  function Insert<T>(le: (T, T) -> bool, x: T, s: seq<T>): (r: seq<T>)
    ensures multiset(r) == multiset(s) + multiset{x}
  {
    if s == [] then [x]
    else if le(x, s[0]) then [x] + s
    else
      assert s == [s[0]] + s[1..];
      [s[0]] + Insert(le, x, s[1..])
  }

  /** Equal elements keep their order. */
  function Sort<T>(le: (T, T) -> bool, s: seq<T>): (r: seq<T>)
    ensures multiset(r) == multiset(s)
  {
    if s == [] then [] else
    assert s == [s[0]] + s[1..];
    Insert(le, s[0], Sort(le, s[1..]))
  }

  lemma SameElements<T>(a: seq<T>, b: seq<T>)
    requires multiset(a) == multiset(b)
    ensures |a| == |b|
    ensures forall x :: x in a <==> x in b
  {
    assert |multiset(a)| == |a| && |multiset(b)| == |b|;
    forall x
      ensures x in a <==> x in b
    {
      assert x in a <==> x in multiset(a);
    }
  }

  lemma {:induction false} InsertAscends<T(!new)>(le: (T, T) -> bool, x: T, s: seq<T>)
    requires IsOrder(le) && Ascending(le, s)
    ensures Ascending(le, Insert(le, x, s))
  {
    if s != [] && !le(x, s[0]) {
      var rest := Insert(le, x, s[1..]);
      InsertAscends(le, x, s[1..]);
      forall y | y in rest
        ensures le(s[0], y)
      {
        assert y in multiset(rest);
        if y != x {
          assert y in s[1..];
          var k :| 0 <= k < |s[1..]| && s[1..][k] == y;
          assert s[k + 1] == y;
        }
      }
    }
  }

  lemma {:induction false} SortAscends<T(!new)>(le: (T, T) -> bool, s: seq<T>)
    requires IsOrder(le)
    ensures Ascending(le, Sort(le, s))
  {
    if s != [] {
      SortAscends(le, s[1..]);
      InsertAscends(le, s[0], Sort(le, s[1..]));
    }
  }

  ghost predicate Untied<T(!new)>(le: (T, T) -> bool, s: seq<T>) {
    forall x, y {:trigger le(x, y)} | x in s && y in s && le(x, y) && le(y, x) :: x == y
  }

  lemma FirstIsLeast<T>(le: (T, T) -> bool, s: seq<T>, y: T)
    requires Ascending(le, s) && y in s
    ensures y == s[0] || le(s[0], y)
  {
    var k :| 0 <= k < |s| && s[k] == y;
  }

  lemma SameFirst<T(!new)>(le: (T, T) -> bool, a: seq<T>, b: seq<T>)
    requires a != [] && multiset(a) == multiset(b) && Ascending(le, a) && Ascending(le, b) && Untied(le, a)
    ensures |a| == |b| && a[0] == b[0]
  {
    SameElements(a, b);
    FirstIsLeast(le, a, b[0]);
    FirstIsLeast(le, b, a[0]);
  }

  lemma SameRest<T>(a: seq<T>, b: seq<T>)
    requires a != [] && b != [] && a[0] == b[0] && multiset(a) == multiset(b)
    ensures multiset(a[1..]) == multiset(b[1..])
  {
    assert a == [a[0]] + a[1..] && b == [b[0]] + b[1..];
    assert multiset(a[1..]) == multiset(a) - multiset{a[0]} && multiset(b[1..]) == multiset(b) - multiset{a[0]};
  }

  /** When no two elements are tied, there is one ascending arrangement. */
  lemma {:induction false} AscendingIsUnique<T(!new)>(le: (T, T) -> bool, a: seq<T>, b: seq<T>)
    requires multiset(a) == multiset(b) && Ascending(le, a) && Ascending(le, b) && Untied(le, a)
    ensures a == b
  {
    if a == [] {
      SameElements(a, b);
    } else {
      SameFirst(le, a, b);
      SameRest(a, b);
      AscendingIsUnique(le, a[1..], b[1..]);
      assert a == [a[0]] + a[1..] && b == [b[0]] + b[1..];
    }
  }

  lemma SortIgnoresOrder<T(!new)>(le: (T, T) -> bool, a: seq<T>, b: seq<T>)
    requires IsOrder(le) && multiset(a) == multiset(b) && Untied(le, a)
    ensures Sort(le, a) == Sort(le, b)
  {
    SortAscends(le, a);
    SortAscends(le, b);
    SameElements(a, Sort(le, a));
    AscendingIsUnique(le, Sort(le, a), Sort(le, b));
  }

  // ----- repeated keys -----

  function KeysOf<T(==)>(s: seq<T>, key: T -> int): set<int> {
    set x | x in s :: key(x)
  }

  predicate DistinctKeys<T>(s: seq<T>, key: T -> int) {
    forall i, j | 0 <= i < j < |s| :: key(s[i]) != key(s[j])
  }

  lemma KeysSnoc<T>(front: seq<T>, last: T, key: T -> int)
    ensures KeysOf(front + [last], key) == KeysOf(front, key) + {key(last)}
  {
    var s := front + [last];
    forall m
      ensures m in KeysOf(s, key) <==> m in KeysOf(front, key) || m == key(last)
    {
      assert last in s;
      if m in KeysOf(front, key) {
        var x :| x in front && key(x) == m;
        assert x in s;
      }
    }
  }

  lemma DistinctSnoc<T>(front: seq<T>, last: T, key: T -> int)
    ensures DistinctKeys(front + [last], key) <==> DistinctKeys(front, key) && key(last) !in KeysOf(front, key)
  {
    var s := front + [last];
    assert s[..|front|] == front;
    if DistinctKeys(s, key) {
      forall i, j | 0 <= i < j < |front|
        ensures key(front[i]) != key(front[j])
      {
        assert front[i] == s[i] && front[j] == s[j];
      }
      forall x | x in front
        ensures key(x) != key(last)
      {
        var i :| 0 <= i < |front| && front[i] == x;
        assert key(s[i]) != key(s[|front|]);
      }
    }
  }

  /** No key is repeated when there are as many keys as elements. */
  lemma {:induction false} CountKeys<T>(s: seq<T>, key: T -> int)
    ensures |KeysOf(s, key)| <= |s|
    ensures |KeysOf(s, key)| == |s| <==> DistinctKeys(s, key)
  {
    if s != [] {
      var front, last := s[..|s| - 1], s[|s| - 1];
      CountKeys(front, key);
      assert s == front + [last];
      KeysSnoc(front, last, key);
      DistinctSnoc(front, last, key);
      OneMore(KeysOf(front, key), key(last));
    }
  }

  lemma OneMore(s: set<int>, x: int)
    ensures |s + {x}| == |s| + if x in s then 0 else 1
  {
    if x in s { assert s + {x} == s; }
  }

  lemma SameKeys<T>(a: seq<T>, b: seq<T>, key: T -> int)
    requires multiset(a) == multiset(b)
    ensures KeysOf(a, key) == KeysOf(b, key) && (DistinctKeys(a, key) <==> DistinctKeys(b, key))
  {
    SameElements(a, b);
    CountKeys(a, key);
    CountKeys(b, key);
  }
}
