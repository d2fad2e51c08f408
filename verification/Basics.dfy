/** Shared value types and orderings. */
module Basics {
  type EndpointId = nat
  type ChipId = nat

  datatype Option<+T> = None | Some(value: T)

  datatype Result<+T, +E> = Ok(value: T) | Err(error: E)

  function Max(x: real, y: real): (m: real)
    ensures x <= m && y <= m && (m == x || m == y)
  {
    if x < y then y else x
  }

  function Min(x: real, y: real): (m: real)
    ensures m <= x && m <= y && (m == x || m == y)
  {
    if y < x then y else x
  }

  /** How often x occurs in s. */
  function Occurrences<T(==)>(s: seq<T>, x: T): nat {
    if s == [] then 0 else (if s[0] == x then 1 else 0) + Occurrences(s[1..], x)
  }

  lemma {:induction false} OccursIffMember<T>(s: seq<T>, x: T)
    ensures Occurrences(s, x) > 0 <==> x in s
  {
    if s != [] {
      OccursIffMember(s[1..], x);
    }
  }

  lemma {:induction false} OccurrencesAppend<T>(s: seq<T>, x: T, y: T)
    ensures Occurrences(s + [y], x) == Occurrences(s, x) + if x == y then 1 else 0
  {
    if s == [] {
      assert s + [y] == [y];
    } else {
      assert (s + [y])[1..] == s[1..] + [y];
      OccurrencesAppend(s[1..], x, y);
    }
  }

  lemma {:induction false} DistinctOccursOnce<T>(s: seq<T>, x: T)
    requires forall i, j | 0 <= i < j < |s| :: s[i] != s[j]
    ensures Occurrences(s, x) <= 1
  {
    if s != [] {
      DistinctOccursOnce(s[1..], x);
      OccursIffMember(s[1..], x);
    }
  }

  /** A moment with a tie-breaking identifier: the key of every event queue. */
  datatype Key = Key(time: real, id: nat)

  predicate Before(a: Key, b: Key) {
    a.time < b.time || (a.time == b.time && a.id < b.id)
  }

  predicate NotAfter(a: Key, b: Key) {
    a == b || Before(a, b)
  }

  lemma SmallerSet<T>(a: set<T>, b: set<T>)
    requires a <= b
    ensures |a| <= |b|
    ensures a != b ==> |a| < |b|
  {
    assert b == a + (b - a);
    assert |b| == |a| + |b - a|;
    if a != b {
      assert b - a != {};
    }
  }

  // ----- the elements of a sequence -----

  function ElementSet(q: seq<nat>): set<nat> {
    set x | x in q
  }

  lemma ListsSet(q: seq<nat>, s: set<nat>)
    requires forall x :: x in q <==> x in s
    ensures ElementSet(q) == s && forall i {:trigger q[i]} | 0 <= i < |q| :: q[i] in s
  {
  }

  lemma NextElement(q: seq<nat>, i: nat)
    requires i < |q|
    ensures q[i] in q && ElementSet(q[..i + 1]) == ElementSet(q[..i]) + {q[i]} && ElementSet(q[..i + 1]) <= ElementSet(q)
    ensures (forall j, k | 0 <= j < k < |q| :: q[j] != q[k]) ==> q[i] !in ElementSet(q[..i])
  {
    assert q[..i + 1] == q[..i] + [q[i]];
  }

  /** The naturals below k. */
  function FirstNats(k: nat): (s: set<nat>)
    ensures |s| == k && forall x: nat :: x in s <==> x < k
  {
    if k == 0 then {} else FirstNats(k - 1) + {k - 1}
  }

  /** The least key of a finite set of identifiers. */
  lemma {:induction false} FirstExists(s: set<nat>, at: map<nat, real>) returns (x: nat)
    requires s != {} && s <= at.Keys
    ensures x in s && forall y | y in s :: NotAfter(Key(at[x], x), Key(at[y], y))
    decreases s
  {
    x :| x in s;
    var rest := s - {x};
    assert s == rest + {x};
    if rest != {} {
      var y := FirstExists(rest, at);
      if Before(Key(at[y], y), Key(at[x], x)) { x := y; }
    }
  }

  lemma HasFirst(s: set<nat>, at: map<nat, real>)
    requires s != {} && s <= at.Keys
    ensures exists x :: x in s && forall y | y in s :: NotAfter(Key(at[x], x), Key(at[y], y))
  {
    var x := FirstExists(s, at);
  }

  /** No times: every order by them is by identifier. */
  function Zeroes(s: set<nat>): map<nat, real> {
    map x | x in s :: 0.0
  }

  /** The identifiers of s in the order of their times, ties by identifier. */
  function InOrder(s: set<nat>, at: map<nat, real>): (r: seq<nat>)
    requires s <= at.Keys
    ensures forall x :: x in r <==> x in s
    ensures forall i, j | 0 <= i < j < |r| :: Before(Key(at[r[i]], r[i]), Key(at[r[j]], r[j]))
    decreases s
  {
    if s == {} then [] else
    HasFirst(s, at);
    var x :| x in s && forall y | y in s :: NotAfter(Key(at[x], x), Key(at[y], y));
    [x] + InOrder(s - {x}, at)
  }

  /** The least key, as a heap delivers it. */
  method Least(keys: set<Key>) returns (k: Key)
    requires keys != {}
    ensures k in keys && forall j | j in keys :: NotAfter(k, j)
  {
    k :| k in keys;
    var todo := keys - {k};
    while todo != {}
      invariant todo <= keys && k in keys
      invariant forall j | j in keys - todo :: NotAfter(k, j)
      decreases todo
    {
      var j :| j in todo;
      assert j == Key(j.time, j.id) && k == Key(k.time, k.id);
      assert forall x | x in keys - todo :: NotAfter(k, x) && (Before(j, k) ==> NotAfter(j, x));
      if Before(j, k) { k := j; }
      assert keys - (todo - {j}) == (keys - todo) + {j};
      todo := todo - {j};
    }
    assert keys - todo == keys;
  }
}
