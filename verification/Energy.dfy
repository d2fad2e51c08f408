/** Busy time of a chip, and the energy account built on it. */
module Energies {
  import opened Basics
  import opened Sorting

  datatype Interval = Interval(start: real, finish: real)

  predicate Earlier(a: Interval, b: Interval) {
    a.start < b.start || (a.start == b.start && a.finish <= b.finish)
  }

  function ByTime(): (Interval, Interval) -> bool {
    (a: Interval, b: Interval) => Earlier(a, b)
  }

  predicate During(i: Interval, x: real) {
    i.start <= x <= i.finish
  }

  /** Some interval of s contains the moment x. */
  ghost predicate Busy(s: seq<Interval>, x: real) {
    exists k {:trigger s[k]} :: 0 <= k < |s| && During(s[k], x)
  }

  ghost predicate SameMoments(a: seq<Interval>, b: seq<Interval>) {
    forall x {:trigger Busy(a, x)} {:trigger Busy(b, x)} :: Busy(a, x) <==> Busy(b, x)
  }

  ghost predicate Proper(s: seq<Interval>) {
    forall i | i in s :: i.start <= i.finish
  }

  /** Disjoint intervals in the order of time. */
  ghost predicate Separated(s: seq<Interval>) {
    Proper(s) && forall i, j | 0 <= i < j < |s| :: s[i].finish < s[j].start
  }

  ghost predicate IsUnion(blocks: seq<Interval>, s: seq<Interval>) {
    Separated(blocks) && SameMoments(blocks, s)
  }

  function Length(s: seq<Interval>): real {
    if s == [] then 0.0 else Length(s[..|s| - 1]) + s[|s| - 1].finish - s[|s| - 1].start
  }

  /** d is the length of the set of moments covered by s. */
  ghost predicate IsDuration(s: seq<Interval>, d: real) {
    exists blocks {:trigger IsUnion(blocks, s)} :: IsUnion(blocks, s) && Length(blocks) == d
  }

  // ----- the union is one set, with one length -----

  lemma BusyInLast(s: seq<Interval>, x: real)
    requires s != []
    ensures Busy(s, x) <==> Busy(s[..|s| - 1], x) || During(s[|s| - 1], x)
  {
    var front := s[..|s| - 1];
    if Busy(s, x) {
      var k :| 0 <= k < |s| && During(s[k], x);
      if k < |front| { assert front[k] == s[k]; }
    }
    if Busy(front, x) {
      var k :| 0 <= k < |front| && During(front[k], x);
      assert s[k] == front[k];
    }
  }

  lemma BusyBefore(s: seq<Interval>, x: real)
    requires Separated(s) && s != []
    ensures Busy(s, x) ==> x <= s[|s| - 1].finish
    ensures Busy(s[..|s| - 1], x) ==> x < s[|s| - 1].start
  {
    var front := s[..|s| - 1];
    if Busy(front, x) {
      var k :| 0 <= k < |front| && During(front[k], x);
      assert s[k] == front[k];
    }
    BusyInLast(s, x);
    assert s[|s| - 1] in s;
  }

  lemma SameAt(a: seq<Interval>, b: seq<Interval>, x: real)
    requires SameMoments(a, b)
    ensures Busy(a, x) ==> Busy(b, x)
  {
    assert Busy(a, x) <==> Busy(b, x);
  }

  lemma NothingBusy(a: seq<Interval>, b: seq<Interval>)
    requires SameMoments(a, b) && a == [] && Proper(b)
    ensures b == []
  {
    if b != [] {
      assert b[0] in b;
      SameAt(b, a, b[0].start);
    }
  }

  lemma EndIsBusy(s: seq<Interval>)
    requires Proper(s) && s != []
    ensures Busy(s, s[|s| - 1].finish)
  {
    assert s[|s| - 1] in s && During(s[|s| - 1], s[|s| - 1].finish);
  }

  lemma SameEnd(a: seq<Interval>, b: seq<Interval>)
    requires Separated(a) && Separated(b) && SameMoments(a, b) && a != [] && b != []
    ensures a[|a| - 1].finish == b[|b| - 1].finish
  {
    EndIsBusy(a);
    EndIsBusy(b);
    BusyBefore(a, b[|b| - 1].finish);
    BusyBefore(b, a[|a| - 1].finish);
  }

  /** Between its last block and the block before, b is idle. */
  lemma GapIsIdle(b: seq<Interval>, x: real)
    requires Separated(b) && b != [] && x < b[|b| - 1].start && (|b| > 1 ==> b[|b| - 2].finish < x)
    ensures !Busy(b, x)
  {
    forall k | 0 <= k < |b|
      ensures !During(b[k], x)
    {
      if k < |b| - 2 {
        assert b[k].finish < b[|b| - 2].start;
        assert b[|b| - 2] in b;
      }
    }
  }

  lemma StartNotAfter(a: seq<Interval>, b: seq<Interval>)
    requires Separated(a) && Separated(b) && SameMoments(a, b) && a != [] && b != []
    ensures b[|b| - 1].start <= a[|a| - 1].start
  {
    var p, q := a[|a| - 1], b[|b| - 1];
    SameEnd(a, b);
    if p.start < q.start {
      assert q in b;
      var low := if |b| > 1 then Max(p.start, b[|b| - 2].finish) else p.start;
      var x := (low + q.start) / 2.0;
      GapIsIdle(b, x);
      BusyInLast(a, x);
      SameAt(a, b, x);
    }
  }

  lemma SameFront(a: seq<Interval>, b: seq<Interval>)
    requires Separated(a) && Separated(b) && SameMoments(a, b) && a != [] && b != []
    requires a[|a| - 1] == b[|b| - 1]
    ensures SameMoments(a[..|a| - 1], b[..|b| - 1])
  {
    var p, q := a[..|a| - 1], b[..|b| - 1];
    forall x
      ensures Busy(p, x) <==> Busy(q, x)
    {
      BusyInLast(a, x);
      BusyInLast(b, x);
      BusyBefore(a, x);
      BusyBefore(b, x);
      assert Busy(a, x) <==> Busy(b, x);
    }
  }

  /** There is one way to write a set of moments as separated intervals. */
  lemma {:induction false} UnionIsUnique(a: seq<Interval>, b: seq<Interval>)
    requires Separated(a) && Separated(b) && SameMoments(a, b)
    ensures a == b
  {
    if a == [] {
      NothingBusy(a, b);
    } else if b == [] {
      NothingBusy(b, a);
    } else {
      SameEnd(a, b);
      StartNotAfter(a, b);
      StartNotAfter(b, a);
      SameFront(a, b);
      UnionIsUnique(a[..|a| - 1], b[..|b| - 1]);
      assert a == a[..|a| - 1] + [a[|a| - 1]] && b == b[..|b| - 1] + [b[|b| - 1]];
    }
  }

  /** The duration depends on the covered moments alone: not on the order of
      the intervals, nor on how they overlap. */
  lemma DurationIsUnique(s: seq<Interval>, t: seq<Interval>, d: real, e: real)
    requires SameMoments(s, t) && IsDuration(s, d) && IsDuration(t, e)
    ensures d == e
  {
    var a :| IsUnion(a, s) && Length(a) == d;
    var b :| IsUnion(b, t) && Length(b) == e;
    forall x
      ensures Busy(a, x) <==> Busy(b, x)
    {
      assert (Busy(a, x) <==> Busy(s, x)) && (Busy(s, x) <==> Busy(t, x));
    }
    UnionIsUnique(a, b);
  }

  lemma SameIntervals(s: seq<Interval>, t: seq<Interval>)
    requires multiset(s) == multiset(t)
    ensures SameMoments(s, t)
  {
    SameElements(s, t);
    forall x
      ensures Busy(s, x) <==> Busy(t, x)
    {
      BusyMember(s, x);
      BusyMember(t, x);
    }
  }

  lemma BusyMember(s: seq<Interval>, x: real)
    ensures Busy(s, x) <==> exists i :: i in s && During(i, x)
  {
    if i :| i in s && During(i, x) {
      var k :| 0 <= k < |s| && s[k] == i;
    }
  }

  // ----- bounds -----

  lemma {:induction false} LengthWithin(s: seq<Interval>, lo: real)
    requires Separated(s) && s != [] && forall i | i in s :: lo <= i.start
    ensures 0.0 <= Length(s) <= s[|s| - 1].finish - lo
  {
    var front, last := s[..|s| - 1], s[|s| - 1];
    assert last in s;
    if front != [] {
      LengthWithin(front, lo);
      assert s[|front| - 1] == front[|front| - 1];
    }
  }

  /** A chip is never busy for longer than the window its intervals lie in. */
  lemma DurationWithin(s: seq<Interval>, d: real, lo: real, hi: real)
    requires IsDuration(s, d) && lo <= hi && forall i | i in s :: lo <= i.start && i.finish <= hi
    ensures 0.0 <= d <= hi - lo
  {
    var blocks :| IsUnion(blocks, s) && Length(blocks) == d;
    if blocks != [] {
      forall b | b in blocks
        ensures lo <= b.start && b.finish <= hi
      {
        var k :| 0 <= k < |blocks| && blocks[k] == b;
        assert During(b, b.start) && During(b, b.finish);
        assert Busy(blocks, b.start) && Busy(blocks, b.finish);
        assert Busy(s, b.start) && Busy(s, b.finish);
      }
      LengthWithin(blocks, lo);
      assert blocks[|blocks| - 1] in blocks;
    }
  }

  lemma {:induction false} LengthJoin(a: seq<Interval>, b: seq<Interval>)
    ensures Length(a + b) == Length(a) + Length(b)
  {
    if b == [] {
      assert a + b == a;
    } else {
      assert (a + b)[..|a + b| - 1] == a + b[..|b| - 1];
      LengthJoin(a, b[..|b| - 1]);
    }
  }

  lemma {:induction false} LengthInsert(x: Interval, s: seq<Interval>)
    ensures Length(Insert(ByTime(), x, s)) == Length(s) + Length([x])
  {
    LengthJoin([x], s);
    if s != [] && !ByTime()(x, s[0]) {
      LengthInsert(x, s[1..]);
      assert s == [s[0]] + s[1..];
      LengthJoin([s[0]], s[1..]);
      LengthJoin([s[0]], Insert(ByTime(), x, s[1..]));
    }
  }

  lemma {:induction false} LengthSort(s: seq<Interval>)
    ensures Length(Sort(ByTime(), s)) == Length(s)
  {
    if s != [] {
      LengthSort(s[1..]);
      LengthInsert(s[0], Sort(ByTime(), s[1..]));
      assert s == [s[0]] + s[1..];
      LengthJoin([s[0]], s[1..]);
    }
  }

  // ----- merging -----

  lemma Extended(blocks: seq<Interval>, cur: Interval, s: seq<Interval>, next: Interval)
    requires IsUnion(blocks + [cur], s) && cur.start <= next.start <= cur.finish && next.start <= next.finish
    ensures IsUnion(blocks + [Interval(cur.start, Max(cur.finish, next.finish))], s + [next])
  {
    var was, now := blocks + [cur], blocks + [Interval(cur.start, Max(cur.finish, next.finish))];
    assert was[..|blocks|] == blocks == now[..|blocks|] && (s + [next])[..|s|] == s;
    forall i, j | 0 <= i < j < |now|
      ensures now[i].finish < now[j].start
    {
      assert was[i].finish < was[j].start;
    }
    assert cur in was;
    forall i | i in now
      ensures i.start <= i.finish
    {
      if i in blocks { assert i in was; }
    }
    forall x
      ensures Busy(now, x) <==> Busy(s + [next], x)
    {
      BusyInLast(was, x);
      BusyInLast(now, x);
      BusyInLast(s + [next], x);
      assert Busy(was, x) <==> Busy(s, x);
    }
  }

  lemma Appended(blocks: seq<Interval>, s: seq<Interval>, next: Interval)
    requires IsUnion(blocks, s) && next.start <= next.finish && forall b | b in blocks :: b.finish < next.start
    ensures IsUnion(blocks + [next], s + [next])
  {
    var now := blocks + [next];
    assert now[..|blocks|] == blocks && (s + [next])[..|s|] == s;
    forall x
      ensures Busy(now, x) <==> Busy(s + [next], x)
    {
      BusyInLast(now, x);
      BusyInLast(s + [next], x);
      assert Busy(blocks, x) <==> Busy(s, x);
    }
  }

  lemma LastIsLatest(s: seq<Interval>)
    requires Separated(s) && s != []
    ensures forall b | b in s :: b.finish <= s[|s| - 1].finish
  {
    assert s[|s| - 1] in s;
  }

  lemma LengthSnoc(s: seq<Interval>, i: Interval)
    ensures Length(s + [i]) == Length(s) + i.finish - i.start
  {
    assert (s + [i])[..|s|] == s;
  }

  lemma ByTimeIsOrder()
    ensures IsOrder(ByTime())
  {
  }

  lemma SingleUnion(i: Interval)
    requires i.start <= i.finish
    ensures IsUnion([i], [i])
  {
  }

  /** The loop's state after the intervals s: finished blocks of the given
      total length, and one block still open. */
  ghost predicate MergingFacts(s: seq<Interval>, blocks: seq<Interval>, open: Interval, total: real) {
    && s != [] && open.start <= s[|s| - 1].start
    && IsUnion(blocks + [open], s)
    && total == Length(blocks) && total + open.finish - open.start <= Length(s)
  }

  ghost predicate Merging(s: seq<Interval>, blocks: seq<Interval>, open: Interval, total: real) {
    forall t {:trigger MergingFacts(t, blocks, open, total)} | t == s :: MergingFacts(t, blocks, open, total)
  }

  lemma MergeNext(s: seq<Interval>, blocks: seq<Interval>, open: Interval, total: real, next: Interval)
    requires s != [] && Merging(s, blocks, open, total) && next.start <= next.finish && Earlier(s[|s| - 1], next)
    ensures next.start <= open.finish ==>
      Merging(s + [next], blocks, Interval(open.start, Max(open.finish, next.finish)), total)
    ensures next.start > open.finish ==>
      Merging(s + [next], blocks + [open], next, total + open.finish - open.start)
  {
    assert MergingFacts(s, blocks, open, total);
    LengthSnoc(s, next);
    if next.start <= open.finish {
      Extended(blocks, open, s, next);
    } else {
      LastIsLatest(blocks + [open]);
      Appended(blocks + [open], s, next);
      LengthSnoc(blocks, open);
    }
  }

  lemma MergeFirst(i: Interval)
    requires i.start <= i.finish
    ensures Merging([i], [], i, 0.0)
  {
    SingleUnion(i);
    LengthSnoc([], i);
    assert [] + [i] == [i];
  }

  lemma MergeDone(s: seq<Interval>, blocks: seq<Interval>, open: Interval, total: real, intervals: seq<Interval>)
    requires Merging(s, blocks, open, total) && multiset(s) == multiset(intervals) && Length(s) == Length(intervals)
    ensures IsDuration(intervals, total + open.finish - open.start)
    ensures total + open.finish - open.start <= Length(intervals)
  {
    assert MergingFacts(s, blocks, open, total);
    LengthSnoc(blocks, open);
    SameIntervals(s, intervals);
    UnionOf(blocks + [open], s, intervals);
  }

  ghost predicate Follows(s: seq<Interval>, k: nat) {
    0 < k < |s| && s[k].start <= s[k].finish && Earlier(s[k - 1], s[k])
  }

  lemma InTime(intervals: seq<Interval>)
    requires Proper(intervals)
    ensures var ordered := Sort(ByTime(), intervals);
      && |ordered| == |intervals| && (ordered != [] ==> ordered[0].start <= ordered[0].finish)
      && forall k: nat {:trigger Follows(ordered, k)} | 0 < k < |ordered| :: Follows(ordered, k)
  {
    var ordered := Sort(ByTime(), intervals);
    ByTimeIsOrder();
    SortAscends(ByTime(), intervals);
    SameElements(ordered, intervals);
    forall k: nat | 0 < k < |ordered|
      ensures Follows(ordered, k)
    {
      assert ordered[k] in ordered && ByTime()(ordered[k - 1], ordered[k]);
    }
  }

  lemma Idle()
    ensures IsDuration([], 0.0)
  {
    assert IsUnion([], []) && Length([]) == 0.0;
  }

  function InTimeOrder(intervals: seq<Interval>): (s: seq<Interval>)
    requires Proper(intervals)
    ensures multiset(s) == multiset(intervals)
    ensures |s| == |intervals| && (s != [] ==> s[0].start <= s[0].finish)
    ensures forall k: nat {:trigger Follows(s, k)} | 0 < k < |s| :: Follows(s, k)
    ensures Length(s) == Length(intervals)
  {
    InTime(intervals);
    LengthSort(intervals);
    Sort(ByTime(), intervals)
  }

  /** `_merged_duration`: the length of the union, never more than the lengths
      of the intervals together. */
  method MergedDuration(intervals: seq<Interval>) returns (total: real)
    requires Proper(intervals)
    ensures IsDuration(intervals, total) && total <= Length(intervals)
  {
    if intervals == [] {
      Idle();
      return 0.0;
    }
    var ordered := InTimeOrder(intervals);
    var start, finish := ordered[0].start, ordered[0].finish;
    total := 0.0;
    ghost var blocks: seq<Interval> := [];
    MergeFirst(ordered[0]);
    assert ordered[..1] == [ordered[0]];
    var k := 1;
    while k < |ordered|
      invariant 1 <= k <= |ordered|
      invariant Merging(ordered[..k], blocks, Interval(start, finish), total)
    {
      var next := ordered[k];
      assert ordered[..k + 1] == ordered[..k] + [next] && Follows(ordered, k);
      MergeNext(ordered[..k], blocks, Interval(start, finish), total, next);
      if next.start <= finish {
        finish := Max(finish, next.finish);
      } else {
        blocks := blocks + [Interval(start, finish)];
        total := total + finish - start;
        start, finish := next.start, next.finish;
      }
      k := k + 1;
    }
    assert ordered[..k] == ordered;
    MergeDone(ordered, blocks, Interval(start, finish), total, intervals);
    total := total + finish - start;
  }

  lemma UnionOf(blocks: seq<Interval>, s: seq<Interval>, t: seq<Interval>)
    requires IsUnion(blocks, s) && SameMoments(s, t)
    ensures IsUnion(blocks, t)
  {
    forall x
      ensures Busy(blocks, x) <==> Busy(t, x)
    {
      assert Busy(s, x) <==> Busy(t, x);
    }
  }
}
