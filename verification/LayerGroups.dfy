/** How assignments are grouped into flows. */
module LayerGroups {
  import opened Basics
  import opened Layers

  /** One flow per assignment, or one per token and chip with deduplication
      or reduction on the chip. */
  datatype GroupKey = Alone(a: AssignmentId) | PerChip(token: nat, chip: ChipId)

  function KeyOf(L: Layer, shared: bool, a: AssignmentId): GroupKey
    requires a < |L.bindings| && L.bindings[a].replica in L.chipOf
  {
    if shared then PerChip(L.bindings[a].token, L.chipOf[L.bindings[a].replica]) else Alone(a)
  }

  /** The groups collect the first `count` keys. */
  ghost predicate Collected(keys: seq<GroupKey>, count: nat, names: seq<GroupKey>, grouping: Grouping)
    requires count <= |keys|
  {
    && |grouping.of| == count && |names| == |grouping.groups|
    && (forall i, j | 0 <= i < j < |names| :: names[i] != names[j])
    && (forall a {:trigger InGroup(grouping, a)} | 0 <= a < count :: InGroup(grouping, a))
    && (forall a | 0 <= a < count :: grouping.of[a] < |names| && names[grouping.of[a]] == keys[a])
    && (forall g {:trigger ValidGroup(grouping, g)} | 0 <= g < |names| :: ValidGroup(grouping, g) && Ascending(grouping.groups[g]))
  }

  predicate Ascending(xs: seq<nat>) {
    forall i, j | 0 <= i < j < |xs| :: xs[i] < xs[j]
  }

  /** `setdefault(key, []).append(...)` over all assignments. */
  method MakeGroups(keys: seq<GroupKey>) returns (grouping: Grouping)
    ensures ValidGrouping(grouping, |keys|)
    ensures forall a, b | 0 <= a < |keys| && 0 <= b < |keys| :: grouping.of[a] == grouping.of[b] <==> keys[a] == keys[b]
    ensures forall g | 0 <= g < |grouping.groups| :: Ascending(grouping.groups[g])
  {
    var groups: seq<seq<AssignmentId>> := [];
    var of: seq<nat> := [];
    var index: map<GroupKey, nat> := map[];
    ghost var names: seq<GroupKey> := [];
    var a := 0;
    while a < |keys|
      invariant 0 <= a <= |keys| && Collected(keys, a, names, Grouping(groups, of))
      invariant forall k | k in index.Keys :: index[k] < |names| && names[index[k]] == k
      invariant forall g | 0 <= g < |names| :: names[g] in index.Keys
    {
      ghost var before := Grouping(groups, of);
      if keys[a] in index {
        var g := index[keys[a]];
        groups := groups[g := groups[g] + [a]];
        of := of + [g];
        JoinedGroup(keys, a, names, before, g);
      } else {
        index := index[keys[a] := |groups|];
        of := of + [|groups|];
        groups := groups + [[a]];
        NewGroup(keys, a, names, before);
        names := names + [keys[a]];
      }
      a := a + 1;
    }
    grouping := Grouping(groups, of);
    forall g | 0 <= g < |grouping.groups|
      ensures Ascending(grouping.groups[g])
    {
      assert ValidGroup(grouping, g);
    }
  }

  lemma JoinedGroup(keys: seq<GroupKey>, a: nat, names: seq<GroupKey>, before: Grouping, g: nat)
    requires a < |keys| && Collected(keys, a, names, before) && g < |names| && names[g] == keys[a]
    ensures Collected(keys, a + 1, names, Grouping(before.groups[g := before.groups[g] + [a]], before.of + [g]))
  {
    var after := Grouping(before.groups[g := before.groups[g] + [a]], before.of + [g]);
    forall h | 0 <= h < |names|
      ensures ValidGroup(after, h) && Ascending(after.groups[h])
    {
      assert ValidGroup(before, h);
      assert forall i | 0 <= i < |before.groups[h]| :: before.groups[h][i] in before.groups[h];
    }
    forall b | 0 <= b < a + 1
      ensures InGroup(after, b)
    {
      if b < a { assert InGroup(before, b); }
    }
  }

  lemma NewGroup(keys: seq<GroupKey>, a: nat, names: seq<GroupKey>, before: Grouping)
    requires a < |keys| && Collected(keys, a, names, before) && forall g | 0 <= g < |names| :: names[g] != keys[a]
    ensures Collected(keys, a + 1, names + [keys[a]], Grouping(before.groups + [[a]], before.of + [|names|]))
  {
    var after := Grouping(before.groups + [[a]], before.of + [|names|]);
    forall h | 0 <= h < |names| + 1
      ensures ValidGroup(after, h) && Ascending(after.groups[h])
    {
      if h < |names| { assert ValidGroup(before, h); }
    }
    forall b | 0 <= b < a + 1
      ensures InGroup(after, b)
    {
      if b < a { assert InGroup(before, b); }
    }
  }

  /** Without sharing, every group is one assignment. */
  lemma AloneGroups(L: Layer, grouping: Grouping, g: nat)
    requires ValidGrouping(grouping, |L.bindings|) && g < |grouping.groups|
    requires forall a | 0 <= a < |L.bindings| :: L.bindings[a].replica in L.chipOf
    requires forall a, b | 0 <= a < |L.bindings| && 0 <= b < |L.bindings| ::
      grouping.of[a] == grouping.of[b] <==> KeyOf(L, false, a) == KeyOf(L, false, b)
    ensures |grouping.groups[g]| == 1
  {
    assert ValidGroup(grouping, g);
    var xs := grouping.groups[g];
    forall i | 0 <= i < |xs|
      ensures xs[i] == xs[0]
    {
      assert xs[0] in xs && xs[i] in xs;
      assert KeyOf(L, false, xs[0]) == KeyOf(L, false, xs[i]);
    }
    assert xs[|xs| - 1] == xs[0];
  }

  /** With sharing, assignments are together exactly when they are the same
      token for the same chip. */
  lemma SharedGroups(L: Layer, keys: seq<GroupKey>, grouping: Grouping, a: AssignmentId, b: AssignmentId)
    requires a < |L.bindings| == |keys| && b < |L.bindings| && |grouping.of| == |keys|
    requires forall x | 0 <= x < |L.bindings| :: L.bindings[x].replica in L.chipOf && keys[x] == KeyOf(L, true, x)
    requires forall x, y | 0 <= x < |keys| && 0 <= y < |keys| :: grouping.of[x] == grouping.of[y] <==> keys[x] == keys[y]
    ensures grouping.of[a] == grouping.of[b] <==>
      L.bindings[a].token == L.bindings[b].token && L.chipOf[L.bindings[a].replica] == L.chipOf[L.bindings[b].replica]
  {
    assert keys[a] == KeyOf(L, true, a) && keys[b] == KeyOf(L, true, b);
  }
}
