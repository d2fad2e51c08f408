/** One layer window: assignments bound to expert replicas, their transfers
    grouped into flows, and the state of its execution. */
module Layers {
  import opened Basics
  import opened FairShare
  import opened NetTopology
  import opened NetModel

  type AssignmentId = nat
  type ReplicaId = nat

  datatype Path = Path(src: EndpointId, dst: EndpointId, route: seq<LinkId>)

  /** An assignment bound to a replica, with the way out and the way back. */
  datatype Binding = Binding(token: nat, replica: ReplicaId, outbound: Path, inbound: Path)

  /** A partition of the assignments: `of` gives the group of each. */
  datatype Grouping = Grouping(groups: seq<seq<AssignmentId>>, of: seq<nat>)

  /** The static part of a layer run. `duration` is the predicted latency of
      the whole batch of a replica. */
  datatype Layer = Layer(
    bindings: seq<Binding>,
    chipOf: map<ReplicaId, ChipId>,
    duration: map<ReplicaId, real>,
    hiddenBytes: nat,
    start: real,
    reduceChip: bool,
    reduceLatency: real,
    outward: Grouping,
    inward: Grouping)

  predicate InGroup(grouping: Grouping, a: AssignmentId) {
    && a < |grouping.of| && grouping.of[a] < |grouping.groups|
    && a in grouping.groups[grouping.of[a]]
  }

  predicate ValidGroup(grouping: Grouping, g: nat)
    requires g < |grouping.groups|
  {
    && grouping.groups[g] != []
    && (forall i, j | 0 <= i < j < |grouping.groups[g]| :: grouping.groups[g][i] != grouping.groups[g][j])
    && forall a | a in grouping.groups[g] :: a < |grouping.of| && grouping.of[a] == g
  }

  predicate ValidGrouping(grouping: Grouping, count: nat) {
    && |grouping.of| == count
    && (forall a {:trigger InGroup(grouping, a)} | 0 <= a < count :: InGroup(grouping, a))
    && (forall g {:trigger ValidGroup(grouping, g)} | 0 <= g < |grouping.groups| :: ValidGroup(grouping, g))
  }

  predicate ValidPath(topo: Topology, path: Path) {
    && path.src in topo.endpoints.Keys && path.dst in topo.endpoints.Keys
    && forall l | l in path.route :: l in topo.links.Keys
  }

  predicate ValidBinding(topo: Topology, L: Layer, a: AssignmentId)
    requires a < |L.bindings|
  {
    var b := L.bindings[a];
    && b.replica in L.chipOf && b.replica in L.duration && L.duration[b.replica] > 0.0
    && ValidPath(topo, b.outbound) && ValidPath(topo, b.inbound)
  }

  predicate ValidLayer(topo: Topology, L: Layer) {
    && L.bindings != [] && L.start >= 0.0 && L.reduceLatency >= 0.0
    && (forall a {:trigger ValidBinding(topo, L, a)} | 0 <= a < |L.bindings| :: ValidBinding(topo, L, a))
    && ValidGrouping(L.outward, |L.bindings|) && ValidGrouping(L.inward, |L.bindings|)
    && (!L.reduceChip ==> forall h | 0 <= h < |L.inward.groups| :: |L.inward.groups[h]| == 1)
  }

  function ReplicaOf(L: Layer, a: AssignmentId): ReplicaId
    requires a < |L.bindings|
  {
    L.bindings[a].replica
  }

  /** The replicas that got at least one assignment. */
  function Replicas(L: Layer): set<ReplicaId> {
    set a | 0 <= a < |L.bindings| :: ReplicaOf(L, a)
  }

  /** The batch of a replica. */
  function Members(L: Layer, r: ReplicaId): set<AssignmentId> {
    set a: nat | 0 <= a < |L.bindings| && ReplicaOf(L, a) == r
  }

  function Chips(L: Layer): set<ChipId> {
    set r | r in Replicas(L) && r in L.chipOf.Keys :: L.chipOf[r]
  }

  // ----- flows -----

  function OutId(g: nat): FlowId { g }

  function BackId(L: Layer, h: nat): FlowId { |L.outward.groups| + h }

  /** The dispatch flow of a group takes the path of its first member. */
  function OutFlow(L: Layer, g: nat): Flow
    requires g < |L.outward.groups| && L.outward.groups[g] != [] && L.outward.groups[g][0] < |L.bindings|
  {
    var path := L.bindings[L.outward.groups[g][0]].outbound;
    Flow(OutId(g), path.src, path.dst, L.hiddenBytes, L.start, path.route)
  }

  function BackFlow(L: Layer, h: nat, release: real): Flow
    requires h < |L.inward.groups| && L.inward.groups[h] != [] && L.inward.groups[h][0] < |L.bindings|
  {
    var path := L.bindings[L.inward.groups[h][0]].inbound;
    Flow(BackId(L, h), path.src, path.dst, L.hiddenBytes, release, path.route)
  }

  lemma OutFlowIsValid(topo: Topology, L: Layer, g: nat)
    requires ValidLayer(topo, L) && g < |L.outward.groups|
    ensures L.outward.groups[g] != [] && L.outward.groups[g][0] < |L.bindings| && ValidFlow(topo, OutFlow(L, g))
  {
    assert ValidGroup(L.outward, g);
    assert L.outward.groups[g][0] in L.outward.groups[g];
    assert ValidBinding(topo, L, L.outward.groups[g][0]);
  }

  lemma BackFlowIsValid(topo: Topology, L: Layer, h: nat, release: real)
    requires ValidLayer(topo, L) && h < |L.inward.groups| && release >= 0.0
    ensures L.inward.groups[h] != [] && L.inward.groups[h][0] < |L.bindings| && ValidFlow(topo, BackFlow(L, h, release))
  {
    assert ValidGroup(L.inward, h);
    assert L.inward.groups[h][0] in L.inward.groups[h];
    assert ValidBinding(topo, L, L.inward.groups[h][0]);
  }

  // ----- state -----

  datatype Execution = Execution(chip: ChipId, count: nat, arrival: real, start: real, finish: real)

  // ----- greatest values -----

  ghost predicate IsMax(m: map<AssignmentId, real>, x: real) {
    (exists a | a in m.Keys :: m[a] == x) && forall a | a in m.Keys :: m[a] <= x
  }

  lemma {:induction false} MaxExists(m: map<AssignmentId, real>, s: set<AssignmentId>) returns (b: AssignmentId)
    requires s != {} && s <= m.Keys
    ensures b in s && forall a | a in s :: m[a] <= m[b]
    decreases s
  {
    b :| b in s;
    var rest := s - {b};
    assert s == rest + {b};
    if rest != {} {
      var d := MaxExists(m, rest);
      if m[d] > m[b] { b := d; }
    }
  }

  /** `max(values)`. */
  ghost function MaxOf(m: map<AssignmentId, real>): (x: real)
    requires m.Keys != {}
    ensures IsMax(m, x)
  {
    HasMax(m);
    var x :| IsMax(m, x);
    x
  }

  lemma HasMax(m: map<AssignmentId, real>)
    requires m.Keys != {}
    ensures exists x :: IsMax(m, x)
  {
    var b := MaxExists(m, m.Keys);
    assert IsMax(m, m[b]);
  }

  method MaxValue(m: map<AssignmentId, real>) returns (x: real)
    requires m.Keys != {}
    ensures x == MaxOf(m)
  {
    var first :| first in m.Keys;
    x := m[first];
    var todo := m.Keys - {first};
    while todo != {}
      invariant todo <= m.Keys
      invariant exists a | a in m.Keys :: m[a] == x
      invariant forall a | a in m.Keys - todo :: m[a] <= x
      decreases todo
    {
      var a :| a in todo;
      if m[a] > x { x := m[a]; }
      todo := todo - {a};
    }
    assert m.Keys - todo == m.Keys;
  }

  // ----- queues ordered by key -----

  predicate SortedKeys(q: seq<Key>) {
    forall i, j | 0 <= i < j < |q| :: NotAfter(q[i], q[j])
  }

  predicate DistinctIds(q: seq<Key>) {
    forall i, j | 0 <= i < j < |q| :: q[i].id != q[j].id
  }

  predicate Queued(q: seq<Key>, id: nat) {
    exists i :: 0 <= i < |q| && q[i].id == id
  }

  /** Append and sort. */
  function InsertKey(q: seq<Key>, k: Key): (r: seq<Key>)
    ensures |r| == |q| + 1
    ensures forall x :: x in r <==> x == k || x in q
  {
    if q == [] then [k]
    else if NotAfter(k, q[0]) then [k] + q
    else [q[0]] + InsertKey(q[1..], k)
  }

  lemma {:induction false} InsertKeepsSorted(q: seq<Key>, k: Key)
    requires SortedKeys(q)
    ensures SortedKeys(InsertKey(q, k))
  {
    if q != [] && !NotAfter(k, q[0]) {
      InsertKeepsSorted(q[1..], k);
      var r := InsertKey(q[1..], k);
      forall x | x in r
        ensures NotAfter(q[0], x)
      {
        if x != k {
          var i :| 0 <= i < |q[1..]| && q[1..][i] == x;
        }
      }
    }
  }

  lemma {:induction false} InsertKeepsIds(q: seq<Key>, k: Key)
    requires DistinctIds(q) && !Queued(q, k.id)
    ensures DistinctIds(InsertKey(q, k))
    ensures forall id :: Queued(InsertKey(q, k), id) <==> id == k.id || Queued(q, id)
  {
    if q != [] && !NotAfter(k, q[0]) {
      assert !Queued(q[1..], k.id);
      InsertKeepsIds(q[1..], k);
      var r := InsertKey(q[1..], k);
      forall x | x in r
        ensures x.id != q[0].id
      {
        if x != k {
          var i :| 0 <= i < |q[1..]| && q[1..][i] == x;
        }
      }
      QueuedInCons(q[0], r);
      QueuedInCons(q[0], q[1..]);
      assert [q[0]] + q[1..] == q;
    } else {
      QueuedInCons(k, q);
      assert q == [] ==> [k] + q == [k];
    }
  }

  lemma QueuedInCons(k: Key, q: seq<Key>)
    ensures forall id :: Queued([k] + q, id) <==> id == k.id || Queued(q, id)
  {
    forall id
      ensures Queued([k] + q, id) <==> id == k.id || Queued(q, id)
    {
      if Queued(q, id) {
        var i :| 0 <= i < |q| && q[i].id == id;
        assert ([k] + q)[i + 1].id == id;
      }
      if id == k.id { assert ([k] + q)[0].id == id; }
    }
  }

  lemma QueuedByMember(q: seq<Key>, k: Key)
    requires k in q
    ensures Queued(q, k.id)
  {
    var i :| 0 <= i < |q| && q[i] == k;
  }
}
