/** How accepted dispatch flows turn into ready batches. */
module LayerArrivals {
  import opened Basics
  import opened Layers

  type Arrivals = map<ReplicaId, map<AssignmentId, real>>
  type Queues = map<ChipId, seq<Key>>

  predicate Known(L: Layer, arrived: Arrivals, xs: seq<AssignmentId>) {
    forall i | 0 <= i < |xs| :: xs[i] < |L.bindings| && ReplicaOf(L, xs[i]) in arrived.Keys
  }

  /** Record the arrival of one assignment after the other. */
  function ArriveAll(L: Layer, arrived: Arrivals, xs: seq<AssignmentId>, t: real): (arrived': Arrivals)
    requires Known(L, arrived, xs)
    ensures arrived'.Keys == arrived.Keys
    decreases xs
  {
    if xs == [] then arrived else
    var r := ReplicaOf(L, xs[0]);
    ArriveAll(L, arrived[r := arrived[r][xs[0] := t]], xs[1..], t)
  }

  /** The assignments of `xs` that belong to the batch of r. */
  function BatchShare(L: Layer, xs: seq<AssignmentId>, r: ReplicaId): set<AssignmentId> {
    set a | a in xs && a < |L.bindings| && ReplicaOf(L, a) == r
  }

  lemma {:induction false} ArriveAllEffect(L: Layer, arrived: Arrivals, xs: seq<AssignmentId>, t: real, r: ReplicaId)
    requires Known(L, arrived, xs) && r in arrived
    ensures var arrived' := ArriveAll(L, arrived, xs, t);
      && arrived'[r].Keys == arrived[r].Keys + BatchShare(L, xs, r)
      && (forall a | a in arrived'[r].Keys :: arrived'[r][a] == if a in BatchShare(L, xs, r) then t else arrived[r][a])
      && (BatchShare(L, xs, r) == {} ==> arrived'[r] == arrived[r])
    decreases xs
  {
    if xs != [] {
      var q := ReplicaOf(L, xs[0]);
      var next := arrived[q := arrived[q][xs[0] := t]];
      ArriveAllEffect(L, next, xs[1..], t, r);
      assert BatchShare(L, xs, r) == BatchShare(L, xs[1..], r) + (if q == r then {xs[0]} else {});
    }
  }

  /** Every assignment of the batch of r has arrived. */
  predicate Full(L: Layer, arrived: Arrivals, r: ReplicaId) {
    r in arrived.Keys && arrived[r].Keys == Members(L, r)
  }

  lemma MembersNonEmpty(L: Layer, r: ReplicaId)
    requires r in Replicas(L)
    ensures Members(L, r) != {}
  {
    var a: nat :| 0 <= a < |L.bindings| && ReplicaOf(L, a) == r;
    assert a in Members(L, r);
  }

  /** Put the batch of r in the queue of its chip once it is complete. */
  ghost function EnqueueIfFull(L: Layer, arrived: Arrivals, ready: Queues, r: ReplicaId): (ready': Queues)
    requires r in Replicas(L) && r in L.chipOf && L.chipOf[r] in ready
    ensures ready'.Keys == ready.Keys
  {
    if Full(L, arrived, r) then
      MembersNonEmpty(L, r);
      ready[L.chipOf[r] := InsertKey(ready[L.chipOf[r]], Key(MaxOf(arrived[r]), r))]
    else ready
  }

  predicate Placed(L: Layer, chips: set<ChipId>, r: ReplicaId) {
    r in Replicas(L) && r in L.chipOf && L.chipOf[r] in chips
  }

  ghost function EnqueueAll(L: Layer, arrived: Arrivals, ready: Queues, rs: seq<ReplicaId>): (ready': Queues)
    requires forall i {:trigger rs[i]} | 0 <= i < |rs| :: Placed(L, ready.Keys, rs[i])
    ensures ready'.Keys == ready.Keys
    decreases rs
  {
    if rs == [] then ready else
    assert Placed(L, ready.Keys, rs[0]);
    EnqueueAll(L, arrived, EnqueueIfFull(L, arrived, ready, rs[0]), rs[1..])
  }

  /** The entry of a complete batch: its last arrival and its replica. */
  ghost predicate IsEntry(L: Layer, arrived: Arrivals, chip: ChipId, k: Key) {
    && k.id in Replicas(L) && k.id in L.chipOf && L.chipOf[k.id] == chip
    && Full(L, arrived, k.id) && arrived[k.id].Keys != {} && k.time == MaxOf(arrived[k.id])
  }

  ghost predicate QueueOk(L: Layer, arrived: Arrivals, chip: ChipId, q: seq<Key>) {
    && SortedKeys(q) && DistinctIds(q)
    && forall k {:trigger IsEntry(L, arrived, chip, k)} | k in q :: IsEntry(L, arrived, chip, k)
  }

  ghost predicate QueuesOk(L: Layer, arrived: Arrivals, ready: Queues) {
    forall chip {:trigger QueueOk(L, arrived, chip, ready[chip])} | chip in ready.Keys :: QueueOk(L, arrived, chip, ready[chip])
  }

  predicate QueuedOnChip(L: Layer, ready: Queues, r: ReplicaId) {
    r in L.chipOf && L.chipOf[r] in ready && Queued(ready[L.chipOf[r]], r)
  }

  lemma EnqueueKeeps(L: Layer, arrived: Arrivals, ready: Queues, r: ReplicaId)
    requires QueuesOk(L, arrived, ready) && Placed(L, ready.Keys, r) && !QueuedOnChip(L, ready, r)
    ensures QueuesOk(L, arrived, EnqueueIfFull(L, arrived, ready, r))
    ensures forall s | s in L.chipOf :: QueuedOnChip(L, EnqueueIfFull(L, arrived, ready, r), s) <==>
      QueuedOnChip(L, ready, s) || (s == r && Full(L, arrived, r))
  {
    var ready' := EnqueueIfFull(L, arrived, ready, r);
    if Full(L, arrived, r) {
      var chip, k := L.chipOf[r], Key(MaxOf(arrived[r]), r);
      MembersNonEmpty(L, r);
      assert QueueOk(L, arrived, chip, ready[chip]);
      InsertKeepsSorted(ready[chip], k);
      InsertKeepsIds(ready[chip], k);
      assert IsEntry(L, arrived, chip, k);
      forall x | x in ready'[chip]
        ensures IsEntry(L, arrived, chip, x)
      {
        assert x == k || IsEntry(L, arrived, chip, x);
      }
      forall other | other in ready'.Keys && other != chip
        ensures QueueOk(L, arrived, other, ready'[other])
      {
        assert QueueOk(L, arrived, other, ready[other]);
      }
    }
  }

  /** After a pass over distinct replicas that were not queued, exactly the
      complete ones among them have joined their queues. */
  lemma {:induction false} EnqueueAllKeeps(L: Layer, arrived: Arrivals, ready: Queues, rs: seq<ReplicaId>)
    requires QueuesOk(L, arrived, ready) && forall i {:trigger rs[i]} | 0 <= i < |rs| :: Placed(L, ready.Keys, rs[i]) && !QueuedOnChip(L, ready, rs[i])
    requires forall i, j | 0 <= i < j < |rs| :: rs[i] != rs[j]
    ensures QueuesOk(L, arrived, EnqueueAll(L, arrived, ready, rs))
    ensures forall s | s in L.chipOf :: QueuedOnChip(L, EnqueueAll(L, arrived, ready, rs), s) <==>
      QueuedOnChip(L, ready, s) || (s in rs && Full(L, arrived, s))
    decreases rs
  {
    if rs != [] {
      EnqueueKeeps(L, arrived, ready, rs[0]);
      EnqueueAllKeeps(L, arrived, EnqueueIfFull(L, arrived, ready, rs[0]), rs[1..]);
    }
  }
}
