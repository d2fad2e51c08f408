/** Every iteration keeps the scheduler consistent and leaves less to do. */
module ServingRuns {
  import opened Basics
  import opened ServingModel
  import opened ServingSteps

  predicate Begun(reqs: Requests, id: Rid) {
    id in reqs && reqs[id].startPrefill.Some?
  }

  /** Requests and queues agree; service is first come, first served; no time
      lies ahead of its clock. */
  ghost predicate Consistent(reqs: Requests, order: seq<Rid>, admitted: seq<Rid>, pending: seq<Rid>, pfReady: real, now: real) {
    && QueuesOk(reqs, order, admitted, pending) && InOrderServed(reqs, admitted)
    && (forall id {:trigger Begun(reqs, id)} | id in admitted :: Begun(reqs, id))
    && (forall id {:trigger FirstBy(reqs, id, pfReady)} | id in reqs.Keys :: FirstBy(reqs, id, pfReady))
    && (forall id {:trigger StartedBy(reqs, id, now)} | id in reqs.Keys :: StartedBy(reqs, id, now))
  }

  lemma AdmittedKnown(reqs: Requests, order: seq<Rid>, admitted: seq<Rid>, pending: seq<Rid>)
    requires QueuesOk(reqs, order, admitted, pending)
    ensures forall id | id in admitted :: id in reqs.Keys && id !in pending
    ensures forall id | id in pending :: id in reqs.Keys
  {
    forall id | id in admitted
      ensures id in reqs.Keys && id !in pending
    {
      var i :| 0 <= i < |admitted| && admitted[i] == id;
      assert order[i] == id && OnRoster(reqs.Keys, order, id);
      forall j | 0 <= j < |pending|
        ensures pending[j] != id
      {
        assert order[|admitted| + j] == pending[j] && Differ(order, i, |admitted| + j);
      }
    }
    forall id | id in pending
      ensures id in reqs.Keys
    {
      assert id in order && OnRoster(reqs.Keys, order, id);
    }
  }

  lemma AdmittedDistinct(reqs: Requests, order: seq<Rid>, admitted: seq<Rid>, pending: seq<Rid>)
    requires QueuesOk(reqs, order, admitted, pending)
    ensures forall i, j | 0 <= i < j < |admitted| :: admitted[i] != admitted[j]
  {
    forall i, j | 0 <= i < j < |admitted|
      ensures admitted[i] != admitted[j]
    {
      assert order[i] == admitted[i] && order[j] == admitted[j] && Differ(order, i, j);
    }
  }

  lemma {:induction false} IncompleteDistinct(reqs: Requests, q: seq<Rid>)
    requires forall i, j | 0 <= i < j < |q| :: q[i] != q[j]
    ensures forall i, j | 0 <= i < j < |Incomplete(reqs, q)| :: Incomplete(reqs, q)[i] != Incomplete(reqs, q)[j]
  {
    if q != [] {
      var p := q[..|q| - 1];
      IncompleteDistinct(reqs, p);
      IncompleteMembers(reqs, p);
      assert q[|q| - 1] !in p;
    }
  }

  // ----- prefill -----

  /** What the planner selects for prefill, by position. */
  predicate Selected(reqs: Requests, reqs': Requests, need: seq<Rid>, batch: seq<Take>, end: real, k: nat) {
    && k < |need| && k < |batch| && need[k] in reqs && need[k] in reqs' && batch[k].id == need[k]
    && 0 < batch[k].tokens <= Rest(reqs, need[k]) && (k + 1 < |batch| ==> batch[k].tokens == Rest(reqs, need[k]))
    && reqs'[need[k]] == AfterPrefill(reqs[need[k]], batch[k].tokens, end)
  }

  /** reqs' is reqs after the first |batch| of need got their tokens. */
  ghost predicate Prefills(reqs: Requests, reqs': Requests, need: seq<Rid>, batch: seq<Take>, end: real) {
    && reqs'.Keys == reqs.Keys && |batch| <= |need|
    && (forall id | id in reqs.Keys && id !in need[..|batch|] :: reqs'[id] == reqs[id])
    && (forall k: nat {:trigger Selected(reqs, reqs', need, batch, end, k)} | k < |batch| :: Selected(reqs, reqs', need, batch, end, k))
  }

  lemma SharedPrefills(reqs: Requests, need: seq<Rid>, batch: seq<Take>, end: real)
    requires |batch| <= |need| && (forall k: nat {:trigger ShareOk(reqs, need, batch, k)} | k < |batch| :: ShareOk(reqs, need, batch, k))
    requires (forall id | id in need :: id in reqs) && forall i, j | 0 <= i < j < |need| :: need[i] != need[j]
    ensures forall k {:trigger batch[k]} | 0 <= k < |batch| :: batch[k].id in reqs
    ensures Prefills(reqs, PrefillAll(reqs, batch, end), need, batch, end)
  {
    forall k: nat | k < |batch|
      ensures batch[k].id == need[k] && need[k] in reqs
    {
      assert ShareOk(reqs, need, batch, k);
      assert need[k] in need;
    }
    PrefillEffect(reqs, batch, end);
    var reqs' := PrefillAll(reqs, batch, end);
    forall k: nat | k < |batch|
      ensures Selected(reqs, reqs', need, batch, end, k)
    {
      assert ShareOk(reqs, need, batch, k) && GetsShare(reqs, reqs', batch, end, k);
    }
    forall id | id in reqs.Keys && id !in need[..|batch|]
      ensures reqs'[id] == reqs[id]
    {
      assert forall k | 0 <= k < |batch| :: need[..|batch|][k] == batch[k].id;
      assert !InBatch(batch, id);
    }
  }

  lemma PlannedPrefills(reqs: Requests, order: seq<Rid>, admitted: seq<Rid>, pending: seq<Rid>, budget: int, room: int, end: real)
    requires QueuesOk(reqs, order, admitted, pending)
    ensures var need := Incomplete(reqs, admitted);
      var batch := Planned(reqs, need, budget, room);
      && (forall k {:trigger batch[k]} | 0 <= k < |batch| :: batch[k].id in reqs)
      && Prefills(reqs, PrefillAll(reqs, batch, end), need, batch, end)
  {
    var need := Incomplete(reqs, admitted);
    AdmittedKnown(reqs, order, admitted, pending);
    AdmittedDistinct(reqs, order, admitted, pending);
    IncompleteDistinct(reqs, admitted);
    IncompleteMembers(reqs, admitted);
    PlannedShape(reqs, need, budget, room);
    SharedPrefills(reqs, need, Planned(reqs, need, budget, room), end);
  }

  /** How one request changes in a prefill. */
  predicate Changes(reqs: Requests, reqs': Requests, id: Rid, end: real) {
    && id in reqs && id in reqs'
    && (reqs'[id] == reqs[id] ||
        exists tokens: nat :: 0 < tokens <= Rest(reqs, id) && reqs'[id] == AfterPrefill(reqs[id], tokens, end))
  }

  lemma PrefillChanges(reqs: Requests, reqs': Requests, need: seq<Rid>, batch: seq<Take>, end: real, id: Rid)
    requires Prefills(reqs, reqs', need, batch, end) && id in reqs
    ensures Changes(reqs, reqs', id, end) && (id !in need ==> reqs'[id] == reqs[id])
  {
    if id in need[..|batch|] {
      var k :| 0 <= k < |batch| && need[..|batch|][k] == id;
      assert Selected(reqs, reqs', need, batch, end, k) && need[k] in need;
    }
  }

  /** Whoever is touched in a prefill, all admitted before are full after it. */
  lemma EarlierAreFull(reqs: Requests, reqs': Requests, order: seq<Rid>, admitted: seq<Rid>, pending: seq<Rid>, batch: seq<Take>,
                       end: real, i: nat, j: nat)
    requires QueuesOk(reqs, order, admitted, pending) && InOrderServed(reqs, admitted)
    requires Prefills(reqs, reqs', Incomplete(reqs, admitted), batch, end) && i < j < |admitted|
    requires admitted[j] in reqs' && reqs'[admitted[j]].prefilled > 0
    ensures admitted[i] in reqs' && Full(reqs'[admitted[i]])
  {
    var need := Incomplete(reqs, admitted);
    AdmittedKnown(reqs, order, admitted, pending);
    AdmittedDistinct(reqs, order, admitted, pending);
    var a, b := admitted[i], admitted[j];
    assert a in admitted && b in admitted;
    PrefillChanges(reqs, reqs', need, batch, end, a);
    if !Full(reqs[a]) {
      assert Served(reqs, admitted, i, j);
      assert b in need[..|batch|];
      var k :| 0 <= k < |batch| && need[..|batch|][k] == b;
      assert Sane(reqs, a);
      var m := IncompleteOrder(reqs, admitted, i, j, k);
      assert Selected(reqs, reqs', need, batch, end, m);
    }
  }

  lemma PrefillKeepsOrder(reqs: Requests, reqs': Requests, order: seq<Rid>, admitted: seq<Rid>, pending: seq<Rid>, batch: seq<Take>,
                          pfReady: real, now: real, end: real)
    requires Consistent(reqs, order, admitted, pending, pfReady, now) && pfReady <= end
    requires Prefills(reqs, reqs', Incomplete(reqs, admitted), batch, end)
    requires forall id {:trigger Sane(reqs', id)} | id in reqs'.Keys :: Sane(reqs', id)
    ensures InOrderServed(reqs', admitted)
  {
    AdmittedKnown(reqs, order, admitted, pending);
    forall i: nat, j: nat | i < j < |admitted|
      ensures Served(reqs', admitted, i, j)
    {
      var a, b := admitted[i], admitted[j];
      assert a in admitted && b in admitted && Served(reqs, admitted, i, j);
      assert Sane(reqs, b) && Sane(reqs', a) && Sane(reqs', b) && FirstBy(reqs, a, pfReady);
      PrefillChanges(reqs, reqs', Incomplete(reqs, admitted), batch, end, a);
      PrefillChanges(reqs, reqs', Incomplete(reqs, admitted), batch, end, b);
      if reqs'[b].prefilled > 0 {
        EarlierAreFull(reqs, reqs', order, admitted, pending, batch, end, i, j);
      }
    }
  }

  lemma PrefillKeepsQueues(reqs: Requests, reqs': Requests, order: seq<Rid>, admitted: seq<Rid>, pending: seq<Rid>, batch: seq<Take>,
                           pfReady: real, now: real, end: real)
    requires Consistent(reqs, order, admitted, pending, pfReady, now) && pfReady <= end && now <= end
    requires Prefills(reqs, reqs', Incomplete(reqs, admitted), batch, end)
    ensures QueuesOk(reqs', order, admitted, pending)
    ensures forall id {:trigger Changes(reqs, reqs', id, end)} | id in reqs.Keys ::
      Changes(reqs, reqs', id, end) && Left(reqs'[id]) <= Left(reqs[id])
  {
    var need := Incomplete(reqs, admitted);
    AdmittedKnown(reqs, order, admitted, pending);
    IncompleteMembers(reqs, admitted);
    forall id | id in reqs.Keys
      ensures Sane(reqs', id) && Changes(reqs, reqs', id, end) && Left(reqs'[id]) <= Left(reqs[id])
    {
      assert Sane(reqs, id);
      PrefillChanges(reqs, reqs', need, batch, end, id);
      if id in need {
        assert Begun(reqs, id) && StartedBy(reqs, id, now);
        if reqs'[id] != reqs[id] {
          var tokens: nat :| 0 < tokens <= Rest(reqs, id) && reqs'[id] == AfterPrefill(reqs[id], tokens, end);
          PrefillKeepsRequest(reqs[id], tokens, end);
        }
      }
    }
    forall id | id in pending
      ensures Waiting(reqs', id)
    {
      assert Waiting(reqs, id) && id in order;
      PrefillChanges(reqs, reqs', need, batch, end, id);
    }
  }

  /** A prefill keeps everything, finishes nobody and leaves less to do. */
  lemma PrefillKeeps(reqs: Requests, reqs': Requests, order: seq<Rid>, admitted: seq<Rid>, pending: seq<Rid>, batch: seq<Take>,
                     pfReady: real, now: real, end: real)
    requires Consistent(reqs, order, admitted, pending, pfReady, now) && pfReady <= end && now <= end
    requires Prefills(reqs, reqs', Incomplete(reqs, admitted), batch, end)
    ensures Consistent(reqs', order, admitted, pending, end, now)
    ensures forall id {:trigger FinishesMore(reqs, reqs', id)} | id in reqs.Keys ::
      FinishesMore(reqs, reqs', id) && reqs'[id].finish == reqs[id].finish
    ensures batch != [] ==> Work(reqs') < Work(reqs)
  {
    PrefillKeepsQueues(reqs, reqs', order, admitted, pending, batch, pfReady, now, end);
    PrefillKeepsOrder(reqs, reqs', order, admitted, pending, batch, pfReady, now, end);
    forall id | id in reqs.Keys
      ensures FinishesMore(reqs, reqs', id) && reqs'[id].finish == reqs[id].finish && FirstBy(reqs', id, end) && StartedBy(reqs', id, now)
      ensures Begun(reqs, id) ==> Begun(reqs', id)
    {
      assert Changes(reqs, reqs', id, end) && FirstBy(reqs, id, pfReady) && StartedBy(reqs, id, now);
    }
    AdmittedKnown(reqs, order, admitted, pending);
    if batch != [] {
      assert Selected(reqs, reqs', Incomplete(reqs, admitted), batch, end, 0);
      var id := batch[0].id;
      assert Sane(reqs, id);
      IncompleteMembers(reqs, admitted);
      assert Incomplete(reqs, admitted)[0] in admitted;
      assert Begun(reqs, id) && StartedBy(reqs, id, now);
      PrefillKeepsRequest(reqs[id], batch[0].tokens, end);
      forall x | x in reqs.Keys
        ensures Left(reqs'[x]) <= Left(reqs[x])
      {
        assert Changes(reqs, reqs', x, end);
      }
      LessWork(reqs', reqs, id);
    }
  }

  // ----- decode -----

  ghost predicate Decodes(reqs: Requests, reqs': Requests, batch: seq<Rid>, end: real) {
    && reqs'.Keys == reqs.Keys && (forall id {:trigger Decodable(reqs, id)} | id in batch :: Decodable(reqs, id))
    && (forall id {:trigger DecodesTo(reqs, reqs', batch, end, id)} | id in reqs.Keys :: DecodesTo(reqs, reqs', batch, end, id))
  }

  predicate DecodesTo(reqs: Requests, reqs': Requests, batch: seq<Rid>, end: real, id: Rid) {
    && id in reqs && id in reqs'
    && reqs'[id] == if id in batch then AfterDecode(reqs[id], end) else reqs[id]
  }

  lemma DecodeKeepsQueues(reqs: Requests, reqs': Requests, order: seq<Rid>, admitted: seq<Rid>, pending: seq<Rid>, batch: seq<Rid>, end: real)
    requires QueuesOk(reqs, order, admitted, pending) && Decodes(reqs, reqs', batch, end)
    ensures QueuesOk(reqs', order, admitted, pending)
    ensures forall id {:trigger DecodesTo(reqs, reqs', batch, end, id)} | id in reqs.Keys ::
      Left(reqs'[id]) <= Left(reqs[id]) && (id in batch ==> Left(reqs'[id]) < Left(reqs[id]))
  {
    forall id | id in reqs.Keys
      ensures Sane(reqs', id) && Left(reqs'[id]) <= Left(reqs[id]) && (id in batch ==> Left(reqs'[id]) < Left(reqs[id]))
    {
      assert Sane(reqs, id) && DecodesTo(reqs, reqs', batch, end, id);
      if id in batch {
        assert Decodable(reqs, id);
        DecodeKeepsRequest(reqs[id], end);
      }
    }
    forall id | id in pending
      ensures Waiting(reqs', id)
    {
      assert Waiting(reqs, id) && DecodesTo(reqs, reqs', batch, end, id);
      assert id in batch ==> Decodable(reqs, id);
    }
  }

  /** A decode keeps everything and leaves less to do. */
  lemma DecodeKeeps(reqs: Requests, reqs': Requests, order: seq<Rid>, admitted: seq<Rid>, pending: seq<Rid>, batch: seq<Rid>,
                    pfReady: real, now: real, end: real)
    requires Consistent(reqs, order, admitted, pending, pfReady, now) && Decodes(reqs, reqs', batch, end)
    ensures Consistent(reqs', order, admitted, pending, pfReady, now)
    ensures forall id {:trigger FinishesMore(reqs, reqs', id)} | id in reqs.Keys :: FinishesMore(reqs, reqs', id)
    ensures batch != [] ==> Work(reqs') < Work(reqs)
  {
    DecodeKeepsQueues(reqs, reqs', order, admitted, pending, batch, end);
    AdmittedKnown(reqs, order, admitted, pending);
    forall id | id in reqs.Keys
      ensures FinishesMore(reqs, reqs', id) && FirstBy(reqs', id, pfReady) && StartedBy(reqs', id, now)
      ensures Begun(reqs, id) ==> Begun(reqs', id)
    {
      assert DecodesTo(reqs, reqs', batch, end, id) && FirstBy(reqs, id, pfReady) && StartedBy(reqs, id, now);
      assert id in batch ==> Decodable(reqs, id);
    }
    forall i: nat, j: nat | i < j < |admitted|
      ensures Served(reqs', admitted, i, j)
    {
      assert Served(reqs, admitted, i, j);
      assert DecodesTo(reqs, reqs', batch, end, admitted[i]) && DecodesTo(reqs, reqs', batch, end, admitted[j]);
    }
    if batch != [] {
      assert batch[0] in batch && Decodable(reqs, batch[0]);
      forall x | x in reqs.Keys
        ensures Left(reqs'[x]) <= Left(reqs[x])
      {
        assert DecodesTo(reqs, reqs', batch, end, x);
      }
      assert DecodesTo(reqs, reqs', batch, end, batch[0]);
      LessWork(reqs', reqs, batch[0]);
    }
  }

  // ----- admission -----

  lemma AdmitKeepsOrder(reqs: Requests, order: seq<Rid>, admitted: seq<Rid>, pending: seq<Rid>, pfReady: real, now: real)
    requires Consistent(reqs, order, admitted, pending, pfReady, now) && pending != [] && pending[0] in reqs
    ensures var id := pending[0];
      && order == (admitted + [id]) + pending[1..]
      && InOrderServed(reqs[id := reqs[id].(startPrefill := Some(now))], admitted + [id])
  {
    var id := pending[0];
    var reqs', admitted' := reqs[id := reqs[id].(startPrefill := Some(now))], admitted + [id];
    AdmittedKnown(reqs, order, admitted, pending);
    assert Waiting(reqs, id);
    assert order == admitted' + pending[1..];
    forall i: nat, j: nat | i < j < |admitted'|
      ensures Served(reqs', admitted', i, j)
    {
      if j < |admitted| { assert Served(reqs, admitted, i, j); }
      assert admitted[i] in admitted;
    }
  }

  lemma AdmitKeepsWaiting(reqs: Requests, order: seq<Rid>, admitted: seq<Rid>, pending: seq<Rid>, r: Request)
    requires QueuesOk(reqs, order, admitted, pending) && pending != []
    ensures forall x {:trigger Waiting(reqs[pending[0] := r], x)} | x in pending[1..] :: Waiting(reqs[pending[0] := r], x)
  {
    var rest := pending[1..];
    forall x | x in rest
      ensures Waiting(reqs[pending[0] := r], x)
    {
      var j :| 0 <= j < |rest| && rest[j] == x;
      assert pending[j + 1] == x && order[|admitted|] == pending[0] && order[|admitted| + 1 + j] == x;
      assert Differ(order, |admitted|, |admitted| + 1 + j);
      assert Waiting(reqs, x);
    }
  }

  /** Admitting changes one request, and only its start. */
  lemma AdmitChanges(reqs: Requests, order: seq<Rid>, admitted: seq<Rid>, pending: seq<Rid>, pfReady: real, now: real, x: Rid)
    requires Consistent(reqs, order, admitted, pending, pfReady, now) && pending != [] && pending[0] in reqs
    requires reqs[pending[0]].arrival <= now && x in reqs
    ensures var reqs' := reqs[pending[0] := reqs[pending[0]].(startPrefill := Some(now))];
      && Sane(reqs', x) && FirstBy(reqs', x, pfReady) && StartedBy(reqs', x, now) && (Begun(reqs, x) ==> Begun(reqs', x))
      && FinishesMore(reqs, reqs', x) && reqs'[x].finish == reqs[x].finish && Left(reqs'[x]) == Left(reqs[x])
  {
    assert Waiting(reqs, pending[0]);
    assert Sane(reqs, x) && FirstBy(reqs, x, pfReady) && StartedBy(reqs, x, now);
  }

  /** The next request in line is admitted. */
  lemma AdmitKeeps(reqs: Requests, order: seq<Rid>, admitted: seq<Rid>, pending: seq<Rid>, pfReady: real, now: real)
    requires Consistent(reqs, order, admitted, pending, pfReady, now) && pending != [] && pending[0] in reqs
    requires reqs[pending[0]].arrival <= now
    ensures var id := pending[0];
      var reqs' := reqs[id := reqs[id].(startPrefill := Some(now))];
      && Consistent(reqs', order, admitted + [id], pending[1..], pfReady, now) && Work(reqs') == Work(reqs)
      && (forall x {:trigger FinishesMore(reqs, reqs', x)} | x in reqs.Keys ::
            FinishesMore(reqs, reqs', x) && reqs'[x].finish == reqs[x].finish)
  {
    var id := pending[0];
    var reqs' := reqs[id := reqs[id].(startPrefill := Some(now))];
    assert reqs'.Keys == reqs.Keys;
    AdmitKeepsOrder(reqs, order, admitted, pending, pfReady, now);
    AdmitKeepsWaiting(reqs, order, admitted, pending, reqs[id].(startPrefill := Some(now)));
    AdmittedKnown(reqs, order, admitted, pending);
    forall x | x in reqs'.Keys
      ensures Sane(reqs', x) && FirstBy(reqs', x, pfReady) && StartedBy(reqs', x, now)
      ensures FinishesMore(reqs, reqs', x) && reqs'[x].finish == reqs[x].finish && Left(reqs'[x]) == Left(reqs[x])
    {
      AdmitChanges(reqs, order, admitted, pending, pfReady, now, x);
    }
    SameWork(reqs', reqs);
    forall x | x in admitted + [id]
      ensures Begun(reqs', x)
    {
      if x in admitted { assert Begun(reqs, x); }
    }
  }
}
