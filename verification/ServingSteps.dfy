/** Prefill and decode iterations: what is planned and what it changes. */
module ServingSteps {
  import opened Basics
  import opened ServingModel

  // ----- planning a prefill -----

  function Rest(reqs: Requests, id: Rid): nat {
    if id in reqs && reqs[id].prefilled <= reqs[id].prompt then reqs[id].prompt - reqs[id].prefilled else 0
  }

  /** Those of q that still have prompt tokens to prefill. */
  function Incomplete(reqs: Requests, q: seq<Rid>): seq<Rid> {
    if q == [] then [] else
    Incomplete(reqs, q[..|q| - 1]) + (if Rest(reqs, q[|q| - 1]) > 0 then [q[|q| - 1]] else [])
  }

  /** Tokens go to the queue from the front until the budget or the room for
      requests is spent. */
  function Planned(reqs: Requests, q: seq<Rid>, budget: int, room: int): seq<Take> {
    if q == [] || Rest(reqs, q[0]) == 0 || budget <= 0 then [] else
    var take := if Rest(reqs, q[0]) < budget then Rest(reqs, q[0]) else budget;
    [Take(q[0], take)] + (if budget - take <= 0 || room - 1 <= 0 then [] else Planned(reqs, q[1..], budget - take, room - 1))
  }

  function Tokens(batch: seq<Take>): nat {
    if batch == [] then 0 else batch[0].tokens + Tokens(batch[1..])
  }

  /** The k-th share goes to the k-th request; all but the last are complete. */
  predicate ShareOk(reqs: Requests, q: seq<Rid>, batch: seq<Take>, k: nat) {
    && k < |batch| && k < |q| && batch[k].id == q[k]
    && 0 < batch[k].tokens <= Rest(reqs, q[k]) && (k + 1 < |batch| ==> batch[k].tokens == Rest(reqs, q[k]))
  }

  lemma {:induction false} PlannedShape(reqs: Requests, q: seq<Rid>, budget: int, room: int)
    ensures var batch := Planned(reqs, q, budget, room);
      && |batch| <= |q| && (forall k: nat {:trigger ShareOk(reqs, q, batch, k)} | k < |batch| :: ShareOk(reqs, q, batch, k))
      && (budget >= 0 ==> Tokens(batch) <= budget)
      && (q != [] && Rest(reqs, q[0]) > 0 && budget > 0 ==> batch != [])
  {
    var batch := Planned(reqs, q, budget, room);
    if batch != [] {
      var take, rest := batch[0].tokens, batch[1..];
      if rest != [] {
        PlannedShape(reqs, q[1..], budget - take, room - 1);
      }
      forall k: nat | k < |batch|
        ensures ShareOk(reqs, q, batch, k)
      {
        if k > 0 { assert ShareOk(reqs, q[1..], rest, k - 1); }
      }
    }
  }

  lemma {:induction false} IncompleteMembers(reqs: Requests, q: seq<Rid>)
    ensures forall id :: id in Incomplete(reqs, q) <==> id in q && Rest(reqs, id) > 0
    ensures forall k {:trigger Incomplete(reqs, q)[k]} | 0 <= k < |Incomplete(reqs, q)| :: Rest(reqs, Incomplete(reqs, q)[k]) > 0
  {
    if q != [] {
      IncompleteMembers(reqs, q[..|q| - 1]);
      assert q == q[..|q| - 1] + [q[|q| - 1]];
    }
  }

  /** Selecting keeps the order. */
  lemma {:induction false} IncompleteOrder(reqs: Requests, q: seq<Rid>, i: nat, j: nat, k: nat) returns (m: nat)
    requires i < j < |q| && (forall a, b | 0 <= a < b < |q| :: q[a] != q[b])
    requires k < |Incomplete(reqs, q)| && Incomplete(reqs, q)[k] == q[j] && Rest(reqs, q[i]) > 0
    ensures m < k && Incomplete(reqs, q)[m] == q[i]
  {
    var p, last := q[..|q| - 1], |q| - 1;
    if j == last {
      IncompleteMembers(reqs, p);
      assert p[i] == q[i] && p[i] in p;
      m :| 0 <= m < |Incomplete(reqs, p)| && Incomplete(reqs, p)[m] == q[i];
      forall h | 0 <= h < |Incomplete(reqs, p)|
        ensures Incomplete(reqs, p)[h] != q[j]
      {
        assert Incomplete(reqs, p)[h] in Incomplete(reqs, p);
      }
    } else {
      assert q[j] != q[last];
      m := IncompleteOrder(reqs, p, i, j, k);
    }
  }

  /** Finished requests need no prefill. */
  lemma {:induction false} IncompleteOfActive(reqs: Requests, q: seq<Rid>)
    requires forall id {:trigger Sane(reqs, id)} | id in q :: Sane(reqs, id)
    ensures Incomplete(reqs, Active(reqs, q)) == Incomplete(reqs, q)
  {
    if q != [] {
      var p, id := q[..|q| - 1], q[|q| - 1];
      assert forall x | x in p :: x in q && Sane(reqs, x);
      IncompleteOfActive(reqs, p);
      assert Sane(reqs, id);
      if reqs[id].finish.None? {
        assert Active(reqs, q)[..|Active(reqs, p)|] == Active(reqs, p);
      } else {
        assert Active(reqs, q) == Active(reqs, p) && Incomplete(reqs, q) == Incomplete(reqs, p);
      }
    }
  }

  // ----- a prefill -----

  function AfterPrefill(r: Request, tokens: nat, end: real): Request {
    var more := r.(prefilled := r.prefilled + tokens);
    if more.prefilled >= more.prompt
    then more.(firstToken := Some(end), generated := 1, tokenTimes := r.tokenTimes + [end])
    else more
  }

  lemma PrefillKeepsRequest(r: Request, tokens: nat, end: real)
    requires RequestOk(r) && 0 < tokens <= r.prompt - r.prefilled
    requires r.startPrefill.Some? && r.startPrefill.value <= end
    ensures RequestOk(AfterPrefill(r, tokens, end)) && Left(AfterPrefill(r, tokens, end)) < Left(r)
  {
  }

  function PrefillAll(reqs: Requests, batch: seq<Take>, end: real): (reqs': Requests)
    requires forall k {:trigger batch[k]} | 0 <= k < |batch| :: batch[k].id in reqs
    ensures reqs'.Keys == reqs.Keys
    decreases batch
  {
    if batch == [] then reqs else
    var id := batch[0].id;
    PrefillAll(reqs[id := AfterPrefill(reqs[id], batch[0].tokens, end)], batch[1..], end)
  }

  predicate InBatch(batch: seq<Take>, id: Rid) {
    exists k :: 0 <= k < |batch| && batch[k].id == id
  }

  predicate GetsShare(reqs: Requests, reqs': Requests, batch: seq<Take>, end: real, k: nat) {
    k < |batch| && batch[k].id in reqs && batch[k].id in reqs' &&
    reqs'[batch[k].id] == AfterPrefill(reqs[batch[k].id], batch[k].tokens, end)
  }

  lemma {:induction false} PrefillEffect(reqs: Requests, batch: seq<Take>, end: real)
    requires forall k {:trigger batch[k]} | 0 <= k < |batch| :: batch[k].id in reqs
    requires forall j, k | 0 <= j < k < |batch| :: batch[j].id != batch[k].id
    ensures var reqs' := PrefillAll(reqs, batch, end);
      && (forall id | id in reqs.Keys && !InBatch(batch, id) :: reqs'[id] == reqs[id])
      && (forall k: nat {:trigger GetsShare(reqs, reqs', batch, end, k)} | k < |batch| :: GetsShare(reqs, reqs', batch, end, k))
    decreases batch
  {
    if batch != [] {
      var id, rest := batch[0].id, batch[1..];
      var next := reqs[id := AfterPrefill(reqs[id], batch[0].tokens, end)];
      PrefillEffect(next, rest, end);
      var reqs' := PrefillAll(reqs, batch, end);
      assert !InBatch(rest, id);
      forall k: nat | k < |batch|
        ensures GetsShare(reqs, reqs', batch, end, k)
      {
        if k > 0 {
          assert GetsShare(next, reqs', rest, end, k - 1);
          assert batch[k].id == rest[k - 1].id;
        }
      }
      forall x | x in reqs.Keys && !InBatch(batch, x)
        ensures reqs'[x] == reqs[x]
      {
        assert batch[0].id != x;
        assert forall k | 0 <= k < |rest| :: batch[k + 1].id == rest[k].id;
        assert !InBatch(rest, x);
      }
    }
  }

  // ----- a decode -----

  function AfterDecode(r: Request, end: real): Request {
    var more := r.(generated := r.generated + 1, tokenTimes := r.tokenTimes + [end]);
    if more.generated >= more.output then more.(finish := Some(end)) else more
  }

  predicate Decodable(reqs: Requests, id: Rid) {
    id in reqs && Full(reqs[id]) && reqs[id].finish.None? && reqs[id].firstToken.Some?
  }

  lemma DecodeKeepsRequest(r: Request, end: real)
    requires RequestOk(r) && Full(r) && r.finish.None? && r.firstToken.Some?
    ensures RequestOk(AfterDecode(r, end)) && Left(AfterDecode(r, end)) < Left(r)
  {
  }

  /** The requests of q ready to decode. */
  function DecodeReady(reqs: Requests, q: seq<Rid>): seq<Rid> {
    if q == [] then [] else
    DecodeReady(reqs, q[..|q| - 1]) + (if Decodable(reqs, q[|q| - 1]) then [q[|q| - 1]] else [])
  }

  /** The first `room` of them. */
  function DecodeBatch(reqs: Requests, q: seq<Rid>, room: nat): seq<Rid> {
    var ready := DecodeReady(reqs, q);
    if |ready| <= room then ready else ready[..room]
  }

  lemma {:induction false} DecodeReadyMembers(reqs: Requests, q: seq<Rid>)
    ensures forall id :: id in DecodeReady(reqs, q) <==> id in q && Decodable(reqs, id)
    ensures (forall i, j | 0 <= i < j < |q| :: q[i] != q[j]) ==>
      forall i, j | 0 <= i < j < |DecodeReady(reqs, q)| :: DecodeReady(reqs, q)[i] != DecodeReady(reqs, q)[j]
  {
    if q != [] {
      var p, id := q[..|q| - 1], q[|q| - 1];
      DecodeReadyMembers(reqs, p);
      assert q == p + [id];
      if forall i, j | 0 <= i < j < |q| :: q[i] != q[j] {
        assert id !in p;
      }
    }
  }

  function DecodeAll(reqs: Requests, batch: seq<Rid>, end: real): (reqs': Requests)
    requires forall k {:trigger batch[k]} | 0 <= k < |batch| :: batch[k] in reqs
    ensures reqs'.Keys == reqs.Keys
    decreases batch
  {
    if batch == [] then reqs else DecodeAll(reqs[batch[0] := AfterDecode(reqs[batch[0]], end)], batch[1..], end)
  }

  lemma {:induction false} DecodeEffect(reqs: Requests, batch: seq<Rid>, end: real)
    requires forall k {:trigger batch[k]} | 0 <= k < |batch| :: batch[k] in reqs
    requires forall j, k | 0 <= j < k < |batch| :: batch[j] != batch[k]
    ensures var reqs' := DecodeAll(reqs, batch, end);
      forall id | id in reqs.Keys :: reqs'[id] == if id in batch then AfterDecode(reqs[id], end) else reqs[id]
    decreases batch
  {
    if batch != [] {
      var next := reqs[batch[0] := AfterDecode(reqs[batch[0]], end)];
      DecodeEffect(next, batch[1..], end);
      assert batch[0] !in batch[1..];
      assert batch == [batch[0]] + batch[1..];
    }
  }
}
