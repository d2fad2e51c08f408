/** The continuous-batching scheduler: requests, queues and what every run keeps. */
module ServingModel {
  import opened Basics
  import opened ConvexAllocation

  type Rid = nat
  type Pool = nat

  datatype Stage = Prefill | Decode

  datatype Request = Request(
    prompt: nat,
    output: nat,
    arrival: real,
    startPrefill: Option<real>,
    firstToken: Option<real>,
    finish: Option<real>,
    prefilled: nat,
    generated: nat,
    tokenTimes: seq<real>)

  datatype Limits = Limits(chunkTokens: int, maxBatch: nat, maxRunning: int, capacity: real)

  /** The cache a request reserves from admission to its end. */
  function Need(r: Request): nat {
    r.prompt + r.output
  }

  predicate Full(r: Request) {
    r.prefilled >= r.prompt
  }

  /** How many tokens a request ends with: a decode always follows the first
      token, even when one token was asked for. */
  function Target(r: Request): nat {
    if r.output < 2 then 2 else r.output
  }

  /** What prefilling and decoding keep about one request. */
  predicate RequestOk(r: Request) {
    && r.prefilled <= r.prompt && r.generated <= Target(r) && |r.tokenTimes| == r.generated
    && (!Full(r) || r.prompt == 0 ==> r.generated == 0 && r.firstToken.None?)
    && (Full(r) && r.prompt > 0 ==> r.generated >= 1 && r.firstToken.Some?)
    && (r.finish.Some? <==> r.generated == Target(r))
    && (r.firstToken.Some? ==> r.startPrefill.Some? && r.startPrefill.value <= r.firstToken.value)
    && (r.startPrefill.Some? ==> r.arrival <= r.startPrefill.value)
    && (r.prefilled > 0 ==> r.startPrefill.Some?)
    && (r.firstToken.Some? ==> r.tokenTimes != [] && r.firstToken.value == r.tokenTimes[0])
    && (r.finish.Some? ==> r.tokenTimes != [] && r.finish.value == r.tokenTimes[|r.tokenTimes| - 1])
  }

  predicate Untouched(r: Request) {
    r.prefilled == 0 && r.generated == 0 && r.tokenTimes == [] && r.startPrefill.None? && r.firstToken.None? && r.finish.None?
  }

  type Requests = map<Rid, Request>

  // ----- queues -----

  /** Those of q that are not finished. */
  function Active(reqs: Requests, q: seq<Rid>): seq<Rid> {
    if q == [] then [] else
    var id := q[|q| - 1];
    Active(reqs, q[..|q| - 1]) + (if id in reqs && reqs[id].finish.None? then [id] else [])
  }

  function Finished(reqs: Requests, q: seq<Rid>): seq<Rid> {
    if q == [] then [] else
    var id := q[|q| - 1];
    Finished(reqs, q[..|q| - 1]) + (if id in reqs && reqs[id].finish.None? then [] else [id])
  }

  function NeedAt(reqs: Requests, id: Rid): nat {
    if id in reqs then Need(reqs[id]) else 0
  }

  function Needs(reqs: Requests, q: seq<Rid>): nat {
    if q == [] then 0 else Needs(reqs, q[..|q| - 1]) + NeedAt(reqs, q[|q| - 1])
  }

  lemma {:induction false} ActiveMembers(reqs: Requests, q: seq<Rid>)
    ensures forall id :: id in Active(reqs, q) <==> id in q && id in reqs && reqs[id].finish.None?
    ensures forall id :: id in Finished(reqs, q) <==> id in q && !(id in reqs && reqs[id].finish.None?)
  {
    if q != [] {
      ActiveMembers(reqs, q[..|q| - 1]);
      assert q == q[..|q| - 1] + [q[|q| - 1]];
    }
  }

  /** The cache of a queue is that of its active and its finished part. */
  lemma {:induction false} NeedsSplit(reqs: Requests, q: seq<Rid>)
    ensures Needs(reqs, q) == Needs(reqs, Active(reqs, q)) + Needs(reqs, Finished(reqs, q))
  {
    if q != [] {
      var p, id := q[..|q| - 1], q[|q| - 1];
      NeedsSplit(reqs, p);
      if id in reqs && reqs[id].finish.None? {
        assert Active(reqs, q)[..|Active(reqs, p)|] == Active(reqs, p) && Finished(reqs, q) == Finished(reqs, p);
      } else {
        assert Finished(reqs, q)[..|Finished(reqs, p)|] == Finished(reqs, p) && Active(reqs, q) == Active(reqs, p);
      }
    }
  }

  /** Both tables agree on who is finished among q, or only more are. */
  predicate FinishesMore(reqs: Requests, reqs': Requests, id: Rid) {
    id in reqs && id in reqs' && Need(reqs'[id]) == Need(reqs[id]) && (reqs[id].finish.Some? ==> reqs'[id].finish.Some?)
  }

  lemma {:induction false} ActiveLater(reqs: Requests, reqs': Requests, q: seq<Rid>)
    requires forall id {:trigger FinishesMore(reqs, reqs', id)} | id in q :: FinishesMore(reqs, reqs', id)
    ensures Active(reqs', Active(reqs, q)) == Active(reqs', q)
    ensures Needs(reqs', Active(reqs, q)) == Needs(reqs, Active(reqs, q))
  {
    if q != [] {
      var p, id := q[..|q| - 1], q[|q| - 1];
      forall x | x in p
        ensures FinishesMore(reqs, reqs', x)
      {
        assert x in q;
      }
      ActiveLater(reqs, reqs', p);
      assert FinishesMore(reqs, reqs', id);
      if reqs[id].finish.None? {
        assert Active(reqs, q)[..|Active(reqs, p)|] == Active(reqs, p);
      } else {
        assert Active(reqs, q) == Active(reqs, p) && Active(reqs', q) == Active(reqs', p);
      }
    }
  }

  // ----- invariants -----

  predicate Sane(reqs: Requests, id: Rid) {
    id in reqs && RequestOk(reqs[id])
  }

  predicate Waiting(reqs: Requests, id: Rid) {
    id in reqs && Untouched(reqs[id])
  }

  predicate OnRoster(ids: set<Rid>, order: seq<Rid>, id: Rid) {
    id in ids <==> id in order
  }

  predicate Differ(order: seq<Rid>, i: nat, j: nat) {
    i < |order| && j < |order| && order[i] != order[j]
  }

  /** order lists every id once. */
  ghost predicate Roster(ids: set<Rid>, order: seq<Rid>) {
    && (forall id {:trigger OnRoster(ids, order, id)} :: OnRoster(ids, order, id))
    && (forall i: nat, j: nat {:trigger Differ(order, i, j)} | i < j < |order| :: Differ(order, i, j))
  }

  /** Admission order: requests were admitted as they arrived, those still
      pending are untouched, and no id appears twice. */
  ghost predicate QueuesOk(reqs: Requests, order: seq<Rid>, admitted: seq<Rid>, pending: seq<Rid>) {
    && order == admitted + pending
    && Roster(reqs.Keys, order)
    && (forall id {:trigger Sane(reqs, id)} | id in reqs.Keys :: Sane(reqs, id))
    && (forall id {:trigger Waiting(reqs, id)} | id in pending :: Waiting(reqs, id))
  }

  /** i was admitted before j: j is not touched before i is full, and its first
      token does not come before i's. */
  predicate Served(reqs: Requests, q: seq<Rid>, i: nat, j: nat) {
    && i < |q| && j < |q| && q[i] in reqs && q[j] in reqs
    && var a, b := reqs[q[i]], reqs[q[j]];
    && (b.prefilled > 0 ==> Full(a))
    && (b.firstToken.Some? && a.prompt > 0 ==> a.firstToken.Some? && a.firstToken.value <= b.firstToken.value)
  }

  /** First come, first served. */
  ghost predicate InOrderServed(reqs: Requests, q: seq<Rid>) {
    forall i: nat, j: nat {:trigger Served(reqs, q, i, j)} | i < j < |q| :: Served(reqs, q, i, j)
  }

  /** No first token comes after the last prefill. */
  predicate FirstBy(reqs: Requests, id: Rid, t: real) {
    id in reqs && (reqs[id].firstToken.Some? ==> reqs[id].firstToken.value <= t)
  }

  predicate StartedBy(reqs: Requests, id: Rid, t: real) {
    id in reqs && (reqs[id].startPrefill.Some? ==> reqs[id].startPrefill.value <= t)
  }

  predicate FitsAlone(reqs: Requests, id: Rid, capacity: real) {
    id in reqs && Need(reqs[id]) as real <= capacity
  }

  // ----- iterations -----

  /** Tokens for one request: of its prompt, or one that is generated. */
  datatype Take = Take(id: Rid, tokens: nat)

  datatype Iteration = Iteration(stage: Stage, start: real, end: real, pools: set<Pool>, batch: seq<Take>)

  predicate Disjoint(a: Iteration, b: Iteration) {
    a.end <= b.start || (a.pools !! b.pools && a.stage != b.stage)
  }

  predicate Later(history: seq<Iteration>, i: nat, j: nat) {
    i < |history| && j < |history| && Disjoint(history[i], history[j])
  }

  /** Iterations that share a pool or a stage follow one another. */
  ghost predicate NoOverlap(history: seq<Iteration>) {
    forall i: nat, j: nat {:trigger Later(history, i, j)} | i < j < |history| :: Later(history, i, j)
  }

  function Ready(stage: Stage, pfReady: real, dcReady: real): real {
    if stage == Prefill then pfReady else dcReady
  }

  /** The clocks cover what has run. */
  predicate Covered(history: seq<Iteration>, poolFree: map<Pool, real>, pfReady: real, dcReady: real, i: nat) {
    && i < |history| && history[i].start <= history[i].end
    && history[i].end <= Ready(history[i].stage, pfReady, dcReady)
    && forall p | p in history[i].pools :: p in poolFree && history[i].end <= poolFree[p]
  }

  ghost predicate ClocksOk(history: seq<Iteration>, poolFree: map<Pool, real>, pfReady: real, dcReady: real) {
    && NoOverlap(history)
    && forall i: nat {:trigger Covered(history, poolFree, pfReady, dcReady, i)} | i < |history| ::
         Covered(history, poolFree, pfReady, dcReady, i)
  }

  function SetClocks(poolFree: map<Pool, real>, pools: set<Pool>, end: real): map<Pool, real> {
    map p | p in poolFree.Keys :: if p in pools then end else poolFree[p]
  }

  /** A new iteration that starts when its stage and pools are free. */
  lemma IterationFits(history: seq<Iteration>, poolFree: map<Pool, real>, pfReady: real, dcReady: real, x: Iteration)
    requires ClocksOk(history, poolFree, pfReady, dcReady) && x.start <= x.end && x.pools <= poolFree.Keys
    requires Ready(x.stage, pfReady, dcReady) <= x.start && forall p | p in x.pools :: poolFree[p] <= x.start
    ensures ClocksOk(history + [x], SetClocks(poolFree, x.pools, x.end),
                     if x.stage == Prefill then x.end else pfReady, if x.stage == Decode then x.end else dcReady)
  {
    var all, free := history + [x], SetClocks(poolFree, x.pools, x.end);
    var pf, dc := if x.stage == Prefill then x.end else pfReady, if x.stage == Decode then x.end else dcReady;
    forall i: nat, j: nat | i < j < |all|
      ensures Later(all, i, j)
    {
      if j < |history| {
        assert Later(history, i, j);
      } else {
        assert Covered(history, poolFree, pfReady, dcReady, i);
        if all[i].stage != x.stage && !(all[i].pools !! x.pools) {
          var p :| p in all[i].pools && p in x.pools;
          assert all[i].end <= poolFree[p];
        }
      }
    }
    forall i: nat | i < |all|
      ensures Covered(all, free, pf, dc, i)
    {
      if i < |history| { assert Covered(history, poolFree, pfReady, dcReady, i); }
    }
  }

  // ----- work left -----

  function Left(r: Request): nat
  {
    (if r.prefilled <= r.prompt then r.prompt - r.prefilled else 0) + (if r.generated <= Target(r) then Target(r) - r.generated else 0)
  }

  function Lefts(reqs: Requests): Counts {
    map id | id in reqs.Keys :: Left(reqs[id])
  }

  /** w is the total work left. */
  ghost predicate IsWork(reqs: Requests, w: nat) {
    forall c {:trigger Total(c)} | c == Lefts(reqs) :: w == Total(c)
  }

  lemma WorkExists(reqs: Requests)
    ensures exists w :: IsWork(reqs, w)
  {
    assert IsWork(reqs, Total(Lefts(reqs)));
  }

  /** The prefill and decode tokens still to process, over all requests. */
  ghost function Work(reqs: Requests): (w: nat)
    ensures IsWork(reqs, w)
  {
    WorkExists(reqs);
    var w :| IsWork(reqs, w);
    w
  }

  lemma {:induction false} TotalNotMore(a: Counts, b: Counts)
    requires a.Keys == b.Keys && forall k | k in a.Keys :: a[k] <= b[k]
    ensures Total(a) <= Total(b)
    decreases |a|
  {
    if a.Keys == {} {
      TotalEmpty(a);
      TotalEmpty(b);
    } else {
      var k :| k in a.Keys;
      TotalRemove(a, k);
      TotalRemove(b, k);
      TotalNotMore(a - {k}, b - {k});
    }
  }

  lemma SameWork(a: Requests, b: Requests)
    requires a.Keys == b.Keys && forall k | k in a.Keys :: Left(a[k]) == Left(b[k])
    ensures Work(a) == Work(b)
  {
    assert Lefts(a) == Lefts(b);
    assert Work(a) == Total(Lefts(a));
  }

  /** Less work: for one request there is less left, for none more. */
  lemma LessWork(a: Requests, b: Requests, id: Rid)
    requires a.Keys == b.Keys && id in a && Left(a[id]) < Left(b[id])
    requires forall k | k in a.Keys :: Left(a[k]) <= Left(b[k])
    ensures Work(a) < Work(b)
  {
    TotalLess(Lefts(a), Lefts(b), id);
  }

  lemma TotalLess(a: Counts, b: Counts, k: Rid)
    requires a.Keys == b.Keys && (forall j | j in a.Keys :: a[j] <= b[j]) && k in a && a[k] < b[k]
    ensures Total(a) < Total(b)
  {
    TotalRemove(a, k);
    TotalRemove(b, k);
    TotalNotMore(a - {k}, b - {k});
  }
}
