/** The serving loop. */
module Servers {
  import opened Basics
  import opened ConvexAllocation
  import opened ServingModel
  import opened ServingSteps
  import opened ServingTurns
  import opened ServingChoices
  import opened ServingRuns

  predicate CostOk(cost: CostModel, pools: set<Pool>, stage: Stage, batch: nat, ctx: nat, chunk: nat) {
    cost(stage, batch, ctx, chunk).time >= 0.0 && cost(stage, batch, ctx, chunk).pools <= pools
  }

  predicate JitterOk(jitter: Jitter, n: nat, t: real) {
    t >= 0.0 ==> jitter(n, t) >= 0.0
  }

  /** Times are not negative, and iterations run on known pools. */
  ghost predicate ValidCosts(cost: CostModel, jitter: Jitter, pools: set<Pool>) {
    && (forall stage, batch, ctx, chunk {:trigger CostOk(cost, pools, stage, batch, ctx, chunk)} :: CostOk(cost, pools, stage, batch, ctx, chunk))
    && forall n, t {:trigger JitterOk(jitter, n, t)} :: JitterOk(jitter, n, t)
  }

  /** The requests as the workload hands them over: untouched, each listed once
      in the order of admission. */
  ghost predicate ValidWorkload(reqs: Requests, order: seq<Rid>) {
    && Roster(reqs.Keys, order)
    && (forall id {:trigger Waiting(reqs, id)} | id in reqs.Keys :: Waiting(reqs, id))
  }

  /** A request the system can serve. */
  predicate Servable(reqs: Requests, limits: Limits, id: Rid) {
    id in reqs && reqs[id].prompt > 0 && Need(reqs[id]) as real <= limits.capacity
  }

  predicate Generous(limits: Limits) {
    limits.chunkTokens > 0 && limits.maxBatch > 0 && limits.maxRunning > 0
  }

  datatype PrefillPlan = PrefillPlan(batch: seq<Take>, cost: StepCost)
  datatype DecodePlan = DecodePlan(batch: seq<Rid>, cost: StepCost)

  /** The longest prompt part a prefill batch reaches. */
  function LongestContext(reqs: Requests, batch: seq<Take>): (ctx: nat)
    ensures batch != [] ==> IsLongest(reqs, Prefill, batch, ctx)
  {
    if batch == [] then 0 else
    var rest, own := LongestContext(reqs, batch[1..]), if batch[0].id in reqs then reqs[batch[0].id].prefilled + batch[0].tokens else 0;
    LongestNext(reqs, Prefill, batch, rest);
    if own > rest then own else rest
  }

  function LargestTake(batch: seq<Take>): (chunk: nat)
    ensures batch != [] ==> IsLargest(batch, chunk)
  {
    if batch == [] then 0 else
    var rest := LargestTake(batch[1..]);
    LargestNext(batch, rest);
    if batch[0].tokens > rest then batch[0].tokens else rest
  }

  /** The longest sequence of a decode batch. */
  function LongestDecode(reqs: Requests, batch: seq<Rid>): (ctx: nat)
    ensures batch != [] ==> IsLongest(reqs, Decode, Ones(batch), ctx)
  {
    if batch == [] then 0 else
    var rest, own := LongestDecode(reqs, batch[1..]), if batch[0] in reqs then reqs[batch[0]].prompt + reqs[batch[0]].generated else 0;
    assert Ones(batch)[1..] == Ones(batch[1..]);
    LongestNext(reqs, Decode, Ones(batch), rest);
    if own > rest then own else rest
  }

  /** A token for each. */
  function Ones(batch: seq<Rid>): (ones: seq<Take>)
    ensures |ones| == |batch| && forall k | 0 <= k < |batch| :: ones[k] == Take(batch[k], 1)
  {
    seq(|batch|, k requires 0 <= k < |batch| => Take(batch[k], 1))
  }

  lemma LongestNext(reqs: Requests, stage: Stage, batch: seq<Take>, rest: nat)
    requires batch != [] && (batch[1..] != [] ==> IsLongest(reqs, stage, batch[1..], rest)) && (batch[1..] == [] ==> rest == 0)
    ensures IsLongest(reqs, stage, batch, if Reach(reqs, stage, batch[0]) > rest then Reach(reqs, stage, batch[0]) else rest)
  {
    var own := Reach(reqs, stage, batch[0]);
    var ctx := if own > rest then own else rest;
    forall k | 0 <= k < |batch|
      ensures Reach(reqs, stage, batch[k]) <= ctx
    {
      if k > 0 { assert batch[1..][k - 1] == batch[k]; }
    }
    if own > rest || |batch| == 1 {
      assert Reach(reqs, stage, batch[0]) == ctx;
    } else {
      var k :| 0 <= k < |batch[1..]| && Reach(reqs, stage, batch[1..][k]) == rest;
      assert batch[k + 1] == batch[1..][k];
    }
  }

  lemma LargestNext(batch: seq<Take>, rest: nat)
    requires batch != [] && (batch[1..] != [] ==> IsLargest(batch[1..], rest)) && (batch[1..] == [] ==> rest == 0)
    ensures IsLargest(batch, if batch[0].tokens > rest then batch[0].tokens else rest)
  {
    var chunk := if batch[0].tokens > rest then batch[0].tokens else rest;
    forall k | 0 <= k < |batch|
      ensures batch[k].tokens <= chunk
    {
      if k > 0 { assert batch[1..][k - 1] == batch[k]; }
    }
    if batch[0].tokens > rest || |batch| == 1 {
      assert batch[0].tokens == chunk;
    } else {
      var k :| 0 <= k < |batch[1..]| && batch[1..][k].tokens == rest;
      assert batch[k + 1] == batch[1..][k];
    }
  }

  class Server {
    const limits: Limits
    const cost: CostModel
    const jitter: Jitter
    ghost const order: seq<Rid>
    ghost const origin: Moment
    var reqs: Requests
    var pending: seq<Rid>
    var running: seq<Rid>
    var done: seq<Rid>
    var now: real
    var kvUsed: nat
    var poolFree: map<Pool, real>
    var pfReady: real
    var dcReady: real
    var iterations: nat
    ghost var admitted: seq<Rid>
    ghost var history: seq<Iteration>
    ghost var turns: seq<Turn>

    ghost function Present(): Moment
      reads this
    {
      Moment(reqs, pending, running, kvUsed, now, poolFree, pfReady, dcReady)
    }

    /** The turns so far led from the start to the present. */
    ghost predicate Recorded()
      reads this
    {
      Records(limits, cost, jitter, origin, turns, history, iterations, Present()) && Tokenless(origin.reqs)
    }

    ghost function State(): Scheduler
      reads this
    {
      Scheduler(reqs, admitted, pending, running, kvUsed, pfReady, now)
    }

    ghost predicate Valid()
      reads this
    {
      && ValidCosts(cost, jitter, poolFree.Keys) && Sound(order, State(), limits.capacity)
      && ClocksOk(history, poolFree, pfReady, dcReady) && now >= 0.0
    }

    constructor (reqs: Requests, order: seq<Rid>, limits: Limits, cost: CostModel, jitter: Jitter, pools: set<Pool>)
      requires ValidWorkload(reqs, order) && ValidCosts(cost, jitter, pools) && limits.capacity >= 0.0
      ensures Valid() && this.reqs == reqs && this.order == order && this.limits == limits
      ensures pending == order && running == [] && history == [] && iterations == 0
      ensures Recorded() && turns == [] && origin.reqs == reqs && this.cost == cost && this.jitter == jitter
    {
      this.reqs, this.order, this.limits, this.cost, this.jitter := reqs, order, limits, cost, jitter;
      pending, running, done, admitted, history := order, [], [], [], [];
      now, kvUsed, pfReady, dcReady, iterations := 0.0, 0, 0.0, 0.0, 0;
      poolFree := map p | p in pools :: 0.0;
      turns := [];
      origin := Moment(reqs, order, [], 0, 0.0, map p | p in pools :: 0.0, 0.0, 0.0);
      new;
      FreshRecords(limits, cost, jitter, origin);
      WaitingIsTokenless(reqs);
      assert poolFree.Keys == pools;
      FreshIsSound(reqs, order, limits.capacity);
    }

    // ----- admission -----

    method AdmitOne()
      requires Valid() && pending != [] && pending[0] in reqs && reqs[pending[0]].arrival <= now
      requires (kvUsed + Need(reqs[pending[0]])) as real <= limits.capacity
      modifies this`kvUsed, this`reqs, this`pending, this`running, this`admitted
      requires |running| < limits.maxRunning
      ensures Valid() && State() == Admitting(old(State())) && Work(reqs) == old(Work(reqs)) && AllAlike(old(reqs), reqs)
      ensures AdmitsOne(limits, old(Present()), Present())
    {
      AdmitIsSound(order, State(), limits.capacity);
      var id := pending[0];
      kvUsed := kvUsed + Need(reqs[id]);
      reqs := reqs[id := reqs[id].(startPrefill := Some(now))];
      pending := pending[1..];
      running := running + [id];
      admitted := admitted + [id];
    }

    /** Admit those that have arrived, in order, while they fit. */
    method Admit()
      requires Valid()
      modifies this`kvUsed, this`reqs, this`pending, this`running, this`admitted
      ensures Valid() && Work(reqs) == old(Work(reqs)) && AllAlike(old(reqs), reqs)
      ensures Admits(limits, old(Present()), Present())
      ensures running == [] ==> State() == old(State())
      ensures pending != [] ==> pending[0] in reqs
      ensures pending != [] ==>
        reqs[pending[0]].arrival > now || |running| >= limits.maxRunning || (kvUsed + Need(reqs[pending[0]])) as real > limits.capacity
    {
      AlikeToItself(reqs);
      ghost var k := 0;
      while pending != []
        invariant AdmitsSome(limits, old(Present()), Present(), k)
        invariant Valid() && Work(reqs) == old(Work(reqs)) && AllAlike(old(reqs), reqs)
        invariant running == [] ==> State() == old(State())
        decreases |pending|
      {
        ghost var before := reqs;
        FirstIsWaiting(order, State(), limits.capacity);
        if reqs[pending[0]].arrival > now || |running| >= limits.maxRunning { break; }
        if (kvUsed + Need(reqs[pending[0]])) as real > limits.capacity { break; }
        AdmitOne();
        k := k + 1;
        AlikeChains(old(reqs), before, reqs);
      }
      if pending != [] { FirstIsWaiting(order, State(), limits.capacity); }
      assert AdmitsAll(limits, old(Present()), Present());
    }

    // ----- planning -----

    method PlanPrefill() returns (plan: Option<PrefillPlan>)
      requires Valid()
      ensures var batch := Planned(reqs, Incomplete(reqs, running), limits.chunkTokens, limits.maxBatch);
        && (plan.None? <==> batch == [])
        && (plan.Some? ==> plan.value.batch == batch && plan.value.cost.time >= 0.0 && plan.value.cost.pools <= poolFree.Keys)
      ensures plan.Some? ==> IsCost(cost, reqs, Prefill, plan.value.batch, plan.value.cost)
    {
      var need: seq<Rid> := [];
      var n := 0;
      while n < |running|
        invariant 0 <= n <= |running| && need == Incomplete(reqs, running[..n])
      {
        assert running[..n + 1][..n] == running[..n];
        if Rest(reqs, running[n]) > 0 { need := need + [running[n]]; }
        n := n + 1;
      }
      assert running[..n] == running;
      var batch := TakeTokens(need);
      if batch == [] { return None; }
      var ctx, chunk := LongestContext(reqs, batch), LargestTake(batch);
      var c := cost(Prefill, |batch|, ctx, chunk);
      assert CostsAs(cost, reqs, Prefill, batch, c, ctx, chunk);
      assert CostOk(cost, poolFree.Keys, Prefill, |batch|, ctx, chunk);
      plan := Some(PrefillPlan(batch, c));
    }

    /** Share out the token budget. */
    method TakeTokens(need: seq<Rid>) returns (batch: seq<Take>)
      ensures batch == Planned(reqs, need, limits.chunkTokens, limits.maxBatch)
    {
      batch := [];
      var budget, room: int := limits.chunkTokens, limits.maxBatch;
      var n := 0;
      ghost var left := Planned(reqs, need, budget, room);
      ghost var all := left;
      while n < |need|
        invariant 0 <= n <= |need| && left == Planned(reqs, need[n..], budget, room) && all == batch + left
      {
        var rest := Rest(reqs, need[n]);
        var take := if rest < budget then rest else budget;
        assert need[n..][0] == need[n] && need[n..][1..] == need[n + 1..];
        if take <= 0 { break; }
        ghost var more := if budget - take <= 0 || room - 1 <= 0 then [] else Planned(reqs, need[n + 1..], budget - take, room - 1);
        MoveOver(batch, Take(need[n], take), more);
        batch := batch + [Take(need[n], take)];
        budget, room, left := budget - take, room - 1, more;
        n := n + 1;
        if budget <= 0 || room <= 0 { return; }
      }
    }

    method PlanDecode() returns (plan: Option<DecodePlan>)
      requires Valid() && limits.maxBatch > 0
      ensures plan.None? <==> DecodeReady(reqs, running) == []
      ensures plan.Some? ==> plan.value.batch == DecodeBatch(reqs, running, limits.maxBatch)
      ensures (plan.Some? ==> plan.value.batch != [] && plan.value.cost.time >= 0.0 && plan.value.cost.pools <= poolFree.Keys)
      ensures plan.Some? ==> IsCost(cost, reqs, Decode, Ones(plan.value.batch), plan.value.cost)
    {
      var ready: seq<Rid> := [];
      var n := 0;
      while n < |running|
        invariant 0 <= n <= |running| && ready == DecodeReady(reqs, running[..n])
      {
        assert running[..n + 1][..n] == running[..n];
        if Decodable(reqs, running[n]) { ready := ready + [running[n]]; }
        n := n + 1;
      }
      assert running[..n] == running;
      if ready == [] { return None; }
      var batch := if |ready| <= limits.maxBatch then ready else ready[..limits.maxBatch];
      var ctx := LongestDecode(reqs, batch);
      assert CostOk(cost, poolFree.Keys, Decode, |batch|, ctx, 1);
      assert Ones(batch)[0].tokens == 1;
      assert CostsAs(cost, reqs, Decode, Ones(batch), cost(Decode, |batch|, ctx, 1), ctx, 1);
      plan := Some(DecodePlan(batch, cost(Decode, |batch|, ctx, 1)));
    }

    /** The earliest moment an iteration of the stage can start. */
    method EarliestStart(ready: real, pools: set<Pool>) returns (start: real)
      requires pools <= poolFree.Keys
      ensures StartsAt(Present(), ready, pools, start)
    {
      start := Max(now, ready);
      var todo := pools;
      while todo != {}
        invariant todo <= pools && now <= start && ready <= start && forall p | p in pools - todo :: poolFree[p] <= start
        invariant start == now || start == ready || exists p :: p in pools && poolFree[p] == start
        decreases todo
      {
        var p :| p in todo;
        start := Max(start, poolFree[p]);
        todo := todo - {p};
      }
    }

    // ----- running an iteration -----

    /** Note an iteration on the clocks, and how long it takes. */
    method Clock(stage: Stage, start: real, c: StepCost, ghost batch: seq<Take>) returns (end: real)
      requires Valid() && c.time >= 0.0 && c.pools <= poolFree.Keys
      requires now <= start && Ready(stage, pfReady, dcReady) <= start && forall p | p in c.pools :: poolFree[p] <= start
      modifies this`poolFree, this`dcReady, this`history
      ensures start <= end && end == start + jitter(iterations, c.time)
      ensures poolFree.Keys == old(poolFree.Keys) && poolFree == SetClocks(old(poolFree), c.pools, end)
      ensures dcReady == (if stage == Decode then end else old(dcReady))
      ensures ClocksOk(history, poolFree, if stage == Prefill then end else pfReady, dcReady)
      ensures history == old(history) + [Iteration(stage, start, end, c.pools, batch)]
    {
      assert JitterOk(jitter, iterations, c.time);
      end := start + jitter(iterations, c.time);
      IterationFits(history, poolFree, pfReady, dcReady, Iteration(stage, start, end, c.pools, batch));
      poolFree := SetClocks(poolFree, c.pools, end);
      if stage == Decode { dcReady := end; }
      history := history + [Iteration(stage, start, end, c.pools, batch)];
    }

    /** When some engine could start again. */
    function NextNow(prefill: real, decode: real, end: real): (t: real)
      reads this
      ensures now <= t && GoesOn(now, prefill, decode, end, t)
    {
      var x := if prefill > 0.0 && decode > 0.0 then Min(prefill, decode)
               else if prefill > 0.0 then prefill else if decode > 0.0 then decode else end;
      assert IsNext(prefill, decode, end, x);
      Max(now, x)
    }

    method ApplyPrefill(batch: seq<Take>, end: real)
      requires forall k {:trigger batch[k]} | 0 <= k < |batch| :: batch[k].id in reqs
      modifies this`reqs
      ensures reqs == PrefillAll(old(reqs), batch, end)
    {
      var n := 0;
      while n < |batch|
        invariant 0 <= n <= |batch| && reqs.Keys == old(reqs.Keys)
        invariant PrefillAll(reqs, batch[n..], end) == PrefillAll(old(reqs), batch, end)
      {
        assert batch[n..][0] == batch[n] && batch[n..][1..] == batch[n + 1..];
        var id := batch[n].id;
        reqs := reqs[id := AfterPrefill(reqs[id], batch[n].tokens, end)];
        n := n + 1;
      }
      assert batch[n..] == [];
    }

    method ApplyDecode(batch: seq<Rid>, end: real)
      requires forall k {:trigger batch[k]} | 0 <= k < |batch| :: batch[k] in reqs
      modifies this`reqs
      ensures reqs == DecodeAll(old(reqs), batch, end)
    {
      var n := 0;
      while n < |batch|
        invariant 0 <= n <= |batch| && reqs.Keys == old(reqs.Keys)
        invariant DecodeAll(reqs, batch[n..], end) == DecodeAll(old(reqs), batch, end)
      {
        assert batch[n..][0] == batch[n] && batch[n..][1..] == batch[n + 1..];
        reqs := reqs[batch[n] := AfterDecode(reqs[batch[n]], end)];
        n := n + 1;
      }
      assert batch[n..] == [];
    }

    /** Finished requests leave and free their cache. */
    method Retire()
      requires Needs(reqs, Finished(reqs, running)) <= kvUsed && forall id | id in running :: id in reqs
      modifies this`running, this`done, this`kvUsed
      ensures State() == Iterated(old(State()), reqs, pfReady, now) && done == old(done) + Finished(reqs, old(running))
    {
      var all, stay, gone := running, [], [];
      var freed := 0;
      var n := 0;
      while n < |all|
        invariant 0 <= n <= |all| && stay == Active(reqs, all[..n]) && gone == Finished(reqs, all[..n]) && freed == Needs(reqs, gone)
      {
        assert all[..n + 1][..n] == all[..n] && all[n] in all;
        if reqs[all[n]].finish.None? {
          stay := stay + [all[n]];
        } else {
          assert (gone + [all[n]])[..|gone|] == gone;
          gone := gone + [all[n]];
          freed := freed + Need(reqs[all[n]]);
        }
        n := n + 1;
      }
      assert all[..n] == all;
      running, done, kvUsed := stay, done + gone, kvUsed - freed;
    }

    method RunPrefill(plan: PrefillPlan, start: real) returns (ghost x: Iteration)
      requires Valid() && plan.batch == Planned(reqs, Incomplete(reqs, running), limits.chunkTokens, limits.maxBatch) && plan.batch != []
      requires plan.cost.time >= 0.0 && plan.cost.pools <= poolFree.Keys
      requires StartsAt(Present(), pfReady, plan.cost.pools, start)
      modifies this
      ensures Valid() && AllAlike(old(reqs), reqs) && Work(reqs) < old(Work(reqs))
      ensures pending == old(pending) && iterations == old(iterations) && turns == old(turns)
      ensures history == old(history) + [x] && Effect(old(Present()), x, Present())
      ensures x == Iteration(Prefill, start, start + jitter(old(iterations), plan.cost.time), plan.cost.pools, plan.batch)
    {
      ghost var a := Present();
      var end := Clock(Prefill, start, plan.cost, plan.batch);
      x := Iteration(Prefill, start, end, plan.cost.pools, plan.batch);
      EndPrefill(plan.batch, end, NextNow(end, dcReady, end), x);
      IsEffect(a, x, Present());
    }

    /** Give out the tokens of a prefill that ends. */
    method EndPrefill(batch: seq<Take>, end: real, later: real, ghost x: Iteration)
      requires Sound(order, State(), limits.capacity) && now <= end && pfReady <= end && now <= later
      requires batch == Planned(reqs, Incomplete(reqs, running), limits.chunkTokens, limits.maxBatch) && batch != []
      modifies this`reqs, this`running, this`done, this`kvUsed, this`pfReady, this`now
      ensures Sound(order, State(), limits.capacity) && pfReady == end && now == later
      ensures AllAlike(old(reqs), reqs) && Work(reqs) < old(Work(reqs))
      requires x.stage == Prefill && x.batch == batch && x.end == end
      ensures Serves(x, old(reqs), reqs)
      ensures running == Active(reqs, old(running))
    {
      ghost var s := State();
      PrefillIsSound(order, s, limits.capacity, limits.chunkTokens, limits.maxBatch, batch, end, later);
      PlannedServes(order, reqs, s, limits, batch, x);
      ApplyPrefill(batch, end);
      RunningKnown(order, s, limits.capacity);
      pfReady, now := end, later;
      assert State() == s.(reqs := reqs, pfReady := end, now := later);
      Retire();
    }

    method RunDecode(plan: DecodePlan, start: real) returns (ghost x: Iteration)
      requires Valid() && plan.batch == DecodeBatch(reqs, running, limits.maxBatch) && plan.batch != []
      requires plan.cost.time >= 0.0 && plan.cost.pools <= poolFree.Keys
      requires StartsAt(Present(), dcReady, plan.cost.pools, start)
      modifies this
      ensures Valid() && AllAlike(old(reqs), reqs) && Work(reqs) < old(Work(reqs))
      ensures pending == old(pending) && iterations == old(iterations) && turns == old(turns)
      ensures history == old(history) + [x] && Effect(old(Present()), x, Present())
      ensures x == Iteration(Decode, start, start + jitter(old(iterations), plan.cost.time), plan.cost.pools, Ones(plan.batch))
    {
      ghost var a := Present();
      var end := Clock(Decode, start, plan.cost, Ones(plan.batch));
      x := Iteration(Decode, start, end, plan.cost.pools, Ones(plan.batch));
      EndDecode(plan.batch, end, NextNow(pfReady, dcReady, end), x);
      IsEffect(a, x, Present());
    }

    /** Add the tokens of a decode that ends. */
    method EndDecode(batch: seq<Rid>, end: real, later: real, ghost x: Iteration)
      requires Sound(order, State(), limits.capacity) && now <= later
      requires batch == DecodeBatch(reqs, running, limits.maxBatch) && batch != []
      modifies this`reqs, this`running, this`done, this`kvUsed, this`now
      ensures Sound(order, State(), limits.capacity) && now == later
      ensures AllAlike(old(reqs), reqs) && Work(reqs) < old(Work(reqs))
      requires x.stage == Decode && x.batch == Ones(batch) && x.end == end
      ensures Serves(x, old(reqs), reqs)
      ensures running == Active(reqs, old(running))
    {
      ghost var s := State();
      DecodeIsSound(order, s, limits.capacity, limits.maxBatch, batch, end, later);
      BatchServes(order, reqs, s, limits, batch, x);
      ApplyDecode(batch, end);
      RunningKnown(order, s, limits.capacity);
      now := later;
      assert State() == s.(reqs := reqs, now := later);
      Retire();
    }

    /** What can be run at once, with the offer it makes. */
    ghost predicate PrefillFor(plan: Option<PrefillPlan>, start: real, o: Option<Offer>)
      reads this
    {
      && OnlyOffer(limits, cost, Present(), Prefill, o)
      && (o == if plan.Some? then Some(Offer(Prefill, plan.value.batch, plan.value.cost, start)) else None)
      && if plan.None? then Planned(reqs, Incomplete(reqs, running), limits.chunkTokens, limits.maxBatch) == []
         else
           && plan.value.batch == Planned(reqs, Incomplete(reqs, running), limits.chunkTokens, limits.maxBatch) != []
           && plan.value.cost.time >= 0.0 && plan.value.cost.pools <= poolFree.Keys
           && StartsAt(Present(), pfReady, plan.value.cost.pools, start)
    }

    ghost predicate DecodeFor(plan: Option<DecodePlan>, start: real, o: Option<Offer>)
      reads this
    {
      && OnlyOffer(limits, cost, Present(), Decode, o)
      && (o == if plan.Some? then Some(Offer(Decode, Ones(plan.value.batch), plan.value.cost, start)) else None)
      && if plan.None? then DecodeReady(reqs, running) == []
         else
           && plan.value.batch == DecodeBatch(reqs, running, limits.maxBatch) != []
           && plan.value.cost.time >= 0.0 && plan.value.cost.pools <= poolFree.Keys
           && StartsAt(Present(), dcReady, plan.value.cost.pools, start)
    }

    /** The prefill that could run, and when it could start. */
    method OfferPrefill() returns (plan: Option<PrefillPlan>, start: real, ghost o: Option<Offer>)
      requires Valid()
      ensures PrefillFor(plan, start, o)
    {
      plan := PlanPrefill();
      start, o := 0.0, None;
      PlannedIsPrefill(limits, reqs, running);
      if plan.Some? {
        start := EarliestStart(pfReady, plan.value.cost.pools);
        o := Some(Offer(Prefill, plan.value.batch, plan.value.cost, start));
        OfferIsOnly(limits, cost, Present(), o.value);
      } else {
        NoneIsOnly(limits, cost, Present(), Prefill);
      }
    }

    /** The decode that could run, and when it could start. */
    method OfferDecode() returns (plan: Option<DecodePlan>, start: real, ghost o: Option<Offer>)
      requires Valid() && limits.maxBatch > 0
      ensures DecodeFor(plan, start, o)
    {
      plan := PlanDecode();
      start, o := 0.0, None;
      if plan.Some? {
        start := EarliestStart(dcReady, plan.value.cost.pools);
        o := Some(Offer(Decode, Ones(plan.value.batch), plan.value.cost, start));
        OfferIsOnly(limits, cost, Present(), o.value);
      } else {
        NoneIsOnly(limits, cost, Present(), Decode);
      }
    }

    /** Run the one that can start first; prefill wins ties. */
    method RunFirst(pf: Option<PrefillPlan>, pfStart: real, ghost po: Option<Offer>, dc: Option<DecodePlan>, dcStart: real, ghost dco: Option<Offer>)
      returns (ghost x: Iteration)
      requires Valid() && PrefillFor(pf, pfStart, po) && DecodeFor(dc, dcStart, dco) && (pf.Some? || dc.Some?)
      modifies this
      ensures Valid() && AllAlike(old(reqs), reqs) && pending == old(pending) && iterations == old(iterations) && turns == old(turns)
      ensures Work(reqs) < old(Work(reqs)) && history == old(history) + [x]
      ensures Runs(limits, cost, jitter, old(iterations), old(Present()), x, Present())
    {
      ghost var a := Present();
      if pf.Some? && (dc.None? || pfStart <= dcStart) {
        EarlierIsChosen(limits, cost, a, po.value, dco);
        x := RunPrefill(pf.value, pfStart);
        OfferRuns(limits, cost, jitter, iterations, a, po.value, x, Present());
      } else {
        EarlierIsChosen(limits, cost, a, dco.value, po);
        x := RunDecode(dc.value, dcStart);
        OfferRuns(limits, cost, jitter, iterations, a, dco.value, x, Present());
      }
    }

    /** Plan both kinds and run one of them. */
    method Iterate() returns (ok: bool, ghost ran: Option<Iteration>)
      requires Valid() && running != [] && limits.maxBatch > 0
      modifies this
      ensures Valid() && AllAlike(old(reqs), reqs) && pending == old(pending) && iterations == old(iterations) && turns == old(turns)
      ensures ok ==> Work(reqs) < old(Work(reqs))
      ensures limits.chunkTokens > 0 && AllServable(old(reqs), limits) ==> ok
      ensures ok <==> ran.Some?
      ensures ran.Some? ==> Runs(limits, cost, jitter, old(iterations), old(Present()), ran.value, Present()) && history == old(history) + [ran.value]
      ensures ran.None? ==> Present() == old(Present()) && history == old(history) && NothingOffered(limits, cost, Present())
    {
      if limits.chunkTokens > 0 && AllServable(reqs, limits) { SomethingToDo(order, State(), limits); }
      var pf, pfStart, po := OfferPrefill();
      var dc, dcStart, dco := OfferDecode();
      AlikeToItself(reqs);
      NoOffers(limits, cost, Present(), po, dco);
      if pf.None? && dc.None? { return false, None; }
      ghost var x := RunFirst(pf, pfStart, po, dc, dcStart, dco);
      ok, ran := true, Some(x);
    }

    // ----- the whole run -----

    /** Nothing runs and the next request has not arrived yet. */
    predicate Idle()
      reads this
    {
      running == [] && pending != [] && pending[0] in reqs && reqs[pending[0]].arrival > now
    }

    /** Bounds the iterations still to come. */
    ghost function Steps(): nat
      reads this
    {
      2 * Work(reqs) + if Idle() then 1 else 0
    }

    /** After admission: jump to the next arrival, stop, or run an iteration. */
    method Proceed(ghost before: Moment) returns (ok: bool, ghost ran: Option<Iteration>)
      requires Valid() && limits.maxBatch > 0 && Admits(limits, before, Present()) && (pending != [] || running != [])
      requires pending != [] ==> pending[0] in reqs
      requires pending != [] ==>
        reqs[pending[0]].arrival > now || |running| >= limits.maxRunning || (kvUsed + Need(reqs[pending[0]])) as real > limits.capacity
      modifies this
      ensures Valid() && AllAlike(old(reqs), reqs) && iterations == old(iterations) && turns == old(turns)
      ensures history == old(history) + (if ran.Some? then [ran.value] else [])
      ensures IsTurn(limits, cost, jitter, iterations, ServingTurns.Turn(before, old(Present()), ran, Present()))
      ensures ok ==> Work(reqs) < old(Work(reqs)) || (reqs == old(reqs) && old(Idle()) && !Idle())
      ensures Generous(limits) && AllServable(old(reqs), limits) ==> ok
    {
      ghost var a := Present();
      if running != [] {
        ok, ran := Iterate();
        if ok {
          RanIsTurn(limits, cost, jitter, iterations, before, a, ran.value, Present());
        } else {
          NothingIsTurn(limits, cost, jitter, iterations, before, a);
        }
        return;
      }
      AlikeToItself(reqs);
      ran := None;
      if pending != [] && reqs[pending[0]].arrival > now {
        JumpIsTurn(limits, cost, jitter, iterations, before, a);
        JumpIsSound(order, State(), limits.capacity, reqs[pending[0]].arrival);
        now := reqs[pending[0]].arrival;
        return true, None;
      }
      NothingIsTurn(limits, cost, jitter, iterations, before, a);
      if Generous(limits) && AllServable(reqs, limits) { NobodyLeftOut(order, State(), limits); }
      ok := false;
    }

    /** One turn of the loop. */
    method Turn() returns (ok: bool)
      requires Valid() && Recorded() && (pending != [] || running != []) && limits.maxBatch > 0
      modifies this
      ensures Valid() && AllAlike(old(reqs), reqs) && iterations == old(iterations) + 1 && old(history) <= history
      ensures Recorded() && old(turns) <= turns
      ensures ok ==> Steps() < old(Steps())
      ensures Generous(limits) && AllServable(old(reqs), limits) ==> ok
    {
      iterations := iterations + 1;
      ghost var reqs0, history0, before := reqs, history, Present();
      Admit();
      ghost var reqs1, admitted := reqs, Present();
      AlikeServable(reqs0, reqs, limits);
      ghost var ran;
      ok, ran := Proceed(before);
      AlikeChains(reqs0, reqs1, reqs);
      ghost var t := ServingTurns.Turn(before, admitted, ran, Present());
      TurnRecords(limits, cost, jitter, origin, turns, history0, iterations - 1, t);
      turns := turns + [t];
    }

    /** `run`: with enough iterations and positive limits, every request is
        finished exactly when every request can be served alone. */
    method Run(maxIterations: nat)
      requires Valid() && limits.maxBatch > 0 && iterations == 0 && Recorded()
      modifies this
      ensures Recorded() && forall id {:trigger Timed(turns, reqs, id)} | id in reqs.Keys :: Timed(turns, reqs, id)
      ensures Valid() && AllAlike(old(reqs), reqs) && iterations <= maxIterations
      ensures Generous(limits) && AllServable(old(reqs), limits) && old(Steps()) <= maxIterations ==> pending == [] && running == []
      ensures Generous(limits) && old(Steps()) <= maxIterations ==>
        (AllServable(old(reqs), limits) <==> forall id | id in reqs.Keys :: reqs[id].finish.Some?)
    {
      AlikeToItself(reqs);
      assert RecordOk(limits, cost, jitter, origin, turns, history, iterations, Present());
      var ok := true;
      while ok && (pending != [] || running != []) && iterations < maxIterations
        invariant Valid() && AllAlike(old(reqs), reqs) && iterations <= maxIterations && Recorded()
        invariant Generous(limits) && AllServable(old(reqs), limits) ==> ok
        invariant ok ==> iterations + Steps() <= old(Steps())
        decreases maxIterations - iterations
      {
        ghost var reqs1 := reqs;
        AlikeServable(old(reqs), reqs, limits);
        ok := Turn();
        AlikeChains(old(reqs), reqs1, reqs);
      }
      NothingLeft(order, State(), limits.capacity);
      FinishedIffServable(order, State(), old(reqs), limits);
      TimesAreEnds(order, State(), limits, cost, jitter, origin, turns, history, iterations, Present());
    }
  }

  // ----- times -----

  ghost predicate Tokenless(reqs: Requests) {
    forall id | id in reqs.Keys :: reqs[id].tokenTimes == []
  }

  lemma WaitingIsTokenless(reqs: Requests)
    requires forall id {:trigger Waiting(reqs, id)} | id in reqs.Keys :: Waiting(reqs, id)
    ensures Tokenless(reqs)
  {
    forall id | id in reqs.Keys
      ensures reqs[id].tokenTimes == []
    {
      assert Waiting(reqs, id);
    }
  }

  /** The tokens of the request came at the ends of the iterations that gave
      them, the first token at the first of these, and if it is finished, that
      was at the last. */
  predicate Timed(turns: seq<Turn>, reqs: Requests, id: Rid) {
    && id in reqs && reqs[id].tokenTimes == TokenEnds(turns, id)
    && reqs[id].firstToken == (if TokenEnds(turns, id) == [] then None else Some(TokenEnds(turns, id)[0]))
    && (reqs[id].finish.Some? ==> TokenEnds(turns, id) != [] && reqs[id].finish.value == TokenEnds(turns, id)[|TokenEnds(turns, id)| - 1])
  }

  lemma TimesAreEnds(order: seq<Rid>, s: Scheduler, limits: Limits, cost: CostModel, jitter: Jitter, start: Moment, turns: seq<Turn>,
                     history: seq<Iteration>, n: nat, m: Moment)
    requires Sound(order, s, limits.capacity) && Records(limits, cost, jitter, start, turns, history, n, m)
    requires Tokenless(start.reqs) && s.reqs == m.reqs && s.reqs.Keys == start.reqs.Keys
    ensures forall id {:trigger Timed(turns, m.reqs, id)} | id in m.reqs.Keys :: Timed(turns, m.reqs, id)
  {
    assert SchedulerOk(order, s, limits.capacity);
    assert RecordOk(limits, cost, jitter, start, turns, history, n, m);
    forall id | id in m.reqs.Keys
      ensures Timed(turns, m.reqs, id)
    {
      TokensAreEnds(limits, cost, jitter, start, turns, id);
      assert Sane(s.reqs, id);
    }
  }

  // ----- the state of the scheduler -----

  datatype Scheduler = Scheduler(reqs: Requests, admitted: seq<Rid>, pending: seq<Rid>, running: seq<Rid>, kvUsed: nat, pfReady: real, now: real)

  ghost predicate SchedulerOk(order: seq<Rid>, s: Scheduler, capacity: real) {
    && Consistent(s.reqs, order, s.admitted, s.pending, s.pfReady, s.now)
    && CacheOk(s.reqs, s.admitted, s.running, s.kvUsed, capacity)
  }

  /** `SchedulerOk`, to be opened by naming it. */
  ghost predicate Sound(order: seq<Rid>, s: Scheduler, capacity: real) {
    forall o {:trigger SchedulerOk(o, s, capacity)} | o == order :: SchedulerOk(o, s, capacity)
  }

  lemma FirstIsWaiting(order: seq<Rid>, s: Scheduler, capacity: real)
    requires Sound(order, s, capacity) && s.pending != []
    ensures s.pending[0] in s.reqs && Untouched(s.reqs[s.pending[0]])
  {
    assert SchedulerOk(order, s, capacity);
    assert Waiting(s.reqs, s.pending[0]);
  }

  lemma FreshIsSound(reqs: Requests, order: seq<Rid>, capacity: real)
    requires ValidWorkload(reqs, order) && capacity >= 0.0
    ensures Sound(order, Scheduler(reqs, [], order, [], 0, 0.0, 0.0), capacity)
  {
    assert order == [] + order;
    forall id | id in reqs.Keys
      ensures Sane(reqs, id) && FirstBy(reqs, id, 0.0) && StartedBy(reqs, id, 0.0)
    {
      assert Waiting(reqs, id);
    }
    forall id | id in order
      ensures Waiting(reqs, id)
    {
      assert OnRoster(reqs.Keys, order, id);
    }
    assert SchedulerOk(order, Scheduler(reqs, [], order, [], 0, 0.0, 0.0), capacity);
  }

  function Admitting(s: Scheduler): Scheduler
    requires s.pending != [] && s.pending[0] in s.reqs
  {
    var id := s.pending[0];
    s.(reqs := s.reqs[id := s.reqs[id].(startPrefill := Some(s.now))], admitted := s.admitted + [id],
       pending := s.pending[1..], running := s.running + [id], kvUsed := s.kvUsed + Need(s.reqs[id]))
  }

  lemma AdmitIsSound(order: seq<Rid>, s: Scheduler, capacity: real)
    requires Sound(order, s, capacity) && s.pending != [] && s.pending[0] in s.reqs && s.reqs[s.pending[0]].arrival <= s.now
    requires (s.kvUsed + Need(s.reqs[s.pending[0]])) as real <= capacity
    ensures Sound(order, Admitting(s), capacity) && Work(Admitting(s).reqs) == Work(s.reqs) && AllAlike(s.reqs, Admitting(s).reqs)
  {
    assert SchedulerOk(order, s, capacity);
    FirstIsWaiting(order, s, capacity);
    AdmittedKnown(s.reqs, order, s.admitted, s.pending);
    AdmitKeeps(s.reqs, order, s.admitted, s.pending, s.pfReady, s.now);
    var s' := Admitting(s);
    assert s'.reqs.Keys == s.reqs.Keys;
    AdmitCache(s.reqs, s'.reqs, s.admitted, s.running, s.kvUsed, s.pending[0], capacity);
    assert SchedulerOk(order, s', capacity);
  }

  /** The state after an iteration: the finished requests have left. */
  function Iterated(s: Scheduler, reqs: Requests, pfReady: real, now: real): Scheduler {
    var freed := Needs(reqs, Finished(reqs, s.running));
    s.(reqs := reqs, running := Active(reqs, s.running), kvUsed := if freed <= s.kvUsed then s.kvUsed - freed else 0,
       pfReady := pfReady, now := now)
  }

  lemma LaterStarted(reqs: Requests, order: seq<Rid>, admitted: seq<Rid>, pending: seq<Rid>, pfReady: real, now: real, later: real)
    requires Consistent(reqs, order, admitted, pending, pfReady, now) && now <= later
    ensures Consistent(reqs, order, admitted, pending, pfReady, later)
  {
    forall id | id in reqs.Keys
      ensures StartedBy(reqs, id, later)
    {
      assert StartedBy(reqs, id, now);
    }
  }

  /** Requests that leave give their cache back. */
  lemma RetireCache(reqs: Requests, reqs': Requests, admitted: seq<Rid>, running: seq<Rid>, kvUsed: nat, capacity: real)
    requires CacheOk(reqs, admitted, running, kvUsed, capacity)
    requires forall x | x in admitted :: x in reqs
    requires forall x {:trigger FinishesMore(reqs, reqs', x)} | x in reqs.Keys :: FinishesMore(reqs, reqs', x)
    ensures Needs(reqs', Finished(reqs', running)) <= kvUsed
    ensures CacheOk(reqs', admitted, Active(reqs', running), kvUsed - Needs(reqs', Finished(reqs', running)), capacity)
  {
    ActiveLater(reqs, reqs', admitted);
    NeedsSplit(reqs', running);
    forall x | x in admitted
      ensures FitsAlone(reqs', x, capacity)
    {
      assert FitsAlone(reqs, x, capacity) && FinishesMore(reqs, reqs', x);
    }
  }

  lemma IteratedIsSound(order: seq<Rid>, s: Scheduler, capacity: real, reqs': Requests, pfReady: real, now: real)
    requires SchedulerOk(order, s, capacity) && s.now <= now
    requires Consistent(reqs', order, s.admitted, s.pending, pfReady, s.now)
    requires forall x {:trigger FinishesMore(s.reqs, reqs', x)} | x in s.reqs.Keys :: FinishesMore(s.reqs, reqs', x)
    ensures Sound(order, Iterated(s, reqs', pfReady, now), capacity)
    ensures Needs(reqs', Finished(reqs', s.running)) <= s.kvUsed
  {
    AdmittedKnown(s.reqs, order, s.admitted, s.pending);
    RetireCache(s.reqs, reqs', s.admitted, s.running, s.kvUsed, capacity);
    LaterStarted(reqs', order, s.admitted, s.pending, pfReady, s.now, now);
    assert SchedulerOk(order, Iterated(s, reqs', pfReady, now), capacity);
  }

  // ----- the size of a request never changes -----

  predicate Alike(reqs: Requests, reqs': Requests, id: Rid) {
    id in reqs' && (id in reqs ==> reqs'[id].prompt == reqs[id].prompt && reqs'[id].output == reqs[id].output && reqs'[id].arrival == reqs[id].arrival)
  }

  ghost predicate AllAlike(reqs: Requests, reqs': Requests) {
    reqs'.Keys == reqs.Keys && forall id {:trigger Alike(reqs, reqs', id)} | id in reqs.Keys :: Alike(reqs, reqs', id)
  }

  lemma AlikeChains(a: Requests, b: Requests, c: Requests)
    requires AllAlike(a, b) && AllAlike(b, c)
    ensures AllAlike(a, c)
  {
    forall id | id in a.Keys
      ensures Alike(a, c, id)
    {
      assert Alike(a, b, id) && Alike(b, c, id);
    }
  }

  /** Every request can be served. */
  ghost predicate AllServable(reqs: Requests, limits: Limits) {
    forall id {:trigger Servable(reqs, limits, id)} | id in reqs.Keys :: Servable(reqs, limits, id)
  }

  lemma AlikeServable(a: Requests, b: Requests, limits: Limits)
    requires AllAlike(a, b)
    ensures AllServable(a, limits) <==> AllServable(b, limits)
  {
    forall id | id in a.Keys
      ensures Servable(a, limits, id) <==> Servable(b, limits, id)
    {
      assert Alike(a, b, id);
    }
  }

  // ----- one iteration -----

  /** A planned prefill serves its batch. */
  lemma PlannedServes(order: seq<Rid>, reqs: Requests, s: Scheduler, limits: Limits, batch: seq<Take>, x: Iteration)
    requires Sound(order, s, limits.capacity) && s.reqs == reqs && batch == Planned(reqs, Incomplete(reqs, s.running), limits.chunkTokens, limits.maxBatch)
    requires x.stage == Prefill && x.batch == batch && forall k {:trigger batch[k]} | 0 <= k < |batch| :: batch[k].id in reqs
    ensures Serves(x, reqs, PrefillAll(reqs, batch, x.end))
  {
    assert SchedulerOk(order, s, limits.capacity);
    var need := Incomplete(reqs, s.running);
    AdmittedDistinct(reqs, order, s.admitted, s.pending);
    ActiveDistinct(reqs, s.admitted);
    IncompleteDistinct(reqs, s.running);
    PlannedShape(reqs, need, limits.chunkTokens, limits.maxBatch);
    forall i, j | 0 <= i < j < |batch|
      ensures batch[i].id != batch[j].id
    {
      assert ShareOk(reqs, need, batch, i) && ShareOk(reqs, need, batch, j);
    }
    PrefillEffect(reqs, batch, x.end);
    forall k: nat | k < |batch|
      ensures ServesAt(x, reqs, PrefillAll(reqs, batch, x.end), k)
    {
      assert GetsShare(reqs, PrefillAll(reqs, batch, x.end), batch, x.end, k);
    }
  }

  /** A decode serves its batch. */
  lemma BatchServes(order: seq<Rid>, reqs: Requests, s: Scheduler, limits: Limits, batch: seq<Rid>, x: Iteration)
    requires Sound(order, s, limits.capacity) && s.reqs == reqs && batch == DecodeBatch(reqs, s.running, limits.maxBatch)
    requires x.stage == Decode && x.batch == Ones(batch) && forall k {:trigger batch[k]} | 0 <= k < |batch| :: batch[k] in reqs
    ensures Serves(x, reqs, DecodeAll(reqs, batch, x.end))
  {
    assert SchedulerOk(order, s, limits.capacity);
    AdmittedDistinct(reqs, order, s.admitted, s.pending);
    ActiveDistinct(reqs, s.admitted);
    DecodeReadyMembers(reqs, s.running);
    DecodeEffect(reqs, batch, x.end);
    forall id | id in reqs.Keys
      ensures id in batch <==> InBatch(x.batch, id)
    {
      if id in batch {
        var k :| 0 <= k < |batch| && batch[k] == id;
        assert x.batch[k].id == id;
      }
    }
    forall k: nat | k < |batch|
      ensures ServesAt(x, reqs, DecodeAll(reqs, batch, x.end), k)
    {
      assert batch[k] in batch;
    }
  }

  lemma PrefillIsSound(order: seq<Rid>, s: Scheduler, capacity: real, budget: int, room: int, batch: seq<Take>, end: real, now: real)
    requires Sound(order, s, capacity) && s.pfReady <= end && s.now <= end && s.now <= now
    requires batch == Planned(s.reqs, Incomplete(s.reqs, s.running), budget, room)
    ensures forall k {:trigger batch[k]} | 0 <= k < |batch| :: batch[k].id in s.reqs
    ensures var reqs' := PrefillAll(s.reqs, batch, end);
      && Sound(order, Iterated(s, reqs', end, now), capacity) && Needs(reqs', Finished(reqs', s.running)) <= s.kvUsed
      && AllAlike(s.reqs, reqs') && (batch != [] ==> Work(reqs') < Work(s.reqs))
  {
    assert SchedulerOk(order, s, capacity);
    var reqs := s.reqs;
    AdmittedKnown(reqs, order, s.admitted, s.pending);
    assert forall id | id in s.admitted :: Sane(reqs, id);
    IncompleteOfActive(reqs, s.admitted);
    PlannedPrefills(reqs, order, s.admitted, s.pending, budget, room, end);
    var reqs' := PrefillAll(reqs, batch, end);
    PrefillKeeps(reqs, reqs', order, s.admitted, s.pending, batch, s.pfReady, s.now, end);
    IteratedIsSound(order, s, capacity, reqs', end, now);
    forall id | id in reqs.Keys
      ensures Alike(reqs, reqs', id)
    {
      PrefillChanges(reqs, reqs', Incomplete(reqs, s.admitted), batch, end, id);
    }
  }

  lemma DecodeIsSound(order: seq<Rid>, s: Scheduler, capacity: real, room: nat, batch: seq<Rid>, end: real, now: real)
    requires Sound(order, s, capacity) && s.now <= now && batch == DecodeBatch(s.reqs, s.running, room)
    ensures forall k {:trigger batch[k]} | 0 <= k < |batch| :: batch[k] in s.reqs
    ensures var reqs' := DecodeAll(s.reqs, batch, end);
      && Sound(order, Iterated(s, reqs', s.pfReady, now), capacity) && Needs(reqs', Finished(reqs', s.running)) <= s.kvUsed
      && AllAlike(s.reqs, reqs') && (batch != [] ==> Work(reqs') < Work(s.reqs))
  {
    assert SchedulerOk(order, s, capacity);
    var reqs := s.reqs;
    var ready := DecodeReady(reqs, s.running);
    AdmittedDistinct(reqs, order, s.admitted, s.pending);
    ActiveDistinct(reqs, s.admitted);
    DecodeReadyMembers(reqs, s.running);
    forall k | 0 <= k < |batch|
      ensures batch[k] in ready
    {
      assert batch[k] == ready[k];
    }
    DecodeEffect(reqs, batch, end);
    var reqs' := DecodeAll(reqs, batch, end);
    forall id | id in reqs.Keys
      ensures DecodesTo(reqs, reqs', batch, end, id) && Alike(reqs, reqs', id)
    {
    }
    DecodeKeeps(reqs, reqs', order, s.admitted, s.pending, batch, s.pfReady, s.now, end);
    IteratedIsSound(order, s, capacity, reqs', s.pfReady, now);
  }

  lemma {:induction false} ActiveDistinct(reqs: Requests, q: seq<Rid>)
    requires forall i, j | 0 <= i < j < |q| :: q[i] != q[j]
    ensures forall i, j | 0 <= i < j < |Active(reqs, q)| :: Active(reqs, q)[i] != Active(reqs, q)[j]
  {
    if q != [] {
      var p := q[..|q| - 1];
      ActiveDistinct(reqs, p);
      ActiveMembers(reqs, p);
      assert q[|q| - 1] !in p;
    }
  }

  /** While a request runs, some iteration can be planned. */
  lemma SomethingToDo(order: seq<Rid>, s: Scheduler, limits: Limits)
    requires Sound(order, s, limits.capacity) && s.running != [] && limits.chunkTokens > 0
    requires AllServable(s.reqs, limits)
    ensures Planned(s.reqs, Incomplete(s.reqs, s.running), limits.chunkTokens, limits.maxBatch) != [] || DecodeReady(s.reqs, s.running) != []
  {
    assert SchedulerOk(order, s, limits.capacity);
    var id := s.running[0];
    assert id in s.running;
    ActiveMembers(s.reqs, s.admitted);
    assert Sane(s.reqs, id) && Servable(s.reqs, limits, id);
    var need := Incomplete(s.reqs, s.running);
    IncompleteMembers(s.reqs, s.running);
    DecodeReadyMembers(s.reqs, s.running);
    if Rest(s.reqs, id) > 0 {
      assert id in need && Rest(s.reqs, need[0]) > 0;
    } else {
      assert id in DecodeReady(s.reqs, s.running);
    }
  }

  lemma MoveOver<T>(a: seq<T>, x: T, b: seq<T>)
    ensures a + ([x] + b) == (a + [x]) + b
    ensures b == [] ==> a + ([x] + b) == a + [x]
  {
  }

  lemma RunningKnown(order: seq<Rid>, s: Scheduler, capacity: real)
    requires Sound(order, s, capacity)
    ensures forall id | id in s.running :: id in s.reqs
  {
    assert SchedulerOk(order, s, capacity);
    ActiveMembers(s.reqs, s.admitted);
  }

  lemma AlikeToItself(reqs: Requests)
    ensures AllAlike(reqs, reqs)
  {
  }

  lemma JumpIsSound(order: seq<Rid>, s: Scheduler, capacity: real, later: real)
    requires Sound(order, s, capacity) && s.now <= later
    ensures Sound(order, s.(now := later), capacity)
  {
    assert SchedulerOk(order, s, capacity);
    LaterStarted(s.reqs, order, s.admitted, s.pending, s.pfReady, s.now, later);
    assert SchedulerOk(order, s.(now := later), capacity);
  }

  /** If nothing runs, the cache is free: only a request that does not fit
      alone, or has not arrived, can be left waiting. */
  lemma NobodyLeftOut(order: seq<Rid>, s: Scheduler, limits: Limits)
    requires Sound(order, s, limits.capacity) && s.running == [] && Generous(limits) && AllServable(s.reqs, limits)
    requires s.pending != [] ==> s.pending[0] in s.reqs
    requires s.pending != [] ==>
      s.reqs[s.pending[0]].arrival > s.now || 0 >= limits.maxRunning || (s.kvUsed + Need(s.reqs[s.pending[0]])) as real > limits.capacity
    ensures s.pending != [] ==> s.reqs[s.pending[0]].arrival > s.now
  {
    assert SchedulerOk(order, s, limits.capacity);
    if s.pending != [] {
      assert Servable(s.reqs, limits, s.pending[0]);
    }
  }

  /** With no work left, nothing is pending and nothing runs. */
  lemma NothingLeft(order: seq<Rid>, s: Scheduler, capacity: real)
    requires Sound(order, s, capacity)
    ensures Work(s.reqs) == 0 ==> s.pending == [] && s.running == []
  {
    assert SchedulerOk(order, s, capacity);
    if s.pending != [] {
      FirstIsWaiting(order, s, capacity);
      TotalRemove(Lefts(s.reqs), s.pending[0]);
    } else if s.running != [] {
      var id := s.running[0];
      assert id in s.running;
      ActiveMembers(s.reqs, s.admitted);
      assert Sane(s.reqs, id);
      TotalRemove(Lefts(s.reqs), id);
    }
  }

  lemma FinishedIffServable(order: seq<Rid>, s: Scheduler, reqs0: Requests, limits: Limits)
    requires Sound(order, s, limits.capacity) && AllAlike(reqs0, s.reqs)
    ensures (forall id | id in s.reqs.Keys :: s.reqs[id].finish.Some?) ==> AllServable(reqs0, limits)
    ensures s.pending == [] && s.running == [] ==> forall id | id in s.reqs.Keys :: s.reqs[id].finish.Some?
  {
    AlikeServable(reqs0, s.reqs, limits);
    forall id | id in s.reqs.Keys
      ensures s.reqs[id].finish.Some? ==> Servable(s.reqs, limits, id)
      ensures s.pending == [] && s.running == [] ==> s.reqs[id].finish.Some?
    {
      if s.reqs[id].finish.Some? { FinishedWasServable(order, s, limits, id); }
      if s.pending == [] && s.running == [] { EverythingFinished(order, s, limits.capacity, id); }
    }
  }

  // ----- the end -----

  /** With nothing pending and nothing running, every request is finished and
      has exactly its target of tokens. */
  lemma EverythingFinished(order: seq<Rid>, s: Scheduler, capacity: real, id: Rid)
    requires Sound(order, s, capacity) && s.pending == [] && s.running == [] && id in s.reqs
    ensures s.reqs[id].finish.Some? && s.reqs[id].generated == Target(s.reqs[id])
    ensures s.reqs[id].generated == s.reqs[id].output <==> s.reqs[id].output >= 2
  {
    assert SchedulerOk(order, s, capacity);
    assert OnRoster(s.reqs.Keys, order, id) && order == s.admitted;
    ActiveMembers(s.reqs, s.admitted);
    assert Sane(s.reqs, id);
    assert s.reqs[id].finish.None? ==> id in Active(s.reqs, s.admitted);
  }

  /** A request that finishes was one the system can serve. */
  lemma FinishedWasServable(order: seq<Rid>, s: Scheduler, limits: Limits, id: Rid)
    requires Sound(order, s, limits.capacity) && id in s.reqs && s.reqs[id].finish.Some?
    ensures Servable(s.reqs, limits, id)
  {
    assert SchedulerOk(order, s, limits.capacity);
    assert Sane(s.reqs, id) && OnRoster(s.reqs.Keys, order, id);
    assert id in s.pending ==> Waiting(s.reqs, id);
    assert FitsAlone(s.reqs, id, limits.capacity);
  }

  /** Service is first come, first served: in admission order, requests are
      full, then at most one is partly prefilled, then the rest is untouched;
      and first tokens come in that order, none before the request arrived. */
  lemma FirstComeFirstServed(order: seq<Rid>, s: Scheduler, capacity: real, i: nat, j: nat)
    requires Sound(order, s, capacity) && i < j < |s.admitted|
    ensures s.admitted[i] in s.reqs && s.admitted[j] in s.reqs
    ensures var a, b := s.reqs[s.admitted[i]], s.reqs[s.admitted[j]];
      && (b.prefilled > 0 ==> Full(a)) && (!Full(a) ==> b.prefilled == 0)
      && (b.firstToken.Some? && a.prompt > 0 ==> a.firstToken.Some? && a.arrival <= a.firstToken.value <= b.firstToken.value)
  {
    assert SchedulerOk(order, s, capacity);
    assert Served(s.reqs, s.admitted, i, j);
    assert s.admitted[i] in s.admitted && Sane(s.reqs, s.admitted[i]);
  }

  /** At every moment of a run the reserved cache is exactly what the running
      requests need, prompt and output, and never exceeds the capacity. */
  lemma CacheIsReserved(order: seq<Rid>, s: Scheduler, capacity: real)
    requires Sound(order, s, capacity)
    ensures s.kvUsed == Total(Sizes(s.reqs, s.running))
    ensures s.kvUsed as real <= capacity
    ensures forall id :: id in s.running <==> id in s.admitted && id in s.reqs && s.reqs[id].finish.None?
  {
    assert SchedulerOk(order, s, capacity);
    ActiveMembers(s.reqs, s.admitted);
    AdmittedDistinct(s.reqs, order, s.admitted, s.pending);
    ActiveDistinct(s.reqs, s.admitted);
    NeedsAreTotal(s.reqs, s.running);
  }

  /** The tokens each of q stands for, prompt and output. */
  function Sizes(reqs: Requests, q: seq<Rid>): map<Rid, nat> {
    map id | id in q && id in reqs :: reqs[id].prompt + reqs[id].output
  }

  lemma SizesSnoc(reqs: Requests, p: seq<Rid>, last: Rid)
    requires last !in p
    ensures Sizes(reqs, p + [last]) - {last} == Sizes(reqs, p)
  {
  }

  lemma {:induction false} NeedsAreTotal(reqs: Requests, q: seq<Rid>)
    requires (forall id | id in q :: id in reqs) && forall i, j | 0 <= i < j < |q| :: q[i] != q[j]
    ensures Needs(reqs, q) == Total(Sizes(reqs, q))
  {
    if q == [] {
      TotalEmpty(Sizes(reqs, q));
    } else {
      var p, last := q[..|q| - 1], q[|q| - 1];
      assert q == p + [last] && last in q;
      NeedsAreTotal(reqs, p);
      SizesSnoc(reqs, p, last);
      TotalRemove(Sizes(reqs, q), last);
    }
  }

  /** No two iterations that share a pool or a stage overlap in time. */
  lemma PoolsAreExclusive(history: seq<Iteration>, poolFree: map<Pool, real>, pfReady: real, dcReady: real, i: nat, j: nat, t: real)
    requires ClocksOk(history, poolFree, pfReady, dcReady) && i < |history| && j < |history| && i != j
    requires history[i].stage == history[j].stage || exists p :: p in history[i].pools && p in history[j].pools
    ensures !(history[i].start < t < history[i].end && history[j].start < t < history[j].end)
  {
    if i < j { assert Later(history, i, j); } else { assert Later(history, j, i); }
  }

  /** Reserved cache equals what the running requests need, and fits. */
  ghost predicate CacheOk(reqs: Requests, admitted: seq<Rid>, running: seq<Rid>, kvUsed: nat, capacity: real) {
    && running == Active(reqs, admitted) && kvUsed == Needs(reqs, running) && kvUsed as real <= capacity
    && forall id {:trigger FitsAlone(reqs, id, capacity)} | id in admitted :: FitsAlone(reqs, id, capacity)
  }

  /** One more running request reserves its share of the cache. */
  lemma AdmitCache(reqs: Requests, reqs': Requests, admitted: seq<Rid>, running: seq<Rid>, kvUsed: nat, id: Rid, capacity: real)
    requires CacheOk(reqs, admitted, running, kvUsed, capacity)
    requires forall x {:trigger FinishesMore(reqs, reqs', x)} | x in reqs.Keys ::
      FinishesMore(reqs, reqs', x) && reqs'[x].finish == reqs[x].finish
    requires reqs'.Keys == reqs.Keys && id in reqs && reqs[id].finish.None? && forall x | x in admitted :: x in reqs
    requires (kvUsed + Need(reqs[id])) as real <= capacity
    ensures CacheOk(reqs', admitted + [id], running + [id], kvUsed + Need(reqs[id]), capacity)
  {
    assert (admitted + [id])[..|admitted|] == admitted && (running + [id])[..|running|] == running;
    assert FinishesMore(reqs, reqs', id);
    SameActive(reqs, reqs', admitted);
    ActiveMembers(reqs, admitted);
    SameNeeds(reqs, reqs', running);
    forall x | x in admitted + [id]
      ensures FitsAlone(reqs', x, capacity)
    {
      assert FinishesMore(reqs, reqs', x);
      assert x in admitted ==> FitsAlone(reqs, x, capacity);
    }
  }

  lemma {:induction false} SameActive(reqs: Requests, reqs': Requests, q: seq<Rid>)
    requires forall x {:trigger FinishesMore(reqs, reqs', x)} | x in reqs.Keys ::
      FinishesMore(reqs, reqs', x) && reqs'[x].finish == reqs[x].finish
    requires forall x | x in q :: x in reqs
    ensures Active(reqs', q) == Active(reqs, q)
  {
    if q != [] {
      assert forall x | x in q[..|q| - 1] :: x in q;
      SameActive(reqs, reqs', q[..|q| - 1]);
      assert q[|q| - 1] in q && FinishesMore(reqs, reqs', q[|q| - 1]);
    }
  }

  lemma {:induction false} SameNeeds(reqs: Requests, reqs': Requests, q: seq<Rid>)
    requires forall x {:trigger FinishesMore(reqs, reqs', x)} | x in reqs.Keys :: FinishesMore(reqs, reqs', x)
    requires forall x | x in q :: x in reqs
    ensures Needs(reqs', q) == Needs(reqs, q)
  {
    if q != [] {
      assert forall x | x in q[..|q| - 1] :: x in q;
      SameNeeds(reqs, reqs', q[..|q| - 1]);
      assert q[|q| - 1] in q && FinishesMore(reqs, reqs', q[|q| - 1]);
    }
  }
}
