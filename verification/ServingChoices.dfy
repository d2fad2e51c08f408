/** The planner's batches and offers are the ones a turn asks for. */
module ServingChoices {
  import opened Basics
  import opened ServingModel
  import opened ServingSteps
  import opened ServingTurns

  // ----- prefill batches -----

  /** The k-th of q gets its rest, or what is left of the budget. */
  predicate SharesBudget(reqs: Requests, q: seq<Rid>, batch: seq<Take>, budget: int, k: nat) {
    && k < |batch| && k < |q| && batch[k].id == q[k] && 0 < batch[k].tokens
    && var left := budget - Tokens(batch[..k]);
       batch[k].tokens == if Rest(reqs, q[k]) < left then Rest(reqs, q[k]) else left
  }

  lemma TokensPrefix(t: Take, rest: seq<Take>, k: nat)
    requires k <= |rest|
    ensures Tokens(([t] + rest)[..k + 1]) == t.tokens + Tokens(rest[..k])
  {
    assert ([t] + rest)[..k + 1] == [t] + rest[..k];
  }

  lemma {:induction false} PlannedShares(reqs: Requests, q: seq<Rid>, budget: int, room: int)
    requires forall k {:trigger q[k]} | 0 <= k < |q| :: Rest(reqs, q[k]) > 0
    ensures var batch := Planned(reqs, q, budget, room);
      && |batch| <= |q|
      && (forall k: nat {:trigger SharesBudget(reqs, q, batch, budget, k)} | k < |batch| :: SharesBudget(reqs, q, batch, budget, k))
      && (|batch| < |q| ==> Tokens(batch) >= budget || |batch| >= room)
      && (|batch| > 1 ==> |batch| <= room)
      && (batch == [] <==> q == [] || budget <= 0)
  {
    var batch := Planned(reqs, q, budget, room);
    if batch != [] {
      var t, rest := batch[0], batch[1..];
      assert batch == [t] + rest;
      if rest != [] {
        assert forall k | 0 <= k < |q[1..]| :: q[1..][k] == q[k + 1];
        PlannedShares(reqs, q[1..], budget - t.tokens, room - 1);
      }
      TokensPrefix(t, rest, |rest|);
      assert batch[..|batch|] == batch && rest[..|rest|] == rest;
      forall k: nat | k < |batch|
        ensures SharesBudget(reqs, q, batch, budget, k)
      {
        if k > 0 {
          assert SharesBudget(reqs, q[1..], rest, budget - t.tokens, k - 1);
          TokensPrefix(t, rest, k - 1);
        }
      }
    }
  }

  lemma PlannedIsPrefill(limits: Limits, reqs: Requests, running: seq<Rid>)
    ensures var batch := Planned(reqs, Incomplete(reqs, running), limits.chunkTokens, limits.maxBatch);
      && (batch != [] ==> IsPrefill(limits, reqs, running, batch))
      && (batch == [] ==> forall b :: !IsPrefill(limits, reqs, running, b))
  {
    var need := Incomplete(reqs, running);
    var batch := Planned(reqs, need, limits.chunkTokens, limits.maxBatch);
    IncompleteMembers(reqs, running);
    PlannedShares(reqs, need, limits.chunkTokens, limits.maxBatch);
    forall k: nat | k < |batch|
      ensures TakesShare(limits, reqs, need, batch, k)
    {
      assert SharesBudget(reqs, need, batch, limits.chunkTokens, k);
    }
    forall b | IsPrefill(limits, reqs, running, b)
      ensures batch != []
    {
      assert TakesShare(limits, reqs, need, b, 0) && b[..0] == [];
    }
  }

  lemma {:induction false} SharesAgree(limits: Limits, reqs: Requests, running: seq<Rid>, a: seq<Take>, b: seq<Take>, k: nat)
    requires IsPrefill(limits, reqs, running, a) && IsPrefill(limits, reqs, running, b) && k <= |a| && k <= |b|
    ensures a[..k] == b[..k] && (k == |a| ==> b[..k] == a)
  {
    if k > 0 {
      SharesAgree(limits, reqs, running, a, b, k - 1);
      var need := Incomplete(reqs, running);
      assert TakesShare(limits, reqs, need, a, k - 1) && TakesShare(limits, reqs, need, b, k - 1);
      assert a[..k] == a[..k - 1] + [a[k - 1]] && b[..k] == b[..k - 1] + [b[k - 1]];
    }
  }

  /** A batch that goes on had tokens and room left. */
  lemma HasMore(limits: Limits, reqs: Requests, running: seq<Rid>, b: seq<Take>, k: nat)
    requires IsPrefill(limits, reqs, running, b) && 0 < k < |b|
    ensures Tokens(b[..k]) < limits.chunkTokens && k < limits.maxBatch
  {
    assert TakesShare(limits, reqs, Incomplete(reqs, running), b, k);
  }

  lemma NoneIsLonger(limits: Limits, reqs: Requests, running: seq<Rid>, a: seq<Take>, b: seq<Take>)
    requires IsPrefill(limits, reqs, running, a) && IsPrefill(limits, reqs, running, b)
    ensures |b| <= |a|
  {
    if |a| < |b| {
      SharesAgree(limits, reqs, running, a, b, |a|);
      HasMore(limits, reqs, running, b, |a|);
    }
  }

  /** There is one prefill batch. */
  lemma PrefillIsUnique(limits: Limits, reqs: Requests, running: seq<Rid>, a: seq<Take>, b: seq<Take>)
    requires IsPrefill(limits, reqs, running, a) && IsPrefill(limits, reqs, running, b)
    ensures a == b
  {
    NoneIsLonger(limits, reqs, running, a, b);
    NoneIsLonger(limits, reqs, running, b, a);
    SharesAgree(limits, reqs, running, a, b, |a|);
    assert a[..|a|] == a && b[..|b|] == b;
  }

  // ----- offers -----

  /** At every moment there is at most one offer of each stage. */
  lemma OfferIsUnique(limits: Limits, cost: CostModel, m: Moment, o: Offer, p: Offer)
    requires IsOffer(limits, cost, m, o) && IsOffer(limits, cost, m, p) && o.stage == p.stage
    ensures o == p
  {
    if o.stage == Prefill {
      PrefillIsUnique(limits, m.reqs, m.running, o.batch, p.batch);
    } else {
      assert |o.batch| == |p.batch| && forall k | 0 <= k < |o.batch| :: o.batch[k] == p.batch[k];
    }
    var ctx, chunk :| CostsAs(cost, m.reqs, o.stage, o.batch, o.cost, ctx, chunk);
    var ctx', chunk' :| CostsAs(cost, m.reqs, p.stage, p.batch, p.cost, ctx', chunk');
    SameGreatest(m.reqs, o.stage, o.batch, ctx, ctx', chunk, chunk');
  }

  /** o is the offer of its stage, if there is one. */
  ghost predicate NoOther(limits: Limits, cost: CostModel, m: Moment, stage: Stage, o: Option<Offer>) {
    && (o.Some? ==> o.value.stage == stage && IsOffer(limits, cost, m, o.value))
    && forall p {:trigger IsOffer(limits, cost, m, p)} | IsOffer(limits, cost, m, p) && p.stage == stage :: o == Some(p)
  }

  /** `NoOther`, to be opened by naming it. */
  ghost predicate OnlyOffer(limits: Limits, cost: CostModel, m: Moment, stage: Stage, o: Option<Offer>) {
    forall p {:trigger NoOther(limits, cost, m, stage, p)} | p == o :: NoOther(limits, cost, m, stage, p)
  }

  lemma NoneIsOnly(limits: Limits, cost: CostModel, m: Moment, stage: Stage)
    requires forall p | IsOffer(limits, cost, m, p) :: p.stage != stage
    ensures OnlyOffer(limits, cost, m, stage, None)
  {
    assert NoOther(limits, cost, m, stage, None);
  }

  lemma OfferIsOnly(limits: Limits, cost: CostModel, m: Moment, o: Offer)
    requires IsOffer(limits, cost, m, o)
    ensures OnlyOffer(limits, cost, m, o.stage, Some(o))
  {
    forall p | IsOffer(limits, cost, m, p) && p.stage == o.stage
      ensures p == o
    {
      OfferIsUnique(limits, cost, m, o, p);
    }
    assert NoOther(limits, cost, m, o.stage, Some(o));
  }

  lemma NoOffers(limits: Limits, cost: CostModel, m: Moment, o: Option<Offer>, p: Option<Offer>)
    requires OnlyOffer(limits, cost, m, Prefill, o) && OnlyOffer(limits, cost, m, Decode, p)
    ensures o.None? && p.None? ==> NothingOffered(limits, cost, m)
  {
    assert NoOther(limits, cost, m, Prefill, o) && NoOther(limits, cost, m, Decode, p);
  }

  lemma SameGreatest(reqs: Requests, stage: Stage, batch: seq<Take>, ctx: nat, ctx': nat, chunk: nat, chunk': nat)
    requires IsLongest(reqs, stage, batch, ctx) && IsLongest(reqs, stage, batch, ctx') && IsLargest(batch, chunk) && IsLargest(batch, chunk')
    ensures ctx == ctx' && chunk == chunk'
  {
  }

  lemma OfferRuns(limits: Limits, cost: CostModel, jitter: Jitter, n: nat, m: Moment, o: Offer, x: Iteration, b: Moment)
    requires IsChosen(limits, cost, m, o) && Effect(m, x, b)
    requires x == Iteration(o.stage, o.start, o.start + jitter(n, o.cost.time), o.cost.pools, o.batch)
    ensures Runs(limits, cost, jitter, n, m, x, b)
  {
    assert RunsOffer(limits, cost, jitter, n, m, x, o);
  }

  /** Of the two offers the earlier one is chosen. */
  lemma EarlierIsChosen(limits: Limits, cost: CostModel, m: Moment, o: Offer, other: Option<Offer>)
    requires OnlyOffer(limits, cost, m, o.stage, Some(o))
    requires OnlyOffer(limits, cost, m, if o.stage == Prefill then Decode else Prefill, other)
    requires other.Some? ==> if o.stage == Prefill then o.start <= other.value.start else o.start < other.value.start
    ensures IsChosen(limits, cost, m, o)
  {
    assert NoOther(limits, cost, m, o.stage, Some(o)) && NoOther(limits, cost, m, if o.stage == Prefill then Decode else Prefill, other);
  }
}
