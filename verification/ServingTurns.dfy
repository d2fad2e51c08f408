/** What one turn of the serving loop does, and what a run of turns gives every
    request. */
module ServingTurns {
  import opened Basics
  import opened ServingModel
  import opened ServingSteps

  /** What one iteration costs: its time before jitter, and the pools it uses. */
  datatype StepCost = StepCost(time: real, pools: set<Pool>)

  /** By stage, size of the batch, longest context and largest take. */
  type CostModel = (Stage, nat, nat, nat) -> StepCost
  type Jitter = (nat, real) -> real

  /** The server between two steps. */
  datatype Moment = Moment(
    reqs: Requests,
    pending: seq<Rid>,
    running: seq<Rid>,
    kvUsed: nat,
    now: real,
    poolFree: map<Pool, real>,
    pfReady: real,
    dcReady: real)

  // ----- admission -----

  /** The next request has arrived, and there is room for it. */
  predicate CanAdmit(limits: Limits, a: Moment) {
    && a.pending != [] && a.pending[0] in a.reqs && a.reqs[a.pending[0]].arrival <= a.now
    && |a.running| < limits.maxRunning
    && (a.kvUsed + a.reqs[a.pending[0]].prompt + a.reqs[a.pending[0]].output) as real <= limits.capacity
  }

  /** The next request is admitted: it reserves prompt and output. */
  predicate AdmitsOne(limits: Limits, a: Moment, b: Moment) {
    && CanAdmit(limits, a)
    && var id := a.pending[0];
       b == a.(reqs := a.reqs[id := a.reqs[id].(startPrefill := Some(a.now))], pending := a.pending[1..],
               running := a.running + [id], kvUsed := a.kvUsed + a.reqs[id].prompt + a.reqs[id].output)
  }

  ghost predicate AdmitsSome(limits: Limits, a: Moment, b: Moment, k: nat)
    decreases k
  {
    if k == 0 then b == a
    else exists m {:trigger AdmitsOne(limits, m, b)} :: AdmitsSome(limits, a, m, k - 1) && AdmitsOne(limits, m, b)
  }

  /** Requests are admitted in order for as long as the next one can be. */
  ghost predicate AdmitsAll(limits: Limits, a: Moment, b: Moment) {
    !CanAdmit(limits, b) && exists k {:trigger AdmitsSome(limits, a, b, k)} :: AdmitsSome(limits, a, b, k)
  }

  /** `AdmitsAll`, to be opened by naming it. */
  ghost predicate Admits(limits: Limits, a: Moment, b: Moment) {
    forall m {:trigger AdmitsAll(limits, m, b)} | m == a :: AdmitsAll(limits, m, b)
  }

  // ----- what can run -----

  datatype Offer = Offer(stage: Stage, batch: seq<Take>, cost: StepCost, start: real)

  /** The k-th request in need gets what it still needs of its prompt, or what
      is left of the budget. */
  predicate TakesShare(limits: Limits, reqs: Requests, need: seq<Rid>, batch: seq<Take>, k: nat) {
    && k < |batch| && k < |need| && need[k] in reqs && batch[k].id == need[k] && 0 < batch[k].tokens
    && reqs[need[k]].prefilled <= reqs[need[k]].prompt
    && var rest, left := reqs[need[k]].prompt - reqs[need[k]].prefilled, limits.chunkTokens - Tokens(batch[..k]);
       batch[k].tokens == if rest < left then rest else left
  }

  /** The requests in need are served from the front until the budget or the
      room for requests is spent. */
  ghost predicate IsPrefill(limits: Limits, reqs: Requests, running: seq<Rid>, batch: seq<Take>) {
    var need := Incomplete(reqs, running);
    && 0 < |batch| <= |need|
    && (forall k: nat {:trigger TakesShare(limits, reqs, need, batch, k)} | k < |batch| :: TakesShare(limits, reqs, need, batch, k))
    && (|batch| < |need| ==> Tokens(batch) >= limits.chunkTokens || |batch| >= limits.maxBatch)
    && (|batch| > 1 ==> |batch| <= limits.maxBatch)
  }

  /** The first of those that can decode, a token for each. */
  ghost predicate IsDecode(limits: Limits, reqs: Requests, running: seq<Rid>, batch: seq<Take>) {
    var ready := DecodeReady(reqs, running);
    && batch != [] && |batch| == (if |ready| <= limits.maxBatch then |ready| else limits.maxBatch)
    && forall k {:trigger batch[k]} | 0 <= k < |batch| :: batch[k] == Take(ready[k], 1)
  }

  /** How much of its sequence the k-th request of the batch reaches. */
  function Reach(reqs: Requests, stage: Stage, t: Take): nat {
    if t.id !in reqs then 0
    else if stage == Prefill then reqs[t.id].prefilled + t.tokens else reqs[t.id].prompt + reqs[t.id].generated
  }

  ghost predicate IsLongest(reqs: Requests, stage: Stage, batch: seq<Take>, ctx: nat) {
    && (forall k {:trigger batch[k]} | 0 <= k < |batch| :: Reach(reqs, stage, batch[k]) <= ctx)
    && exists k {:trigger batch[k]} :: 0 <= k < |batch| && Reach(reqs, stage, batch[k]) == ctx
  }

  ghost predicate IsLargest(batch: seq<Take>, chunk: nat) {
    && (forall k {:trigger batch[k]} | 0 <= k < |batch| :: batch[k].tokens <= chunk)
    && exists k {:trigger batch[k]} :: 0 <= k < |batch| && batch[k].tokens == chunk
  }

  /** The cost model is asked for the size of the batch, its longest context and
      its largest take. */
  ghost predicate CostsAs(cost: CostModel, reqs: Requests, stage: Stage, batch: seq<Take>, c: StepCost, ctx: nat, chunk: nat) {
    IsLongest(reqs, stage, batch, ctx) && IsLargest(batch, chunk) && c == cost(stage, |batch|, ctx, chunk)
  }

  ghost predicate IsCost(cost: CostModel, reqs: Requests, stage: Stage, batch: seq<Take>, c: StepCost) {
    exists ctx, chunk {:trigger CostsAs(cost, reqs, stage, batch, c, ctx, chunk)} :: CostsAs(cost, reqs, stage, batch, c, ctx, chunk)
  }

  /** The first moment that is not before now, nor before the stage and the
      pools are free. */
  predicate StartsAt(m: Moment, ready: real, pools: set<Pool>, start: real) {
    && m.now <= start && ready <= start && (forall p | p in pools :: p in m.poolFree && m.poolFree[p] <= start)
    && (start == m.now || start == ready || exists p :: p in pools && p in m.poolFree && m.poolFree[p] == start)
  }

  ghost predicate IsOffer(limits: Limits, cost: CostModel, m: Moment, o: Offer) {
    && (if o.stage == Prefill then IsPrefill(limits, m.reqs, m.running, o.batch) else IsDecode(limits, m.reqs, m.running, o.batch))
    && IsCost(cost, m.reqs, o.stage, o.batch, o.cost)
    && StartsAt(m, if o.stage == Prefill then m.pfReady else m.dcReady, o.cost.pools, o.start)
  }

  ghost predicate NothingOffered(limits: Limits, cost: CostModel, m: Moment) {
    forall o {:trigger IsOffer(limits, cost, m, o)} :: !IsOffer(limits, cost, m, o)
  }

  /** Of what can run, the one that can start first; prefill wins ties. */
  ghost predicate IsChosen(limits: Limits, cost: CostModel, m: Moment, o: Offer) {
    && IsOffer(limits, cost, m, o)
    && forall p {:trigger IsOffer(limits, cost, m, p)} | IsOffer(limits, cost, m, p) ::
         o.start < p.start || (o.start == p.start && (o.stage == Prefill || p.stage == Decode))
  }

  // ----- what an iteration does -----

  /** One request before and after an iteration that serves it. */
  predicate IsServed(stage: Stage, tokens: nat, end: real, r: Request, r': Request) {
    if stage == Prefill then
      var full := r.prefilled + tokens >= r.prompt;
      r' == r.(prefilled := r.prefilled + tokens,
               firstToken := if full then Some(end) else r.firstToken,
               generated := if full then 1 else r.generated,
               tokenTimes := if full then r.tokenTimes + [end] else r.tokenTimes)
    else
      r' == r.(generated := r.generated + 1, tokenTimes := r.tokenTimes + [end],
               finish := if r.generated + 1 >= r.output then Some(end) else r.finish)
  }

  predicate ServesAt(x: Iteration, reqs: Requests, reqs': Requests, k: nat) {
    && k < |x.batch| && x.batch[k].id in reqs && x.batch[k].id in reqs'
    && IsServed(x.stage, x.batch[k].tokens, x.end, reqs[x.batch[k].id], reqs'[x.batch[k].id])
  }

  /** The requests of the batch are served, the others stay as they are. */
  ghost predicate Serves(x: Iteration, reqs: Requests, reqs': Requests) {
    && reqs'.Keys == reqs.Keys
    && (forall i, j | 0 <= i < j < |x.batch| :: x.batch[i].id != x.batch[j].id)
    && (forall id | id in reqs.Keys && !InBatch(x.batch, id) :: reqs'[id] == reqs[id])
    && forall k: nat {:trigger ServesAt(x, reqs, reqs', k)} | k < |x.batch| :: ServesAt(x, reqs, reqs', k)
  }

  /** The earliest time a stage is ready again, of those that ever ran. */
  predicate IsNext(pfReady: real, dcReady: real, end: real, t: real) {
    if pfReady > 0.0 || dcReady > 0.0 then
      && ((t == pfReady && pfReady > 0.0) || (t == dcReady && dcReady > 0.0))
      && (pfReady > 0.0 ==> t <= pfReady) && (dcReady > 0.0 ==> t <= dcReady)
    else t == end
  }

  /** Time goes on from now to then, never back. */
  ghost predicate GoesOn(now: real, pfReady: real, dcReady: real, end: real, later: real) {
    exists t {:trigger IsNext(pfReady, dcReady, end, t)} :: IsNext(pfReady, dcReady, end, t) && later == if t > now then t else now
  }

  /** The iteration takes its pools and its stage until it ends, time goes on to
      when a stage is ready, and finished requests leave. */
  ghost predicate Effects(a: Moment, x: Iteration, b: Moment) {
    && Serves(x, a.reqs, b.reqs) && b.pending == a.pending && b.running == Active(b.reqs, a.running)
    && b.poolFree.Keys == a.poolFree.Keys
    && (forall p | p in a.poolFree.Keys :: b.poolFree[p] == if p in x.pools then x.end else a.poolFree[p])
    && b.pfReady == (if x.stage == Prefill then x.end else a.pfReady)
    && b.dcReady == (if x.stage == Decode then x.end else a.dcReady)
    && GoesOn(a.now, b.pfReady, b.dcReady, x.end, b.now)
  }

  /** `Effects`, to be opened by naming it. */
  ghost predicate Effect(a: Moment, x: Iteration, b: Moment) {
    forall y {:trigger Effects(a, y, b)} | y == x :: Effects(a, y, b)
  }

  lemma IsEffect(a: Moment, x: Iteration, b: Moment)
    requires Serves(x, a.reqs, b.reqs) && b.pending == a.pending && b.running == Active(b.reqs, a.running)
    requires b.poolFree == SetClocks(a.poolFree, x.pools, x.end) && GoesOn(a.now, b.pfReady, b.dcReady, x.end, b.now)
    requires b.pfReady == (if x.stage == Prefill then x.end else a.pfReady) && b.dcReady == (if x.stage == Decode then x.end else a.dcReady)
    ensures Effect(a, x, b)
  {
    assert Effects(a, x, b);
  }

  ghost predicate RunsOffer(limits: Limits, cost: CostModel, jitter: Jitter, n: nat, a: Moment, x: Iteration, o: Offer) {
    && IsChosen(limits, cost, a, o)
    && x == Iteration(o.stage, o.start, o.start + jitter(n, o.cost.time), o.cost.pools, o.batch)
  }

  /** Iteration n: the chosen offer runs for its jittered time. */
  ghost predicate Runs(limits: Limits, cost: CostModel, jitter: Jitter, n: nat, a: Moment, x: Iteration, b: Moment) {
    && Effect(a, x, b)
    && exists o {:trigger RunsOffer(limits, cost, jitter, n, a, x, o)} :: RunsOffer(limits, cost, jitter, n, a, x, o)
  }

  // ----- turns -----

  /** One turn: what it found, what it admitted, and what ran. */
  datatype Turn = Turn(before: Moment, admitted: Moment, ran: Option<Iteration>, after: Moment)

  /** After admission an iteration runs; or time jumps to the next arrival; or
      there is nothing to do. */
  ghost predicate TurnOk(limits: Limits, cost: CostModel, jitter: Jitter, n: nat, t: Turn) {
    && Admits(limits, t.before, t.admitted)
    && var a := t.admitted;
       if t.ran.Some? then a.running != [] && Runs(limits, cost, jitter, n, a, t.ran.value, t.after)
       else if a.running == [] && a.pending != [] && a.pending[0] in a.reqs && a.reqs[a.pending[0]].arrival > a.now
       then t.after == a.(now := a.reqs[a.pending[0]].arrival)
       else t.after == a && NothingOffered(limits, cost, a)
  }

  /** `TurnOk`, to be opened by naming it. */
  ghost predicate IsTurn(limits: Limits, cost: CostModel, jitter: Jitter, n: nat, t: Turn) {
    forall u {:trigger TurnOk(limits, cost, jitter, n, u)} | u == t :: TurnOk(limits, cost, jitter, n, u)
  }

  lemma RanIsTurn(limits: Limits, cost: CostModel, jitter: Jitter, n: nat, before: Moment, a: Moment, x: Iteration, b: Moment)
    requires Admits(limits, before, a) && a.running != [] && Runs(limits, cost, jitter, n, a, x, b)
    ensures IsTurn(limits, cost, jitter, n, Turn(before, a, Some(x), b))
  {
  }

  lemma JumpIsTurn(limits: Limits, cost: CostModel, jitter: Jitter, n: nat, before: Moment, a: Moment)
    requires Admits(limits, before, a) && a.running == [] && a.pending != [] && a.pending[0] in a.reqs && a.reqs[a.pending[0]].arrival > a.now
    ensures IsTurn(limits, cost, jitter, n, Turn(before, a, None, a.(now := a.reqs[a.pending[0]].arrival)))
  {
  }

  lemma NothingIsTurn(limits: Limits, cost: CostModel, jitter: Jitter, n: nat, before: Moment, a: Moment)
    requires Admits(limits, before, a)
    requires a.running == [] ==> a.pending == [] || (a.pending[0] in a.reqs && a.reqs[a.pending[0]].arrival <= a.now)
    requires a.running != [] ==> NothingOffered(limits, cost, a)
    ensures IsTurn(limits, cost, jitter, n, Turn(before, a, None, a))
  {
    if a.running == [] {
      assert Incomplete(a.reqs, []) == [] && DecodeReady(a.reqs, []) == [];
    }
  }

  predicate Links(start: Moment, turns: seq<Turn>, i: nat) {
    i < |turns| && turns[i].before == if i == 0 then start else turns[i - 1].after
  }

  /** Turn after turn from the start; the i-th is iteration i + 1. */
  ghost predicate IsRun(limits: Limits, cost: CostModel, jitter: Jitter, start: Moment, turns: seq<Turn>) {
    && (forall i: nat {:trigger Links(start, turns, i)} | i < |turns| :: Links(start, turns, i))
    && forall i: nat {:trigger IsTurn(limits, cost, jitter, i + 1, turns[i])} | i < |turns| :: IsTurn(limits, cost, jitter, i + 1, turns[i])
  }

  function Last(start: Moment, turns: seq<Turn>): Moment {
    if turns == [] then start else turns[|turns| - 1].after
  }

  lemma NextTurn(limits: Limits, cost: CostModel, jitter: Jitter, start: Moment, turns: seq<Turn>, t: Turn)
    requires IsRun(limits, cost, jitter, start, turns) && t.before == Last(start, turns)
    requires IsTurn(limits, cost, jitter, |turns| + 1, t)
    ensures IsRun(limits, cost, jitter, start, turns + [t]) && Last(start, turns + [t]) == t.after
  {
    var all := turns + [t];
    forall i: nat | i < |all|
      ensures Links(start, all, i) && IsTurn(limits, cost, jitter, i + 1, all[i])
    {
      if i < |turns| { assert Links(start, turns, i) && IsTurn(limits, cost, jitter, i + 1, turns[i]); }
    }
  }

  /** The iterations that ran. */
  function Ran(turns: seq<Turn>): seq<Iteration> {
    if turns == [] then [] else
    var t := turns[|turns| - 1];
    Ran(turns[..|turns| - 1]) + (if t.ran.Some? then [t.ran.value] else [])
  }

  /** n turns led from the start to m, with these iterations. */
  ghost predicate RecordOk(limits: Limits, cost: CostModel, jitter: Jitter, start: Moment, turns: seq<Turn>, history: seq<Iteration>, n: nat, m: Moment) {
    IsRun(limits, cost, jitter, start, turns) && Last(start, turns) == m && |turns| == n && history == Ran(turns)
  }

  /** `RecordOk`, to be opened by naming it. */
  ghost predicate Records(limits: Limits, cost: CostModel, jitter: Jitter, start: Moment, turns: seq<Turn>, history: seq<Iteration>, n: nat, m: Moment) {
    forall k {:trigger RecordOk(limits, cost, jitter, start, turns, history, n, k)} | k == m ::
      RecordOk(limits, cost, jitter, start, turns, history, n, k)
  }

  lemma FreshRecords(limits: Limits, cost: CostModel, jitter: Jitter, start: Moment)
    ensures Records(limits, cost, jitter, start, [], [], 0, start)
  {
    assert RecordOk(limits, cost, jitter, start, [], [], 0, start);
  }

  lemma TurnRecords(limits: Limits, cost: CostModel, jitter: Jitter, start: Moment, turns: seq<Turn>, history: seq<Iteration>, n: nat, t: Turn)
    requires Records(limits, cost, jitter, start, turns, history, n, t.before) && IsTurn(limits, cost, jitter, n + 1, t)
    ensures Records(limits, cost, jitter, start, turns + [t], history + (if t.ran.Some? then [t.ran.value] else []), n + 1, t.after)
  {
    assert RecordOk(limits, cost, jitter, start, turns, history, n, t.before);
    NextTurn(limits, cost, jitter, start, turns, t);
    assert (turns + [t])[..|turns|] == turns;
    assert RecordOk(limits, cost, jitter, start, turns + [t], history + (if t.ran.Some? then [t.ran.value] else []), n + 1, t.after);
  }

  // ----- what a run gives a request -----

  /** The iteration serves the request and gives it a token: a decode, or the
      prefill that completes its prompt. */
  predicate GivesIn(a: Moment, x: Iteration, id: Rid) {
    && id in a.reqs
    && exists k {:trigger x.batch[k]} :: 0 <= k < |x.batch| && x.batch[k].id == id
         && (x.stage == Prefill ==> a.reqs[id].prefilled + x.batch[k].tokens >= a.reqs[id].prompt)
  }

  predicate Gives(t: Turn, id: Rid) {
    t.ran.Some? && GivesIn(t.admitted, t.ran.value, id)
  }

  /** When the iterations ended that gave the request a token. */
  function TokenEnds(turns: seq<Turn>, id: Rid): seq<real> {
    if turns == [] then [] else
    var t := turns[|turns| - 1];
    TokenEnds(turns[..|turns| - 1], id) + (if Gives(t, id) then [t.ran.value.end] else [])
  }

  lemma {:induction false} AdmissionKeepsTimes(limits: Limits, a: Moment, b: Moment, k: nat, id: Rid)
    requires AdmitsSome(limits, a, b, k) && id in a.reqs
    ensures id in b.reqs && b.reqs[id] == a.reqs[id].(startPrefill := b.reqs[id].startPrefill)
    decreases k
  {
    if k > 0 {
      var m :| AdmitsSome(limits, a, m, k - 1) && AdmitsOne(limits, m, b);
      AdmissionKeepsTimes(limits, a, m, k - 1, id);
    }
  }

  lemma IterationGives(a: Moment, x: Iteration, b: Moment, id: Rid)
    requires Serves(x, a.reqs, b.reqs) && id in a.reqs
    ensures id in b.reqs
    ensures b.reqs[id].tokenTimes == a.reqs[id].tokenTimes + (if GivesIn(a, x, id) then [x.end] else [])
  {
    if InBatch(x.batch, id) {
      var j :| 0 <= j < |x.batch| && x.batch[j].id == id;
      assert ServesAt(x, a.reqs, b.reqs, j);
    }
  }

  lemma TurnGives(limits: Limits, cost: CostModel, jitter: Jitter, n: nat, t: Turn, id: Rid)
    requires IsTurn(limits, cost, jitter, n, t) && id in t.before.reqs
    ensures id in t.after.reqs
    ensures t.after.reqs[id].tokenTimes == t.before.reqs[id].tokenTimes + (if Gives(t, id) then [t.ran.value.end] else [])
  {
    assert TurnOk(limits, cost, jitter, n, t);
    assert AdmitsAll(limits, t.before, t.admitted);
    var k: nat :| AdmitsSome(limits, t.before, t.admitted, k);
    AdmissionKeepsTimes(limits, t.before, t.admitted, k, id);
    if t.ran.Some? {
      assert Effects(t.admitted, t.ran.value, t.after);
      IterationGives(t.admitted, t.ran.value, t.after, id);
    }
  }

  /** Over a whole run, the token times of a request are the ends of the
      iterations that gave it a token, in order. */
  lemma {:induction false} TokensAreEnds(limits: Limits, cost: CostModel, jitter: Jitter, start: Moment, turns: seq<Turn>, id: Rid)
    requires IsRun(limits, cost, jitter, start, turns) && id in start.reqs && start.reqs[id].tokenTimes == []
    ensures id in Last(start, turns).reqs && Last(start, turns).reqs[id].tokenTimes == TokenEnds(turns, id)
  {
    if turns != [] {
      var n := |turns| - 1;
      RunFront(limits, cost, jitter, start, turns);
      TokensAreEnds(limits, cost, jitter, start, turns[..n], id);
      assert Links(start, turns, n) && IsTurn(limits, cost, jitter, n + 1, turns[n]);
      TurnGives(limits, cost, jitter, n + 1, turns[n], id);
    }
  }

  lemma RunFront(limits: Limits, cost: CostModel, jitter: Jitter, start: Moment, turns: seq<Turn>)
    requires IsRun(limits, cost, jitter, start, turns) && turns != []
    ensures IsRun(limits, cost, jitter, start, turns[..|turns| - 1])
  {
    var front := turns[..|turns| - 1];
    forall i: nat | i < |front|
      ensures Links(start, front, i) && IsTurn(limits, cost, jitter, i + 1, front[i])
    {
      assert Links(start, turns, i) && IsTurn(limits, cost, jitter, i + 1, turns[i]);
    }
  }
}
