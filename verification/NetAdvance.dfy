/** Advancing the network to a moment: transfer, completion, admission. */
module NetAdvance {
  import opened Basics
  import opened FairShare
  import opened NetTopology
  import opened NetModel
  import opened NetCounters
  import opened NetEvents

  /** The flow state after sending at a rate for a duration d from now. */
  function Sent(st: FlowState, rate: real, now: real, d: real): FlowState
    requires rate > 0.0
  {
    var finishing := st.remaining / rate <= d || now + st.remaining / rate <= now + d;
    st.(remaining := if finishing then 0.0 else Max(0.0, st.remaining - rate * d),
        firstService := if st.firstService.None? then Some(now) else st.firstService)
  }

  ghost predicate MovesTo(n: Net, R: Rates, d: real, n': Net, f: FlowId)
    requires RatesPositive(R) && f in n.states && f in n.served && f in n'.states && f in n'.served
  {
    if f in R.Keys then
      n'.states[f] == Sent(n.states[f], R[f], n.now, d) && n'.served[f] == n.served[f] + R[f] * d
    else
      n'.states[f] == n.states[f] && n'.served[f] == n.served[f]
  }

  ghost predicate IsTransfer(n: Net, R: Rates, d: real, n': Net)
    requires RatesPositive(R)
  {
    && n' == n.(now := n.now + d, states := n'.states, served := n'.served)
    && n'.states.Keys == n.states.Keys && n'.served.Keys == n.served.Keys
    && (forall f {:trigger MovesTo(n, R, d, n', f)} | f in n.states.Keys && f in n.served.Keys :: MovesTo(n, R, d, n', f))
  }

  /** All active flows send at their rates for d. */
  ghost function Transfer(n: Net, R: Rates, d: real): (n': Net)
    requires RatesPositive(R)
    ensures IsTransfer(n, R, d, n')
  {
    var m := n.(now := n.now + d,
      states := map f | f in n.states.Keys :: if f in R.Keys then Sent(n.states[f], R[f], n.now, d) else n.states[f],
      served := map f | f in n.served.Keys :: if f in R.Keys then n.served[f] + R[f] * d else n.served[f]);
    assert forall f {:trigger MovesTo(n, R, d, m, f)} | f in n.states.Keys && f in n.served.Keys :: MovesTo(n, R, d, m, f);
    var n' :| IsTransfer(n, R, d, n');
    n'
  }

  lemma PositiveProduct(x: real, y: real)
    requires x > 0.0 && y > 0.0
    ensures x * y > 0.0
  {}

  lemma TimesDifference(x: real, y: real, z: real)
    ensures x * (y - z) == x * y - x * z
  {}

  lemma ProductOrder(y: real, q: real, d: real)
    requires y > 0.0
    ensures q <= d <==> y * q <= y * d
  {
    TimesDifference(y, d, q);
    TimesDifference(y, q, d);
    if q <= d {
      NonNegativeProduct(y, d - q);
    } else {
      PositiveProduct(y, q - d);
    }
  }

  lemma QuotientBound(x: real, y: real, d: real)
    requires y > 0.0
    ensures x / y <= d <==> x <= y * d
  {
    var q := x / y;
    assert y * q == x;
    ProductOrder(y, q, d);
  }

  lemma SentAmounts(st: FlowState, rate: real, now: real, d: real)
    requires rate > 0.0 && d >= 0.0 && st.remaining >= 0.0
    ensures var st' := Sent(st, rate, now, d);
      && 0.0 <= st'.remaining <= st.remaining
      && st.remaining <= rate * d + st'.remaining
      && (st'.remaining > 0.0 ==> st.remaining == rate * d + st'.remaining)
      && (st.remaining / rate <= d ==> st'.remaining == 0.0)
  {
    QuotientBound(st.remaining, rate, d);
    NonNegativeProduct(rate, d);
  }

  lemma PaceKept(effective: real, rate: real, served: real, d: real, since: real)
    requires rate <= effective && d >= 0.0 && served <= effective * since
    ensures served + rate * d <= effective * (since + d)
  {
    NonNegativeProduct(effective - rate, d);
    assert effective * (since + d) == effective * since + effective * d;
  }

  lemma PacedAfter(c: Config, st: FlowState, served: real, rate: real, now: real, d: real)
    requires ValidConfig(c) && ValidFlow(c.topo, st.flow) && Paced(c, st, served, now) && d >= 0.0
    requires forall l | l in st.flow.route :: rate <= c.topo.links[l].effective
    ensures Paced(c, st, served + rate * d, now + d)
  {
    forall l | l in st.flow.route
      ensures PacedOn(c, st, served + rate * d, now + d, l)
    {
      assert PacedOn(c, st, served, now, l);
      PaceKept(c.topo.links[l].effective, rate, served, d, now + c.epsTime - st.release);
    }
  }

  /** Receiving a volume of service keeps an active flow consistent. */
  lemma ServedOk(c: Config, n: Net, n': Net, f: FlowId, volume: real)
    requires ValidConfig(c) && f in n.states && f in n.served && f in n'.states && f in n'.served
    requires FlowOk(c, n, f) && n.states[f].status.Active? && n.now <= n'.now
    requires n'.active == n.active && n'.results == n.results && n'.served[f] == n.served[f] + volume
    requires n'.states[f] == n.states[f].(remaining := n'.states[f].remaining, firstService := n'.states[f].firstService)
    requires 0.0 <= n'.states[f].remaining <= n.states[f].remaining && n.states[f].remaining <= volume + n'.states[f].remaining
    requires n'.states[f].remaining > 0.0 ==> n.states[f].remaining == volume + n'.states[f].remaining
    requires Paced(c, n.states[f], n'.served[f], n'.now)
    ensures FlowOk(c, n', f)
  {
    PacedTransfers(c, n.states[f], n'.states[f], n'.served[f], n'.now);
    assert StaticOk(c, n'.states[f], f);
  }

  /** The service an active flow receives, as one amount. */
  lemma ServiceReceived(c: Config, st: FlowState, rate: real, now: real, d: real, served: real) returns (volume: real, st': FlowState)
    requires ValidConfig(c) && ValidFlow(c.topo, st.flow) && Paced(c, st, served, now) && d >= 0.0
    requires rate > 0.0 && forall l | l in st.flow.route :: rate <= c.topo.links[l].effective
    requires st.remaining >= 0.0
    ensures volume == rate * d && st' == Sent(st, rate, now, d)
    ensures 0.0 <= st'.remaining <= st.remaining
    ensures st.remaining <= volume + st'.remaining
    ensures st'.remaining > 0.0 ==> st.remaining == volume + st'.remaining
    ensures Paced(c, st, served + volume, now + d)
    ensures st' == st.(remaining := st'.remaining, firstService := st'.firstService)
  {
    volume := rate * d;
    st' := Sent(st, rate, now, d);
    SentAmounts(st, rate, now, d);
    PacedAfter(c, st, served, rate, now, d);
  }

  lemma SentOk(c: Config, n: Net, R: Rates, d: real, n': Net, f: FlowId)
    requires ValidConfig(c) && f in n.states && f in n.served && f in n'.states && f in n'.served
    requires FlowOk(c, n, f) && RatesOk(c, n, R) && f in R.Keys && d >= 0.0
    requires n'.now == n.now + d && n'.active == n.active && n'.results == n.results
    requires MovesTo(n, R, d, n', f)
    ensures FlowOk(c, n', f)
  {
    var volume, st' := ServiceReceived(c, n.states[f], R[f], n.now, d, n.served[f]);
    assert n'.served[f] == n.served[f] + volume;
    assert n'.states[f] == st';
    ServedOk(c, n, n', f, volume);
  }

  lemma LaterOk(c: Config, n: Net, n': Net, f: FlowId)
    requires ValidConfig(c) && f in n.states && f in n.served && f in n'.states && f in n'.served
    requires FlowOk(c, n, f) && n.now <= n'.now && f !in n.active
    requires n'.active == n.active && n'.results == n.results
    requires n'.states[f] == n.states[f] && n'.served[f] == n.served[f]
    ensures FlowOk(c, n', f)
  {
  }

  lemma TransferKeepsFlows(c: Config, n: Net, R: Rates, d: real)
    requires ValidConfig(c) && FlowsOk(c, n) && RatesOk(c, n, R) && d >= 0.0
    ensures FlowsOk(c, Transfer(n, R, d))
  {
    var n' := Transfer(n, R, d);
    forall f | f in n'.states.Keys
      ensures FlowOk(c, n', f)
    {
      assert FlowOk(c, n, f);
      assert MovesTo(n, R, d, n', f);
      if f in R.Keys {
        SentOk(c, n, R, d, n', f);
      } else {
        LaterOk(c, n, n', f);
      }
    }
  }

  // ----- completion -----

  /** Complete, one after the other, the flows that have nothing left to send. */
  function CompleteDone(c: Config, n: Net, ids: seq<FlowId>): (n': Net)
    requires forall f | f in ids :: f in n.states.Keys
    ensures n'.states.Keys == n.states.Keys && n'.now == n.now
    decreases ids
  {
    if ids == [] then n else CompleteDone(c, CompleteTurn(c, n, ids[0]), ids[1..])
  }

  function CompleteTurn(c: Config, n: Net, f: FlowId): (n': Net)
    requires f in n.states.Keys
    ensures n'.states.Keys == n.states.Keys && n'.now == n.now
  {
    if n.states[f].remaining <= c.epsBytes then CompleteFlow(n, f, n.now) else n
  }

  lemma DoneCanComplete(c: Config, n: Net, f: FlowId)
    requires ValidConfig(c) && FlowsOk(c, n) && f in n.active && n.states[f].remaining <= c.epsBytes
    ensures f !in n.results && CanComplete(c, n, f, n.now) && n.states[f].status.Active?
  {
    assert FlowOk(c, n, f);
  }

  /** Flows only go forward: nothing finished is undone, nothing waiting is
      disturbed, and no flow comes back. */
  ghost predicate Forward(n: Net, n': Net) {
    && n'.states.Keys == n.states.Keys && n.now <= n'.now && n'.active <= n'.states.Keys
    && (forall f | f in n.states.Keys && n.states[f].status.Complete? :: n'.states[f].status.Complete?)
    && (forall f | f in n.results.Keys :: f in n'.results.Keys && n'.results[f] == n.results[f])
    && (forall f | f in n.states.Keys && n'.states[f].status.Pending? :: n.states[f] == n'.states[f])
    && (forall f | f in n.states.Keys :: n'.states[f].flow == n.states[f].flow)
  }

  /** Results that appear between n and n' carry a time within eps after now. */
  ghost predicate FreshResults(n: Net, n': Net, eps: real) {
    forall f | f in n'.results.Keys && f !in n.results.Keys :: n'.now <= n'.results[f] <= n'.now + eps
  }

  /** A stage that only completes flows, all of them now. */
  ghost predicate OnlyCompletes(n: Net, n': Net) {
    && Forward(n, n') && FreshResults(n, n', 0.0) && n'.now == n.now
    && n'.active <= n.active && n'.served == n.served
    && (forall f | f in n'.active :: n'.states[f] == n.states[f])
  }

  lemma OnlyCompletesChains(n: Net, n1: Net, n2: Net)
    requires OnlyCompletes(n, n1) && OnlyCompletes(n1, n2)
    ensures OnlyCompletes(n, n2)
  {
  }

  predicate Begun(n: Net, f: FlowId) {
    f in n.active || f in n.results
  }

  lemma CompleteTurnKeeps(c: Config, n: Net, f: FlowId)
    requires ValidConfig(c) && FlowsOk(c, n) && CountersOk(c.topo, n) && f in n.states && Begun(n, f)
    ensures var n1 := CompleteTurn(c, n, f);
      FlowsOk(c, n1) && CountersOk(c.topo, n1) && OnlyCompletes(n, n1)
  {
    assert FlowOk(c, n, f);
    if n.states[f].remaining <= c.epsBytes && f in n.active {
      DoneCanComplete(c, n, f);
      CompleteKeepsFlows(c, n, f, n.now);
      CompleteKeepsCounters(c.topo, n, f, n.now);
    }
  }

  lemma CompleteTurnEffect(c: Config, n: Net, f: FlowId)
    requires f in n.states && n.results.Keys <= n.states.Keys
    ensures var n1 := CompleteTurn(c, n, f);
      && (n.states[f].remaining <= c.epsBytes ==> f in n1.results)
      && (forall g | g in n.states.Keys :: n1.states[g].remaining == n.states[g].remaining)
      && (forall g {:trigger Begun(n1, g)} | g in n.states.Keys && Begun(n, g) :: Begun(n1, g))
  {
  }

  lemma {:induction false} CompleteDoneKeeps(c: Config, n: Net, ids: seq<FlowId>)
    requires ValidConfig(c) && FlowsOk(c, n) && CountersOk(c.topo, n)
    requires forall f | f in ids :: f in n.states.Keys && Begun(n, f)
    ensures var n' := CompleteDone(c, n, ids);
      && FlowsOk(c, n') && CountersOk(c.topo, n') && OnlyCompletes(n, n')
    decreases ids
  {
    if ids != [] {
      var n1 := CompleteTurn(c, n, ids[0]);
      CompleteTurnKeeps(c, n, ids[0]);
      CompleteTurnEffect(c, n, ids[0]);
      CompleteDoneKeeps(c, n1, ids[1..]);
      OnlyCompletesChains(n, n1, CompleteDone(c, n1, ids[1..]));
    }
  }

  lemma {:induction false} CompleteDoneCovers(c: Config, n: Net, ids: seq<FlowId>, f: FlowId)
    requires f in ids && n.results.Keys <= n.states.Keys && forall g | g in ids :: g in n.states.Keys
    requires n.states[f].remaining <= c.epsBytes
    ensures f in CompleteDone(c, n, ids).results
    decreases ids
  {
    CompleteTurnEffect(c, n, ids[0]);
    if f == ids[0] {
      ResultsStay(c, CompleteTurn(c, n, f), ids[1..], f);
    } else {
      CompleteDoneCovers(c, CompleteTurn(c, n, ids[0]), ids[1..], f);
    }
  }

  lemma {:induction false} ResultsStay(c: Config, n: Net, ids: seq<FlowId>, f: FlowId)
    requires f in n.results && forall g | g in ids :: g in n.states.Keys
    ensures f in CompleteDone(c, n, ids).results
    decreases ids
  {
    if ids != [] {
      ResultsStay(c, CompleteTurn(c, n, ids[0]), ids[1..], f);
    }
  }
}
