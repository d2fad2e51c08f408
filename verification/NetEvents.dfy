/** Time in the fluid network: the next event, the transfer up to it, and why
    every run makes progress. */
module NetEvents {
  import opened Basics
  import opened Sums
  import opened FairShare
  import opened NetTopology
  import opened NetModel
  import opened NetCounters

  // ----- rates of the active flows -----

  function Usages(n: Net): Usage {
    map f | f in n.states.Keys && f in n.active :: n.states[f].resources
  }

  lemma UsagesAreValid(c: Config, n: Net)
    requires ValidConfig(c) && FlowsOk(c, n)
    ensures ValidUsage(Usages(n), c.cap)
    ensures Positive(c.cap) && NonNegative(c.cap) && Usages(n).Keys == n.active
  {
    TableIsPositive(c.topo, c.cap);
    forall f | f in Usages(n).Keys
      ensures Constrained(Usages(n), f) && Usages(n)[f] <= c.cap.Keys
    {
      assert FlowOk(c, n, f);
      TableCovers(c.topo, c.cap, n.states[f].flow);
    }
  }

  ghost function RatesOf(c: Config, n: Net): (R: Rates)
    requires ValidConfig(c) && FlowsOk(c, n)
    ensures R.Keys == n.active
  {
    UsagesAreValid(c, n);
    MaxMin(Usages(n), c.cap, c.epsBytes)
  }

  /** Rates are positive and never above the bandwidth of a link on the route. */
  ghost predicate RatesOk(c: Config, n: Net, R: Rates) {
    && R.Keys == n.active && n.active <= n.states.Keys
    && (forall f | f in R.Keys :: R[f] > 0.0)
    && forall f, l | f in R.Keys && l in n.states[f].flow.route && l in c.topo.links.Keys :: R[f] <= c.topo.links[l].effective
  }

  lemma RateBelowCapacity(uses: Usage, cap: Capacities, R: Rates, f: FlowId, r: Resource)
    requires Feasible(uses, cap, R) && f in uses.Keys && r in uses[f] && r in cap.Keys
    requires forall g | g in uses.Keys :: R[g] > 0.0
    ensures R[f] <= cap[r]
  {
    assert Load(uses, R, r) <= cap[r];
    SumBoundsTerm(Above(Users(uses, uses.Keys, r), R, 0.0), f);
  }

  lemma RatesAreOk(c: Config, n: Net)
    requires ValidConfig(c) && FlowsOk(c, n)
    ensures RatesOk(c, n, RatesOf(c, n))
  {
    UsagesAreValid(c, n);
    var uses, R := Usages(n), RatesOf(c, n);
    MaxMinIsFair(uses, c.cap, c.epsBytes);
    forall f | f in R.Keys
      ensures R[f] > 0.0
    {
      MaxMinIsPositive(uses, c.cap, c.epsBytes, f);
    }
    forall f, l | f in R.Keys && l in n.states[f].flow.route && l in c.topo.links.Keys
      ensures R[f] <= c.topo.links[l].effective
    {
      assert FlowOk(c, n, f);
      assert CoversLink(c.topo, c.cap, l);
      RateBelowCapacity(uses, c.cap, R, f, LinkResource(c.topo, l));
    }
  }

  // ----- the next event -----

  /** When f alone would cause an event: its release, or the end of its
      transfer at the current rates. */
  function Candidate(c: Config, n: Net, R: Rates, f: FlowId): Option<real>
    requires f in n.states && RatesPositive(R)
  {
    var st := n.states[f];
    if st.status.Pending? && st.release > n.now + c.epsTime then Some(st.release)
    else if f in R.Keys then Some(n.now + st.remaining / R[f])
    else None
  }

  predicate RatesPositive(R: Rates) {
    forall f | f in R.Keys :: R[f] > 0.0
  }

  /** t is the earliest of the candidates; there is none when t is None. */
  ghost predicate IsNextEvent(c: Config, n: Net, R: Rates, t: Option<real>)
    requires RatesPositive(R)
  {
    && (forall f {:trigger Candidate(c, n, R, f)} | f in n.states.Keys ::
         Candidate(c, n, R, f).Some? ==> t.Some? && t.value <= Candidate(c, n, R, f).value)
    && (t.Some? ==> exists f {:trigger Candidate(c, n, R, f)} :: f in n.states.Keys && Candidate(c, n, R, f) == t)
  }

  lemma NextEventExists(c: Config, n: Net, R: Rates)
    requires RatesPositive(R)
    ensures exists t :: IsNextEvent(c, n, R, t)
  {
    var times := map f | f in n.states.Keys && Candidate(c, n, R, f).Some? :: Candidate(c, n, R, f).value;
    if times.Keys == {} {
      forall f | f in n.states.Keys
        ensures Candidate(c, n, R, f).None?
      {
        assert Candidate(c, n, R, f).Some? ==> f in times.Keys;
      }
      assert IsNextEvent(c, n, R, None);
    } else {
      var f := LeastKey(times.Keys, times);
      forall g | g in n.states.Keys && Candidate(c, n, R, g).Some?
        ensures times[f] <= Candidate(c, n, R, g).value
      {
        assert g in times.Keys;
      }
      assert Candidate(c, n, R, f) == Some(times[f]);
      assert IsNextEvent(c, n, R, Some(times[f]));
    }
  }

  lemma NextEventIsUnique(c: Config, n: Net, R: Rates, t: Option<real>, u: Option<real>)
    requires RatesPositive(R) && IsNextEvent(c, n, R, t) && IsNextEvent(c, n, R, u)
    ensures t == u
  {
    if t.Some? {
      var f :| f in n.states.Keys && Candidate(c, n, R, f) == t;
    }
    if u.Some? {
      var g :| g in n.states.Keys && Candidate(c, n, R, g) == u;
    }
  }

  ghost function NextEvent(c: Config, n: Net): (t: Option<real>)
    requires ValidConfig(c) && FlowsOk(c, n)
    ensures RatesPositive(RatesOf(c, n)) && IsNextEvent(c, n, RatesOf(c, n), t)
  {
    RatesAreOk(c, n);
    NextEventExists(c, n, RatesOf(c, n));
    var t :| IsNextEvent(c, n, RatesOf(c, n), t);
    t
  }

  /** Events lie in the future. */
  lemma NextEventIsLater(c: Config, n: Net)
    requires ValidConfig(c) && FlowsOk(c, n)
    ensures NextEvent(c, n).Some? ==> n.now <= NextEvent(c, n).value
    ensures NextEvent(c, n).Some? && Busy(c, n) ==> n.now < NextEvent(c, n).value
  {
    var t, R := NextEvent(c, n), RatesOf(c, n);
    if t.Some? {
      var f :| f in n.states.Keys && Candidate(c, n, R, f) == t;
      assert FlowOk(c, n, f);
      if f in R.Keys {
        QuotientSign(n.states[f].remaining, R[f]);
      }
    }
  }

  lemma QuotientSign(x: real, y: real)
    requires y > 0.0
    ensures x >= 0.0 ==> x / y >= 0.0
    ensures x > 0.0 ==> x / y > 0.0
  {}

  /** Every active flow still has more to send than the byte tolerance. */
  ghost predicate Busy(c: Config, n: Net) {
    n.active <= n.states.Keys && forall f | f in n.active :: n.states[f].remaining > c.epsBytes
  }

  /** What a network is between calls: consistent, counted, settled. */
  ghost predicate ValidNet(c: Config, n: Net) {
    ValidConfig(c) && FlowsOk(c, n) && CountersOk(c.topo, n) && Settled(c, n) && Busy(c, n)
  }

  // ----- deadlock freedom -----

  predicate Unfinished(n: Net, f: FlowId) {
    f in n.states.Keys && !n.states[f].status.Complete?
  }

  /** With no flow active every limited link is free, so no flow waits. */
  lemma IdleNetworkBlocksNobody(c: Config, n: Net, f: FlowId)
    requires ValidNet(c, n) && n.active == {} && f in n.states.Keys
    ensures !Due(c, n, f)
  {
    assert WaitsForSlot(c, n, f);
    if Due(c, n, f) {
      var l :| l in n.states[f].flow.route && Limited(c.topo, l) && l in n.inflight.Keys
        && n.inflight[l] >= c.topo.links[l].maxInflight.value;
      NothingHeld(c.topo, n, l);
      assert false;
    }
  }

  /** While a flow is unfinished there is a next event, even with limits on the
      flows in flight. */
  lemma NoDeadlock(c: Config, n: Net, f: FlowId)
    requires ValidNet(c, n) && Unfinished(n, f)
    ensures NextEvent(c, n).Some?
  {
    var t, R := NextEvent(c, n), RatesOf(c, n);
    if n.active != {} {
      var g :| g in n.active;
      assert FlowOk(c, n, g);
      assert Candidate(c, n, R, g).Some?;
    } else {
      assert FlowOk(c, n, f);
      IdleNetworkBlocksNobody(c, n, f);
      assert Candidate(c, n, R, f).Some?;
    }
  }
}
