/** The rates in terms of links and ports: what may share them, and what holds
    each flow back. */
module NetRates {
  import opened Basics
  import opened Sums
  import opened FairShare
  import opened NetTopology
  import opened NetModel
  import opened NetCounters
  import opened NetEvents
  import opened NetAdvance
  import opened NetRuns
  import opened NetAdmission

  /** The active flows that cross the link. */
  function OnLink(n: Net, l: LinkId): set<FlowId>
    requires n.active <= n.states.Keys
  {
    set f | f in n.active && l in n.states[f].flow.route
  }

  /** The active flows that cross some link of the half-duplex group. */
  function OnGroup(topo: Topology, n: Net, group: nat): set<FlowId>
    requires n.active <= n.states.Keys
  {
    set f | f in n.active && exists l :: l in n.states[f].flow.route && l in topo.links && topo.links[l].halfGroup == Some(group)
  }

  function LeavingFrom(n: Net, e: EndpointId): set<FlowId>
    requires n.active <= n.states.Keys
  {
    set f | f in n.active && n.states[f].flow.src == e
  }

  function GoingTo(n: Net, e: EndpointId): set<FlowId>
    requires n.active <= n.states.Keys
  {
    set f | f in n.active && n.states[f].flow.dst == e
  }

  function RatesIn(R: Rates, s: set<FlowId>): map<FlowId, real>
    requires s <= R.Keys
  {
    map f | f in s :: R[f]
  }

  /** Together the flows are within the limit. */
  ghost predicate Within(R: Rates, s: set<FlowId>, limit: real)
    requires s <= R.Keys
  {
    Sum(RatesIn(R, s)) <= limit
  }

  /** f is one of the flows that fill the limit, and none of them is faster. */
  ghost predicate HeldBy(R: Rates, s: set<FlowId>, limit: real, eps: real, f: FlowId)
    requires s <= R.Keys
  {
    f in s && Sum(RatesIn(R, s)) >= limit - eps && forall g | g in s :: R[g] <= R[f]
  }

  ghost predicate LinkKept(topo: Topology, n: Net, R: Rates, l: LinkId)
    requires n.active <= n.states.Keys && n.active <= R.Keys && l in topo.links
  {
    match topo.links[l].halfGroup
    case None => Within(R, OnLink(n, l), topo.links[l].effective)
    case Some(group) => Within(R, OnGroup(topo, n, group), topo.links[l].effective)
  }

  ghost predicate PortsKept(topo: Topology, n: Net, R: Rates, e: EndpointId)
    requires n.active <= n.states.Keys && n.active <= R.Keys && e in topo.endpoints
  {
    && (topo.endpoints[e].injection.Some? ==> Within(R, LeavingFrom(n, e), topo.endpoints[e].injection.value))
    && (topo.endpoints[e].receive.Some? ==> Within(R, GoingTo(n, e), topo.endpoints[e].receive.value))
  }

  /** A full-duplex link of its route holds f back, or the slowest link of a
      half-duplex group that its route takes part in. */
  ghost predicate HeldByLink(topo: Topology, n: Net, R: Rates, eps: real, f: FlowId, l: LinkId)
    requires n.active <= n.states.Keys && n.active <= R.Keys && l in topo.links
  {
    match topo.links[l].halfGroup
    case None => HeldBy(R, OnLink(n, l), topo.links[l].effective, eps, f)
    case Some(group) => HeldBy(R, OnGroup(topo, n, group), topo.links[l].effective, eps, f)
  }

  ghost predicate HeldByPort(topo: Topology, n: Net, R: Rates, eps: real, f: FlowId, e: EndpointId)
    requires n.active <= n.states.Keys && n.active <= R.Keys && e in topo.endpoints
  {
    || (topo.endpoints[e].injection.Some? && HeldBy(R, LeavingFrom(n, e), topo.endpoints[e].injection.value, eps, f))
    || (topo.endpoints[e].receive.Some? && HeldBy(R, GoingTo(n, e), topo.endpoints[e].receive.value, eps, f))
  }

  // ----- the users of a resource -----

  lemma UsersAre(c: Config, n: Net, r: Resource, s: set<FlowId>)
    requires ValidConfig(c) && FlowsOk(c, n)
    requires forall f :: f in s <==> f in n.active && f in n.states && r in n.states[f].resources
    ensures Users(Usages(n), n.active, r) == s
  {
  }

  lemma UsersOfLink(c: Config, n: Net, l: LinkId)
    requires ValidConfig(c) && FlowsOk(c, n) && l in c.topo.links
    ensures c.topo.links[l].halfGroup.None? ==> Users(Usages(n), n.active, LinkResource(c.topo, l)) == OnLink(n, l)
    ensures c.topo.links[l].halfGroup.Some? ==>
      Users(Usages(n), n.active, LinkResource(c.topo, l)) == OnGroup(c.topo, n, c.topo.links[l].halfGroup.value)
  {
    var r := LinkResource(c.topo, l);
    match c.topo.links[l].halfGroup
    case None =>
      forall f | f in n.active
        ensures r in n.states[f].resources <==> l in n.states[f].flow.route
      {
        assert FlowOk(c, n, f);
      }
      UsersAre(c, n, r, OnLink(n, l));
    case Some(group) =>
      forall f | f in n.active
        ensures r in n.states[f].resources <==> f in OnGroup(c.topo, n, group)
      {
        assert FlowOk(c, n, f);
      }
      UsersAre(c, n, r, OnGroup(c.topo, n, group));
  }

  lemma UsersOfPorts(c: Config, n: Net, e: EndpointId)
    requires ValidConfig(c) && FlowsOk(c, n) && e in c.topo.endpoints
    ensures c.topo.endpoints[e].injection.Some? ==> Users(Usages(n), n.active, Inject(e)) == LeavingFrom(n, e)
    ensures c.topo.endpoints[e].receive.Some? ==> Users(Usages(n), n.active, Receive(e)) == GoingTo(n, e)
  {
    forall f | f in n.active
      ensures c.topo.endpoints[e].injection.Some? ==> (Inject(e) in n.states[f].resources <==> n.states[f].flow.src == e)
      ensures c.topo.endpoints[e].receive.Some? ==> (Receive(e) in n.states[f].resources <==> n.states[f].flow.dst == e)
    {
      assert FlowOk(c, n, f);
    }
    if c.topo.endpoints[e].injection.Some? { UsersAre(c, n, Inject(e), LeavingFrom(n, e)); }
    if c.topo.endpoints[e].receive.Some? { UsersAre(c, n, Receive(e), GoingTo(n, e)); }
  }

  lemma LoadIsSum(c: Config, n: Net, R: Rates, r: Resource, s: set<FlowId>)
    requires ValidConfig(c) && FlowsOk(c, n) && R.Keys == n.active && Usages(n).Keys == n.active
    requires Users(Usages(n), n.active, r) == s && s <= n.active
    ensures Load(Usages(n), R, r) == Sum(RatesIn(R, s))
  {
    assert Above(s, R, 0.0) == RatesIn(R, s);
    assert Load(Usages(n), R, r) == Sum(Above(s, R, 0.0));
  }

  // ----- the rates -----

  /** The rates keep every full-duplex link, half-duplex group and port within
      its limit, and every flow is held back by one that is full and on which
      none is faster. */
  lemma RatesAreMaxMin(c: Config, n: Net)
    requires ValidConfig(c) && FlowsOk(c, n)
    ensures var R := RatesOf(c, n);
      && R.Keys == n.active
      && (forall l | l in c.topo.links.Keys :: LinkKept(c.topo, n, R, l))
      && (forall e | e in c.topo.endpoints.Keys :: PortsKept(c.topo, n, R, e))
      && forall f | f in n.active ::
           || (exists l :: l in c.topo.links.Keys && HeldByLink(c.topo, n, R, c.epsBytes, f, l))
           || (exists e :: e in c.topo.endpoints.Keys && HeldByPort(c.topo, n, R, c.epsBytes, f, e))
  {
    var R := RatesOf(c, n);
    UsagesAreValid(c, n);
    TableIsPositive(c.topo, c.cap);
    MaxMinIsFair(Usages(n), c.cap, c.epsBytes);
    forall l | l in c.topo.links.Keys
      ensures LinkKept(c.topo, n, R, l)
    {
      LinkIsKept(c, n, R, l);
    }
    forall e | e in c.topo.endpoints.Keys
      ensures PortsKept(c.topo, n, R, e)
    {
      PortsAreKept(c, n, R, e);
    }
    forall f | f in n.active
      ensures (exists l :: l in c.topo.links.Keys && HeldByLink(c.topo, n, R, c.epsBytes, f, l))
        || (exists e :: e in c.topo.endpoints.Keys && HeldByPort(c.topo, n, R, c.epsBytes, f, e))
    {
      assert HasBottleneck(Usages(n), c.cap, R, c.epsBytes, f);
      var r :| Bottleneck(Usages(n), c.cap, R, c.epsBytes, f, r);
      IsHeld(c, n, R, f, r);
    }
  }

  lemma LinkIsKept(c: Config, n: Net, R: Rates, l: LinkId)
    requires ValidConfig(c) && FlowsOk(c, n) && R.Keys == n.active == Usages(n).Keys
    requires Feasible(Usages(n), c.cap, R) && l in c.topo.links
    ensures LinkKept(c.topo, n, R, l)
  {
    var r := LinkResource(c.topo, l);
    assert CoversLink(c.topo, c.cap, l);
    UsersOfLink(c, n, l);
    LoadIsSum(c, n, R, r, Users(Usages(n), n.active, r));
  }

  lemma PortsAreKept(c: Config, n: Net, R: Rates, e: EndpointId)
    requires ValidConfig(c) && FlowsOk(c, n) && R.Keys == n.active == Usages(n).Keys
    requires Feasible(Usages(n), c.cap, R) && e in c.topo.endpoints
    ensures PortsKept(c.topo, n, R, e)
  {
    UsersOfPorts(c, n, e);
    if c.topo.endpoints[e].injection.Some? {
      assert Inject(e) in c.cap.Keys;
      LoadIsSum(c, n, R, Inject(e), LeavingFrom(n, e));
    }
    if c.topo.endpoints[e].receive.Some? {
      assert Receive(e) in c.cap.Keys;
      LoadIsSum(c, n, R, Receive(e), GoingTo(n, e));
    }
  }

  lemma IsHeld(c: Config, n: Net, R: Rates, f: FlowId, r: Resource)
    requires ValidConfig(c) && FlowsOk(c, n) && R.Keys == n.active == Usages(n).Keys && f in n.active
    requires Bottleneck(Usages(n), c.cap, R, c.epsBytes, f, r)
    ensures (exists l :: l in c.topo.links.Keys && HeldByLink(c.topo, n, R, c.epsBytes, f, l))
      || (exists e :: e in c.topo.endpoints.Keys && HeldByPort(c.topo, n, R, c.epsBytes, f, e))
  {
    var s := Users(Usages(n), n.active, r);
    assert f in s;
    LoadIsSum(c, n, R, r, s);
    assert HeldBy(R, s, c.cap[r], c.epsBytes, f);
    if r.Link? || r.Half? {
      assert SetByLink(c.topo, c.cap, r);
      var l :| l in c.topo.links.Keys && LinkResource(c.topo, l) == r && c.cap[r] == c.topo.links[l].effective;
      UsersOfLink(c, n, l);
      assert HeldByLink(c.topo, n, R, c.epsBytes, f, l);
    } else {
      UsersOfPorts(c, n, r.endpoint);
      assert HeldByPort(c.topo, n, R, c.epsBytes, f, r.endpoint);
    }
  }

  // ----- advancing at these rates -----

  lemma {:induction false} NotDoneStays(c: Config, n: Net, ids: seq<FlowId>, f: FlowId)
    requires (forall g | g in ids :: g in n.states.Keys) && f in n.active && f in n.states && n.states[f].remaining > c.epsBytes
    ensures f in CompleteDone(c, n, ids).active && CompleteDone(c, n, ids).states[f] == n.states[f]
    decreases ids
  {
    if ids != [] {
      NotDoneStays(c, CompleteTurn(c, n, ids[0]), ids[1..], f);
    }
  }

  lemma SentIs(st: FlowState, rate: real, now: real, d: real, sent: real)
    requires rate > 0.0 && d >= 0.0 && sent == rate * d
    ensures Sent(st, rate, now, d).remaining == if st.remaining <= sent then 0.0 else st.remaining - sent
  {
    QuotientBound(st.remaining, rate, d);
  }

  /** What is left, and when service began, after sending at rate r for d. */
  ghost predicate IsSent(st: FlowState, st': FlowState, now: real, sent: real) {
    && st'.remaining == (if st.remaining <= sent then 0.0 else st.remaining - sent)
    && st'.firstService == Some(if st.firstService.Some? then st.firstService.value else now)
    && st'.status == st.status
  }

  lemma MovedIsSent(n: Net, R: Rates, d: real, m: Net, f: FlowId)
    requires RatesPositive(R) && d >= 0.0 && f in R && f in n.states && f in n.served && f in m.states && f in m.served
    requires MovesTo(n, R, d, m, f)
    ensures IsSent(n.states[f], m.states[f], n.now, R[f] * d)
  {
    SentIs(n.states[f], R[f], n.now, d, R[f] * d);
  }

  lemma MovedAmounts(c: Config, n: Net, t: real, f: FlowId)
    requires ValidConfig(c) && FlowsOk(c, n) && f in n.active && n.now <= t
    ensures f in n.states && f in RatesOf(c, n)
    ensures IsSent(n.states[f], Moved(c, n, t).states[f], n.now, RatesOf(c, n)[f] * (t - n.now))
  {
    RatesAreOk(c, n);
    MovedIsSent(n, RatesOf(c, n), t - n.now, Moved(c, n, t), f);
  }

  /** By time t an active flow has sent its rate times the time; it is complete
      at t once no more than the tolerance is left, and goes on otherwise. */
  lemma ActiveFlowAdvances(c: Config, n: Net, t: real, f: FlowId)
    requires ValidNet(c, n) && n.now <= t && f in n.active
    ensures f in n.states && f in RatesOf(c, n)
    ensures var n', sent, st := Advance(c, n, t), RatesOf(c, n)[f] * (t - n.now), n.states[f];
      var left := if st.remaining <= sent then 0.0 else st.remaining - sent;
      if left <= c.epsBytes then f in n'.results && n'.results[f] == t && f !in n'.active
      else
        && f in n'.active && n'.states[f].remaining == left
        && n'.states[f].firstService == Some(if st.firstService.Some? then st.firstService.value else n.now)
  {
    MovedAmounts(c, n, t, f);
    var m, k, n' := AdvanceStages(c, n, t);
    MovedKeeps(c, n, t);
    SettleKeeps(c, m);
    assert FlowOk(c, n, f) && FlowOk(c, k, f) && FlowOk(c, n', f);
    if m.states[f].remaining > c.epsBytes {
      NotDoneStays(c, m, InOrder(m.active, Zeroes(m.active)), f);
    } else {
      CompleteDoneCovers(c, m, InOrder(m.active, Zeroes(m.active)), f);
    }
    OthersOfThePass(c, k, f);
  }
}
