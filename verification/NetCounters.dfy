/** Slots in flight and bytes per link always equal a recount over the flows. */
module NetCounters {
  import opened Basics
  import opened Sums
  import opened FairShare
  import opened NetTopology
  import opened NetModel

  function Crossings(n: Net, l: LinkId): map<FlowId, real> {
    map f | f in n.states.Keys && f in n.active :: Occurrences(n.states[f].flow.route, l) as real
  }

  /** What one flow puts on l: its bytes once for every crossing. */
  ghost function BytesOver(flow: Flow, l: LinkId): real {
    Repeated(Occurrences(flow.route, l), flow.nbytes as real)
  }

  ghost function Traffic(states: map<FlowId, FlowState>, l: LinkId): map<FlowId, real> {
    map f | f in states.Keys :: BytesOver(states[f].flow, l)
  }

  /** The slots of l held by active flows, counting every crossing. */
  ghost function Holding(n: Net, l: LinkId): real {
    Sum(Crossings(n, l))
  }

  ghost function Carried(n: Net, l: LinkId): real {
    Sum(Traffic(n.states, l))
  }

  /** The counters equal a recount. */
  ghost predicate CountersOk(topo: Topology, n: Net) {
    && (forall l :: l in n.inflight.Keys <==> Limited(topo, l))
    && (forall l {:trigger Holding(n, l)} | l in n.inflight.Keys :: n.inflight[l] as real == Holding(n, l))
    && n.linkBytes.Keys == topo.links.Keys
    && (forall l {:trigger Carried(n, l)} | l in n.linkBytes.Keys :: n.linkBytes[l] as real == Carried(n, l))
  }

  /** Steps that change neither flows nor who is active keep the counters. */
  lemma SameCounters(topo: Topology, n: Net, n': Net)
    requires CountersOk(topo, n)
    requires n'.inflight == n.inflight && n'.linkBytes == n.linkBytes && n'.active == n.active
    requires n'.states.Keys == n.states.Keys && forall f | f in n.states.Keys :: n'.states[f].flow == n.states[f].flow
    ensures CountersOk(topo, n')
  {
    forall l
      ensures Holding(n', l) == Holding(n, l) && Carried(n', l) == Carried(n, l)
    {
      assert Crossings(n', l) == Crossings(n, l);
      assert Traffic(n'.states, l) == Traffic(n.states, l);
    }
  }

  lemma SlotTaken(n: Net, n': Net, f: FlowId, l: LinkId)
    requires f in n.states.Keys && f !in n.active && n'.active == n.active + {f}
    requires n'.states.Keys == n.states.Keys && forall g | g in n.states.Keys :: n'.states[g].flow == n.states[g].flow
    ensures Holding(n', l) == Holding(n, l) + Occurrences(n.states[f].flow.route, l) as real
  {
    SumAdd(Crossings(n, l), f, Occurrences(n.states[f].flow.route, l) as real);
    assert Crossings(n', l) == Crossings(n, l)[f := Occurrences(n.states[f].flow.route, l) as real];
  }

  lemma SlotFreed(n: Net, n': Net, f: FlowId, l: LinkId)
    requires f in n.states.Keys && f in n.active && n'.active == n.active - {f}
    requires n'.states.Keys == n.states.Keys && forall g | g in n.states.Keys :: n'.states[g].flow == n.states[g].flow
    ensures Holding(n', l) == Holding(n, l) - Occurrences(n.states[f].flow.route, l) as real
  {
    assert n.active == n'.active + {f};
    SlotTaken(n', n, f, l);
  }

  lemma CompleteKeepsCounters(topo: Topology, n: Net, f: FlowId, t: real)
    requires CountersOk(topo, n) && f in n.states.Keys
    requires n.states[f].status.Active? <==> f in n.active
    ensures CountersOk(topo, CompleteFlow(n, f, t))
  {
    var n' := CompleteFlow(n, f, t);
    if f !in n.active {
      SameCounters(topo, n, n');
    } else if f !in n.results {
      forall l
        ensures Holding(n', l) == Holding(n, l) - Occurrences(n.states[f].flow.route, l) as real
        ensures Carried(n', l) == Carried(n, l)
      {
        SlotFreed(n, n', f, l);
        assert Traffic(n'.states, l) == Traffic(n.states, l);
      }
    }
  }

  lemma AdmitKeepsCounters(c: Config, n: Net, f: FlowId)
    requires CountersOk(c.topo, n) && f in n.states.Keys
    requires n.states[f].status.Active? <==> f in n.active
    ensures CountersOk(c.topo, Admit(c, n, f))
  {
    var n' := Admit(c, n, f);
    if Due(c, n, f) {
      if Instant(c, n.states[f]) {
        CompleteKeepsCounters(c.topo, n, f, Max(n.now, n.states[f].release));
      } else if !Blocked(c.topo, n.inflight, n.states[f].flow.route) {
        forall l
          ensures Holding(n', l) == Holding(n, l) + Occurrences(n.states[f].flow.route, l) as real
          ensures Carried(n', l) == Carried(n, l)
        {
          SlotTaken(n, n', f, l);
          assert Traffic(n'.states, l) == Traffic(n.states, l);
        }
      }
    }
  }

  lemma {:induction false} AdmitAllKeepsCounters(c: Config, n: Net, ids: seq<FlowId>)
    requires ValidConfig(c) && FlowsOk(c, n) && CountersOk(c.topo, n) && forall f | f in ids :: f in n.states.Keys
    ensures CountersOk(c.topo, AdmitAll(c, n, ids))
    decreases ids
  {
    if ids != [] {
      assert FlowOk(c, n, ids[0]);
      AdmitKeepsFlows(c, n, ids[0]);
      AdmitKeepsCounters(c, n, ids[0]);
      AdmitAllKeepsCounters(c, Admit(c, n, ids[0]), ids[1..]);
    }
  }

  /** No counter goes below zero: the error for negative occupancy is
      unreachable. */
  lemma OccupancyIsNonNegative(topo: Topology, n: Net, l: LinkId)
    requires CountersOk(topo, n) && l in n.inflight.Keys
    ensures n.inflight[l] >= 0
  {
    assert n.inflight[l] as real == Holding(n, l);
    SumNonNegative(Crossings(n, l));
  }

  /** An active flow accounts for at least its own crossings, so completing it
      leaves every counter non-negative. */
  lemma OccupancyCoversFlow(topo: Topology, n: Net, f: FlowId, l: LinkId)
    requires CountersOk(topo, n) && l in n.inflight.Keys && f in n.states.Keys && f in n.active
    ensures Occurrences(n.states[f].flow.route, l) <= n.inflight[l]
  {
    assert n.inflight[l] as real == Holding(n, l);
    SumBoundsTerm(Crossings(n, l), f);
  }

  lemma NothingHeld(topo: Topology, n: Net, l: LinkId)
    requires CountersOk(topo, n) && l in n.inflight.Keys && n.active == {}
    ensures n.inflight[l] == 0
  {
    assert n.inflight[l] as real == Holding(n, l);
    SumEmpty(Crossings(n, l));
  }

  // ----- limits -----

  ghost predicate WithinLimits(topo: Topology, inflight: map<LinkId, int>) {
    forall l | l in inflight.Keys && Limited(topo, l) :: inflight[l] <= topo.links[l].maxInflight.value
  }

  /** The route crosses no limited link twice. */
  ghost predicate CrossesOnce(topo: Topology, route: seq<LinkId>) {
    forall l | Limited(topo, l) :: Occurrences(route, l) <= 1
  }

  /** Admitting a flow that is not blocked respects the limits if its route
      crosses no limited link twice. */
  lemma AdmissionRespectsLimits(topo: Topology, inflight: map<LinkId, int>, route: seq<LinkId>)
    requires WithinLimits(topo, inflight) && CrossesOnce(topo, route) && !Blocked(topo, inflight, route)
    ensures WithinLimits(topo, Occupied(inflight, route))
  {
    forall l | l in inflight.Keys && Limited(topo, l)
      ensures Occupied(inflight, route)[l] <= topo.links[l].maxInflight.value
    {
      OccursIffMember(route, l);
    }
  }

  ghost predicate RoutesOnce(topo: Topology, n: Net) {
    forall f | f in n.states.Keys :: CrossesOnce(topo, n.states[f].flow.route)
  }

  lemma CompleteKeepsLimits(topo: Topology, n: Net, f: FlowId, t: real)
    requires WithinLimits(topo, n.inflight) && f in n.states
    ensures WithinLimits(topo, CompleteFlow(n, f, t).inflight)
  {
  }

  lemma {:induction false} AdmitAllKeepsLimits(c: Config, n: Net, ids: seq<FlowId>)
    requires WithinLimits(c.topo, n.inflight) && RoutesOnce(c.topo, n) && forall f | f in ids :: f in n.states.Keys
    ensures WithinLimits(c.topo, AdmitAll(c, n, ids).inflight) && RoutesOnce(c.topo, AdmitAll(c, n, ids))
    decreases ids
  {
    if ids != [] {
      var f, n1 := ids[0], Admit(c, n, ids[0]);
      if Due(c, n, f) && !Instant(c, n.states[f]) && !Blocked(c.topo, n.inflight, n.states[f].flow.route) {
        AdmissionRespectsLimits(c.topo, n.inflight, n.states[f].flow.route);
      } else if Due(c, n, f) && Instant(c, n.states[f]) {
        CompleteKeepsLimits(c.topo, n, f, Max(n.now, n.states[f].release));
      }
      assert forall g | g in n.states.Keys :: n1.states[g].flow == n.states[g].flow;
      AdmitAllKeepsLimits(c, n1, ids[1..]);
    }
  }
}
