/** Limits on the flows in flight, over whole runs. */
module NetLimits {
  import opened Basics
  import opened FairShare
  import opened NetTopology
  import opened NetModel
  import opened NetCounters
  import opened NetEvents
  import opened NetAdvance
  import opened NetRuns
  import opened NetService
  import opened NetStarts

  // ----- over a run -----

  /** No link is over its limit, and no route crosses a limited link twice. */
  ghost predicate LimitsKept(topo: Topology, n: Net) {
    WithinLimits(topo, n.inflight) && RoutesOnce(topo, n)
  }

  lemma {:induction false} CompleteDoneKeepsLimits(c: Config, n: Net, ids: seq<FlowId>)
    requires LimitsKept(c.topo, n) && forall f | f in ids :: f in n.states.Keys
    ensures LimitsKept(c.topo, CompleteDone(c, n, ids))
    decreases ids
  {
    if ids != [] {
      var f := ids[0];
      CompleteKeepsLimits(c.topo, n, f, n.now);
      assert forall g | g in n.states.Keys :: CompleteTurn(c, n, f).states[g].flow == n.states[g].flow;
      CompleteDoneKeepsLimits(c, CompleteTurn(c, n, f), ids[1..]);
    }
  }

  lemma MovedKeepsLimits(c: Config, n: Net, t: real)
    requires ValidConfig(c) && FlowsOk(c, n) && LimitsKept(c.topo, n)
    ensures LimitsKept(c.topo, Moved(c, n, t))
  {
    forall f | f in n.states.Keys
      ensures Moved(c, n, t).states[f].flow == n.states[f].flow
    {
      MovedFlow(c, n, t, f);
    }
  }

  /** Advancing keeps every link within its limit. */
  lemma AdvanceKeepsLimits(c: Config, n: Net, t: real)
    requires ValidConfig(c) && FlowsOk(c, n) && LimitsKept(c.topo, n)
    ensures LimitsKept(c.topo, Advance(c, n, t))
  {
    var m := Moved(c, n, t);
    MovedKeepsLimits(c, n, t);
    CompleteDoneKeepsLimits(c, m, InOrder(m.active, Zeroes(m.active)));
    var k := Settle(c, m);
    AdmitAllKeepsLimits(c, k, AdmissionOrder(k));
  }

  /** Adding a flow keeps every link within its limit, unless its route crosses
      a limited link twice. */
  lemma AddKeepsLimits(c: Config, n: Net, flow: Flow)
    requires ValidConfig(c) && CountersOk(c.topo, n) && ValidFlow(c.topo, flow) && LimitsKept(c.topo, n) && CrossesOnce(c.topo, flow.route)
    ensures LimitsKept(c.topo, AddFlow(c, n, flow))
  {
    var j := Joined(c.topo, n, flow);
    AdmitAllKeepsLimits(c, j, AdmissionOrder(j));
  }

  // ----- routes that can break a limit -----

  /** Every link joins two endpoints. */
  predicate JoinsEndpoints(topo: Topology) {
    forall l | l in topo.links.Keys :: topo.links[l].src in topo.endpoints.Keys && topo.links[l].dst in topo.endpoints.Keys
  }

  /** The flows follow the route, or cross no limited link twice. */
  ghost predicate Follow(topo: Topology, n: Net, route: seq<LinkId>) {
    forall f | f in n.states.Keys :: n.states[f].flow.route == route || CrossesOnce(topo, n.states[f].flow.route)
  }

  /** Advancing a network within its limits takes it over one of them. */
  ghost predicate Overfills(c: Config, route: seq<LinkId>, n: Net, t: real) {
    && ValidNet(c, n) && WithinLimits(c.topo, n.inflight) && Follow(c.topo, n, route) && StopsAtEvent(c, n, t)
    && !WithinLimits(c.topo, Advance(c, n, t).inflight)
  }

  lemma OnceIsSafe(c: Config, route: seq<LinkId>, n: Net, t: real)
    requires CrossesOnce(c.topo, route)
    ensures !Overfills(c, route, n, t)
  {
    if ValidNet(c, n) && WithinLimits(c.topo, n.inflight) && Follow(c.topo, n, route) {
      AdvanceKeepsLimits(c, n, t);
    }
  }

  /** More bytes than the tolerance forgives. */
  function Enough(c: Config): (b: nat)
    requires c.epsBytes >= 0.0
    ensures b as real > c.epsBytes
  {
    c.epsBytes.Floor + 1
  }

  /** f waits to be admitted at t, with something to send. */
  ghost predicate Ready(c: Config, states: map<FlowId, FlowState>, f: FlowId, route: seq<LinkId>, t: real) {
    && f in states && states[f].status.Pending? && states[f].release == t && states[f].remaining > c.epsBytes
    && states[f].resources != {} && states[f].flow.route == route
  }

  ghost predicate AllReady(c: Config, states: map<FlowId, FlowState>, j: nat, k: nat, route: seq<LinkId>, t: real) {
    forall f: nat {:trigger Ready(c, states, f, route, t)} | j <= f < k :: Ready(c, states, f, route, t)
  }

  /** k flows are ready to take l, and after them one to take the route. */
  ghost predicate Lined(c: Config, states: map<FlowId, FlowState>, k: nat, l: LinkId, route: seq<LinkId>, t: real) {
    && (forall f: nat :: f in states.Keys <==> f < k + 1)
    && AllReady(c, states, 0, k, [l], t) && Ready(c, states, k, route, t)
  }

  /** The flow with another identifier, enough bytes, and its release at t. */
  function Sized(c: Config, flow: Flow, id: FlowId, t: real): Flow
    requires ValidConfig(c) && ValidFlow(c.topo, flow)
  {
    flow.(id := id, nbytes := Enough(c), earliest := t - RouteLatency(c.topo, flow.route))
  }

  lemma SizedIsReady(c: Config, flow: Flow, id: FlowId, t: real, states: map<FlowId, FlowState>)
    requires ValidConfig(c) && ValidFlow(c.topo, flow) && flow.route != [] && t >= RouteLatency(c.topo, flow.route)
    ensures ValidFlow(c.topo, Sized(c, flow, id, t))
    ensures Ready(c, states[id := NewState(c.topo, Sized(c, flow, id, t))], id, flow.route, t)
  {
    assert LinkResource(c.topo, flow.route[0]) in ResourcesOf(c.topo, Sized(c, flow, id, t));
  }

  /** A flow over the one link l. */
  function Filler(topo: Topology, l: LinkId): Flow
    requires l in topo.links
  {
    Flow(0, topo.links[l].src, topo.links[l].dst, 0, 0.0, [l])
  }

  lemma FillerCosts(topo: Topology, l: LinkId)
    requires ValidTopology(topo) && JoinsEndpoints(topo) && l in topo.links
    ensures ValidFlow(topo, Filler(topo, l)) && RouteLatency(topo, [l]) == topo.links[l].latency && CrossesOnce(topo, [l])
  {
    assert [l][1..] == [];
    assert forall k :: Occurrences([l], k) == if k == l then 1 else 0;
  }

  /** k flows wait for l until t. */
  ghost predicate Filled(c: Config, n: Net, k: nat, l: LinkId, t: real) {
    ValidNet(c, n) && AllWait(c, n) && (forall f: nat :: f in n.states.Keys <==> f < k) && AllReady(c, n.states, 0, k, [l], t)
  }

  lemma AddWaiting(c: Config, n: Net, flow: Flow) returns (n': Net)
    requires ValidNet(c, n) && AllWait(c, n) && ValidFlow(c.topo, flow) && flow.id !in n.states
    requires flow.earliest + RouteLatency(c.topo, flow.route) > c.epsTime
    ensures n' == AddFlow(c, n, flow) && ValidNet(c, n') && AllWait(c, n') && n'.states == n.states[flow.id := NewState(c.topo, flow)]
  {
    WaitingFlowJoins(c, n, flow);
    n' := AddFlow(c, n, flow);
  }

  lemma LineUp(c: Config, states: map<FlowId, FlowState>, states': map<FlowId, FlowState>, k: nat, st: FlowState, l: LinkId, route: seq<LinkId>, t: real)
    requires states' == states[k := st] && (forall f: nat :: f in states.Keys <==> f < k) && AllReady(c, states, 0, k, [l], t)
    requires Ready(c, states', k, route, t)
    ensures Lined(c, states', k, l, route, t)
    ensures route == [l] ==> AllReady(c, states', 0, k + 1, [l], t)
  {
    forall f: nat | f < k
      ensures Ready(c, states', f, [l], t)
    {
      assert Ready(c, states, f, [l], t);
    }
  }

  lemma AddReady(c: Config, n: Net, k: nat, flow: Flow, l: LinkId, t: real) returns (n': Net)
    requires ValidConfig(c) && ValidFlow(c.topo, flow) && flow.route != [] && t >= RouteLatency(c.topo, flow.route) && t > c.epsTime
    requires Filled(c, n, k, l, t)
    ensures ValidNet(c, n') && AllWait(c, n') && Lined(c, n'.states, k, l, flow.route, t)
    ensures flow.route == [l] ==> AllReady(c, n'.states, 0, k + 1, [l], t)
  {
    var f := Sized(c, flow, k, t);
    SizedIsReady(c, flow, k, t, n.states);
    n' := AddWaiting(c, n, f);
    LineUp(c, n.states, n'.states, k, NewState(c.topo, f), l, flow.route, t);
  }

  lemma {:induction false} Fill(c: Config, k: nat, l: LinkId, t: real) returns (n: Net)
    requires ValidConfig(c) && JoinsEndpoints(c.topo) && l in c.topo.links && t >= c.topo.links[l].latency && t > c.epsTime
    ensures Filled(c, n, k, l, t)
  {
    if k == 0 {
      n := EmptyNet(c.topo);
      EmptyIsValid(c);
    } else {
      n := Fill(c, k - 1, l, t);
      FillerCosts(c.topo, l);
      n := AddReady(c, n, k - 1, Filler(c.topo, l), l, t);
    }
  }

  // ----- admission one after the other -----

  /** j slots of l are taken, and none of any other link. */
  ghost predicate OnlyTaken(topo: Topology, inflight: map<LinkId, int>, l: LinkId, j: nat) {
    && (forall x :: x in inflight.Keys <==> Limited(topo, x))
    && forall x | x in inflight.Keys :: inflight[x] == if x == l then j else 0
  }

  lemma SlotsLeft(topo: Topology, inflight: map<LinkId, int>, l: LinkId, j: nat, route: seq<LinkId>)
    requires ValidTopology(topo) && OnlyTaken(topo, inflight, l, j) && Limited(topo, l) && j < topo.links[l].maxInflight.value
    ensures !Blocked(topo, inflight, route)
    ensures route == [l] ==> OnlyTaken(topo, Occupied(inflight, route), l, j + 1)
    ensures Occupied(inflight, route)[l] == j + Occurrences(route, l)
  {
    assert route == [l] ==> forall x :: Occurrences(route, x) == if x == l then 1 else 0;
  }

  /** k flows over l are let in before the last one, which then takes more
      slots than there are. */
  lemma {:induction false} AdmitBeyond(c: Config, n: Net, j: nat, k: nat, l: LinkId, route: seq<LinkId>, t: real, ids: seq<FlowId>)
    requires ValidConfig(c) && n.now == t && j <= k && AllReady(c, n.states, j, k, [l], t) && Ready(c, n.states, k, route, t)
    requires Limited(c.topo, l) && c.topo.links[l].maxInflight.value == k + 1 && OnlyTaken(c.topo, n.inflight, l, j)
    requires |ids| == k + 1 - j && (forall i | 0 <= i < |ids| :: ids[i] == i + j) && Occurrences(route, l) > 1
    requires forall f | f in ids :: f in n.states.Keys
    ensures !WithinLimits(c.topo, AdmitAll(c, n, ids).inflight)
    decreases k - j
  {
    assert Ready(c, n.states, j, if j < k then [l] else route, t);
    var n1 := Admit(c, n, j);
    SlotsLeft(c.topo, n.inflight, l, j, n.states[j].flow.route);
    DueIsAdmitted(c, n, j);
    if j < k {
      forall f: nat | j + 1 <= f < k
        ensures Ready(c, n1.states, f, [l], t)
      {
        assert Ready(c, n.states, f, [l], t);
      }
      AdmitBeyond(c, n1, j + 1, k, l, route, t, ids[1..]);
    } else {
      assert ids[1..] == [];
      assert AdmitAll(c, n, ids) == n1;
    }
  }

  lemma LinedAdmits(c: Config, n: Net, k: nat, l: LinkId, route: seq<LinkId>, t: real)
    requires ValidConfig(c) && n.now == t && Lined(c, n.states, k, l, route, t) && OnlyTaken(c.topo, n.inflight, l, 0)
    requires Limited(c.topo, l) && c.topo.links[l].maxInflight.value == k + 1 && Occurrences(route, l) > 1
    ensures !WithinLimits(c.topo, ActivateDue(c, n).inflight)
  {
    LinedRelease(c, n.states, k, l, route, t);
    OrderedTogether(n, k + 1, t);
    AdmitBeyond(c, n, 0, k, l, route, t, AdmissionOrder(n));
  }

  lemma NothingTaken(c: Config, n: Net, l: LinkId)
    requires ValidNet(c, n) && AllWait(c, n)
    ensures OnlyTaken(c.topo, n.inflight, l, 0) && WithinLimits(c.topo, n.inflight)
  {
    forall x | x in n.inflight.Keys
      ensures n.inflight[x] == 0
    {
      NothingHeld(c.topo, n, x);
    }
  }

  lemma LinedOverfills(c: Config, n: Net, k: nat, l: LinkId, route: seq<LinkId>, t: real)
    requires ValidNet(c, n) && AllWait(c, n) && t > c.epsTime && Lined(c, n.states, k, l, route, t)
    requires Limited(c.topo, l) && c.topo.links[l].maxInflight.value == k + 1 && Occurrences(route, l) > 1
    ensures WithinLimits(c.topo, n.inflight) && !WithinLimits(c.topo, Advance(c, n, t).inflight)
  {
    NothingTaken(c, n, l);
    WaitingTimePasses(c, n, t);
    LinedAdmits(c, n.(now := t), k, l, route, t);
  }

  lemma LinedRelease(c: Config, states: map<FlowId, FlowState>, k: nat, l: LinkId, route: seq<LinkId>, t: real)
    requires Lined(c, states, k, l, route, t)
    ensures forall f | f in states.Keys :: states[f].release == t && (states[f].flow.route == route || states[f].flow.route == [l])
  {
    forall f | f in states.Keys
      ensures states[f].release == t && (states[f].flow.route == route || states[f].flow.route == [l])
    {
      if f < k { assert Ready(c, states, f, [l], t); }
    }
  }

  /** A route that crosses a limited link twice can take it over its limit. */
  lemma TwiceOverfills(c: Config, flow: Flow, l: LinkId) returns (n: Net, t: real)
    requires ValidConfig(c) && JoinsEndpoints(c.topo) && ValidFlow(c.topo, flow)
    requires Limited(c.topo, l) && Occurrences(flow.route, l) > 1
    ensures Overfills(c, flow.route, n, t)
  {
    var k := c.topo.links[l].maxInflight.value - 1;
    t := 1.0 + c.epsTime + c.topo.links[l].latency + RouteLatency(c.topo, flow.route);
    n := Fill(c, k, l, t);
    n := AddReady(c, n, k, flow, l, t);
    LinedOverfills(c, n, k, l, flow.route, t);
    LinedRelease(c, n.states, k, l, flow.route, t);
    FillerCosts(c.topo, l);
    LinedStops(c, n, k, l, flow.route, t);
  }

  lemma LinedStops(c: Config, n: Net, k: nat, l: LinkId, route: seq<LinkId>, t: real)
    requires ValidNet(c, n) && AllWait(c, n) && t > c.epsTime && Lined(c, n.states, k, l, route, t)
    ensures StopsAtEvent(c, n, t)
  {
    LinedRelease(c, n.states, k, l, route, t);
    assert k in n.states;
    WaitingNextEvent(c, n, t);
  }

  /** Admission looks for one free slot per link. So flows that take a route
      can push a network within its limits over one exactly when the route
      crosses a limited link twice. */
  lemma RouteIsSafeIff(c: Config, flow: Flow)
    requires ValidConfig(c) && JoinsEndpoints(c.topo) && ValidFlow(c.topo, flow)
    ensures CrossesOnce(c.topo, flow.route) <==> forall n, t {:trigger Overfills(c, flow.route, n, t)} :: !Overfills(c, flow.route, n, t)
  {
    if CrossesOnce(c.topo, flow.route) {
      forall n, t
        ensures !Overfills(c, flow.route, n, t)
      {
        OnceIsSafe(c, flow.route, n, t);
      }
    } else {
      var l :| Limited(c.topo, l) && Occurrences(flow.route, l) > 1;
      var n, t := TwiceOverfills(c, flow, l);
    }
  }
}
