/** A flow that has the network to itself. */
module LoneFlows {
  import opened Basics
  import opened Sums
  import opened FairShare
  import opened NetTopology
  import opened NetModel
  import opened NetCounters
  import opened NetEvents
  import opened NetAdvance
  import opened NetRuns
  import opened NetService
  import opened NetStarts

  /** No port or shared medium is slower than the slowest link of the route. */
  predicate Unthrottled(c: Config, flow: Flow)
    requires ValidTopology(c.topo) && ValidFlow(c.topo, flow)
  {
    if flow.route == [] then ResourcesOf(c.topo, flow) == {}
    else forall r | r in ResourcesOf(c.topo, flow) :: r in c.cap && BottleneckBandwidth(c.topo, flow.route) <= c.cap[r]
  }

  /** From time 0, with more to send than the tolerance forgives. */
  predicate RunsFree(c: Config, flow: Flow)
    requires ValidTopology(c.topo) && ValidFlow(c.topo, flow)
  {
    flow.earliest == 0.0 && flow.nbytes as real > c.epsBytes >= 0.0 && Unthrottled(c, flow)
  }

  // ----- the rate -----

  /** The only flow is being sent and has everything left. */
  ghost predicate Sending(c: Config, n: Net, flow: Flow, t: real) {
    && ValidNet(c, n) && NoOverrun(n) && n.now == t && n.states.Keys == {flow.id} && n.active == {flow.id} && n.results == map[]
    && n.states[flow.id].flow == flow && n.states[flow.id].status.Active? && n.states[flow.id].remaining == flow.nbytes as real
  }

  /** Alone, a flow is raised once, until one of its resources is full. */
  lemma LoneShare(uses: Usage, cap: Capacities, eps: real, f: FlowId) returns (r: Resource)
    requires ValidUsage(uses, cap) && NonNegative(cap) && eps >= 0.0 && uses.Keys == {f}
    ensures r in uses[f] && r in cap && MaxMin(uses, cap, eps)[f] == cap[r]
  {
    var d, residual', rest := FillRound(uses, cap, uses.Keys, 0.0, eps);
    assert rest == {};
    r :| r in cap.Keys && Contended(uses, uses.Keys, r) && Drawn(uses, uses.Keys, r, d) == cap[r];
    assert Users(uses, uses.Keys, r) == {f};
    assert Repeated(1, d) == Repeated(0, d) + d;
  }

  lemma LoneRate(c: Config, n: Net, flow: Flow, t: real)
    requires Sending(c, n, flow, t) && flow.route != []
    requires ValidFlow(c.topo, flow) && Unthrottled(c, flow)
    ensures flow.id in RatesOf(c, n) && RatesOf(c, n)[flow.id] == BottleneckBandwidth(c.topo, flow.route)
  {
    UsagesAreValid(c, n);
    RatesAreOk(c, n);
    assert FlowOk(c, n, flow.id);
    var r := LoneShare(Usages(n), c.cap, c.epsBytes, flow.id);
    var l := BottleneckLink(c.topo, flow.route);
  }

  // ----- the end -----

  lemma SendingNext(c: Config, n: Net, flow: Flow, t: real)
    requires Sending(c, n, flow, t) && flow.id in RatesOf(c, n) && RatesPositive(RatesOf(c, n))
    ensures NextEvent(c, n) == Some(t + flow.nbytes as real / RatesOf(c, n)[flow.id])
  {
    assert Candidate(c, n, RatesOf(c, n), flow.id) == Some(t + flow.nbytes as real / RatesOf(c, n)[flow.id]);
  }

  lemma OneResult(m: Net, k: Net, n': Net, f: FlowId, t: real)
    requires n'.states.Keys == {f} && n'.results.Keys <= n'.states.Keys && f in k.results && m.results == map[]
    requires FreshResults(m, k, 0.0) && k.now == t && forall g | g in k.results.Keys :: g in n'.results.Keys && n'.results[g] == k.results[g]
    ensures n'.results == map[f := t]
  {
  }

  /** A transfer that ends at t is dated t, whatever the tolerances. */
  lemma EndsExactly(c: Config, n: Net, flow: Flow, s: real, t: real)
    requires Sending(c, n, flow, s) && s <= t && flow.id in RatesOf(c, n) && RatesPositive(RatesOf(c, n))
    requires s + flow.nbytes as real / RatesOf(c, n)[flow.id] <= t
    ensures Advance(c, n, t).results == map[flow.id := t]
  {
    MovedEmpties(c, n, t, flow.id);
    var m, k, n' := AdvanceStages(c, n, t);
    CompleteDoneCovers(c, m, InOrder(m.active, Zeroes(m.active)), flow.id);
    OneResult(m, k, n', flow.id, t);
  }

  /** A flow that is being sent ends after its serialization at the bottleneck. */
  lemma SendingEnds(c: Config, n: Net, flow: Flow, t: real) returns (n': Net, t': real)
    requires ValidTopology(c.topo) && ValidFlow(c.topo, flow) && RunsFree(c, flow) && flow.route != [] && Sending(c, n, flow, t)
    ensures t' == t + flow.nbytes as real / BottleneckBandwidth(c.topo, flow.route) && t < t'
    ensures n' == Advance(c, n, t') && StopsAtEvent(c, n, t') && n'.now == t' && n'.results == map[flow.id := t']
  {
    LoneRate(c, n, flow, t);
    RatesAreOk(c, n);
    SendingNext(c, n, flow, t);
    QuotientSign(flow.nbytes as real, BottleneckBandwidth(c.topo, flow.route));
    t' := t + flow.nbytes as real / BottleneckBandwidth(c.topo, flow.route);
    n' := Advance(c, n, t');
    EndsExactly(c, n, flow, t, t');
    AdvanceKeeps(c, n, t');
  }

  // ----- the beginning -----

  lemma FreeLinks(c: Config, n: Net, route: seq<LinkId>)
    requires ValidNet(c, n) && n.active == {}
    ensures !Blocked(c.topo, n.inflight, route)
  {
    forall l | l in n.inflight.Keys
      ensures n.inflight[l] == 0
    {
      NothingHeld(c.topo, n, l);
    }
  }

  lemma EntersAlone(c: Config, n: Net, flow: Flow, t: real)
    requires ValidTopology(c.topo) && ValidFlow(c.topo, flow)
    requires n.states == map[flow.id := NewState(c.topo, flow)] && n.active == {} && n.results == map[] && n.now == t
    requires flow.earliest + RouteLatency(c.topo, flow.route) <= t + c.epsTime
    requires !Blocked(c.topo, n.inflight, flow.route) && !Instant(c, NewState(c.topo, flow))
    requires ValidNet(c, Admit(c, n, flow.id)) && NoOverrun(Admit(c, n, flow.id))
    ensures Sending(c, Admit(c, n, flow.id), flow, t)
  {
  }

  /** A flow over links without delay, up to the tolerance, is sent at once. */
  lemma StartsAtOnce(c: Config, flow: Flow) returns (n: Net)
    requires ValidConfig(c) && ValidFlow(c.topo, flow) && RunsFree(c, flow) && flow.route != [] && RouteLatency(c.topo, flow.route) <= c.epsTime
    ensures CountersOk(c.topo, EmptyNet(c.topo)) && n == AddFlow(c, EmptyNet(c.topo), flow) && Sending(c, n, flow, 0.0)
  {
    var e := EmptyNet(c.topo);
    EmptyIsValid(c);
    FreeLinks(c, e, flow.route);
    FirstFlowEnters(c, flow);
    NewIsHeavy(c, flow);
    AddFlowKeeps(c, e, flow);
    n := AddFlow(c, e, flow);
    EntersAlone(c, OneFlow(c.topo, flow), flow, 0.0);
  }

  /** Any other flow is sent after the delay of its route. */
  lemma StartsLater(c: Config, flow: Flow) returns (w: Net, n: Net)
    requires ValidConfig(c) && ValidFlow(c.topo, flow) && RunsFree(c, flow) && flow.route != [] && RouteLatency(c.topo, flow.route) > c.epsTime
    ensures CountersOk(c.topo, EmptyNet(c.topo)) && w == AddFlow(c, EmptyNet(c.topo), flow) && ValidNet(c, w) && NoOverrun(w)
    ensures w.now == 0.0 && w.results == map[] && w.states.Keys == {flow.id} && StopsAtEvent(c, w, RouteLatency(c.topo, flow.route))
    ensures n == Advance(c, w, RouteLatency(c.topo, flow.route)) && Sending(c, n, flow, RouteLatency(c.topo, flow.route))
  {
    var e, t := EmptyNet(c.topo), RouteLatency(c.topo, flow.route);
    EmptyIsValid(c);
    WaitingFlowJoins(c, e, flow);
    AddFlowKeeps(c, e, flow);
    w := AddFlow(c, e, flow);
    LoneWaits(c, w, flow, t);
    n := Advance(c, w, t);
  }

  lemma LoneWaits(c: Config, w: Net, flow: Flow, t: real)
    requires ValidNet(c, w) && NoOverrun(w) && AllWait(c, w) && ValidFlow(c.topo, flow) && RunsFree(c, flow) && flow.route != []
    requires t == RouteLatency(c.topo, flow.route) > c.epsTime && w.states == map[flow.id := NewState(c.topo, flow)]
    ensures StopsAtEvent(c, w, t) && Sending(c, Advance(c, w, t), flow, t)
  {
    assert flow.id in w.states;
    WaitingNextEvent(c, w, t);
    LoneAdvances(c, w, flow, t);
    AdvanceKeeps(c, w, t);
    AdvanceNoOverrun(c, w, t);
    FreeLinks(c, w, flow.route);
    NewIsHeavy(c, flow);
    EntersAlone(c, w.(now := t), flow, t);
  }

  lemma LoneAdvances(c: Config, w: Net, flow: Flow, t: real)
    requires ValidNet(c, w) && AllWait(c, w) && w.states.Keys == {flow.id} && t >= 0.0
    ensures Advance(c, w, t) == Admit(c, w.(now := t), flow.id)
  {
    WaitingTimePasses(c, w, t);
    var m := w.(now := t);
    assert OthersWait(c, m, flow.id);
    OneAdmitted(c, m, AdmissionOrder(m), flow.id);
  }

  lemma NothingToCross(c: Config, n: Net, flow: Flow)
    requires ValidTopology(c.topo) && ValidFlow(c.topo, flow) && RunsFree(c, flow) && flow.route == []
    requires n.states == map[flow.id := NewState(c.topo, flow)] && n.results == map[] && n.now == 0.0 <= c.epsTime
    ensures Admit(c, n, flow.id).results == map[flow.id := 0.0]
  {
  }

  /** A flow with nothing to cross is there at once. */
  lemma ArrivesAtOnce(c: Config, flow: Flow) returns (n: Net)
    requires ValidConfig(c) && ValidFlow(c.topo, flow) && RunsFree(c, flow) && flow.route == []
    ensures CountersOk(c.topo, EmptyNet(c.topo)) && n == AddFlow(c, EmptyNet(c.topo), flow) && ValidNet(c, n) && NoOverrun(n)
    ensures n.now == 0.0 && n.results == map[flow.id := 0.0] && n.states.Keys == {flow.id}
  {
    var e := EmptyNet(c.topo);
    EmptyIsValid(c);
    NothingToCross(c, OneFlow(c.topo, flow), flow);
    AddAdmitsOne(c, e, flow);
    AddFlowKeeps(c, e, flow);
    n := AddFlow(c, e, flow);
  }
}
