/** What flows receive, how early they can finish, and how flows are added. */
module NetService {
  import opened Basics
  import opened Sums
  import opened FairShare
  import opened NetTopology
  import opened NetModel
  import opened NetCounters
  import opened NetEvents
  import opened NetAdvance
  import opened NetRuns

  // ----- service -----

  predicate WithinBytes(n: Net, f: FlowId)
    requires f in n.states && f in n.served
  {
    n.served[f] <= n.states[f].flow.nbytes as real
  }

  /** No flow has received more than its bytes. */
  ghost predicate NoOverrun(n: Net)
    requires n.served.Keys == n.states.Keys
  {
    forall f {:trigger WithinBytes(n, f)} | f in n.states.Keys :: WithinBytes(n, f)
  }

  /** The target does not pass the next event. */
  ghost predicate StopsAtEvent(c: Config, n: Net, t: real)
    requires ValidConfig(c) && FlowsOk(c, n)
  {
    n.now <= t && (NextEvent(c, n).Some? ==> t <= NextEvent(c, n).value)
  }

  lemma MovedWithinBytes(c: Config, n: Net, t: real, f: FlowId)
    requires ValidConfig(c) && FlowsOk(c, n) && StopsAtEvent(c, n, t) && f in n.states && WithinBytes(n, f)
    ensures WithinBytes(Moved(c, n, t), f)
  {
    var R, next := RatesOf(c, n), NextEvent(c, n);
    var d := t - n.now;
    assert FlowOk(c, n, f);
    assert MovesTo(n, R, d, Moved(c, n, t), f);
    if f in R.Keys {
      assert Candidate(c, n, R, f).Some?;
      ShortOfEnd(n.states[f].remaining, R[f], d);
    }
  }

  lemma ShortOfEnd(remaining: real, rate: real, d: real)
    requires rate > 0.0 && d <= remaining / rate
    ensures rate * d <= remaining
  {
    var q := remaining / rate;
    assert q * rate == remaining;
    NonNegativeProduct(rate, q - d);
    assert rate * (q - d) == remaining - rate * d;
  }

  /** Stopping at every event, no flow ever receives more than its bytes. */
  lemma AdvanceNoOverrun(c: Config, n: Net, t: real)
    requires ValidNet(c, n) && StopsAtEvent(c, n, t) && NoOverrun(n)
    ensures FlowsOk(c, Advance(c, n, t)) && NoOverrun(Advance(c, n, t))
  {
    var m, k, n' := AdvanceStages(c, n, t);
    forall f | f in n'.states.Keys
      ensures WithinBytes(n', f)
    {
      assert WithinBytes(n, f);
      MovedWithinBytes(c, n, t, f);
    }
  }

  /** A completed flow that had to be transferred has received its bytes, up
      to the byte tolerance. */
  lemma CompletedIsServed(c: Config, n: Net, f: FlowId)
    requires ValidNet(c, n) && NoOverrun(n) && f in n.results
    requires n.states[f].resources != {} && n.states[f].flow.nbytes as real > c.epsBytes
    ensures n.states[f].flow.nbytes as real - c.epsBytes <= n.served[f] <= n.states[f].flow.nbytes as real
  {
    assert FlowOk(c, n, f);
    assert WithinBytes(n, f);
  }

  // ----- the unloaded estimate is a lower bound -----

  /** How far the tolerances let a flow finish early. */
  function Slack(c: Config, flow: Flow): real
    requires ValidTopology(c.topo) && ValidFlow(c.topo, flow)
  {
    c.epsTime + (if flow.route == [] then 0.0 else c.epsBytes / BottleneckBandwidth(c.topo, flow.route))
  }

  lemma PacedFinish(nbytes: real, eps: real, bandwidth: real, elapsed: real)
    requires bandwidth > 0.0 && nbytes - eps <= bandwidth * elapsed
    ensures nbytes / bandwidth - eps / bandwidth <= elapsed
  {
    var x, y := nbytes / bandwidth, eps / bandwidth;
    assert x * bandwidth == nbytes && y * bandwidth == eps;
    assert bandwidth * (x - y) == nbytes - eps;
    assert bandwidth * (x - y - elapsed) == bandwidth * (x - y) - bandwidth * elapsed;
    if elapsed < x - y {
      PositiveProduct(bandwidth, x - y - elapsed);
    }
  }

  lemma SmallQuotient(x: real, y: real, b: real)
    requires b > 0.0 && x <= y
    ensures x / b <= y / b
  {
  }

  /** Service is paced by the slowest link of the route. */
  lemma PacedAtBottleneck(c: Config, st: FlowState, served: real, t: real)
    requires ValidTopology(c.topo) && ValidFlow(c.topo, st.flow) && st.flow.route != [] && Paced(c, st, served, t)
    ensures served <= BottleneckBandwidth(c.topo, st.flow.route) * (t + c.epsTime - st.release)
  {
    var l := BottleneckLink(c.topo, st.flow.route);
    assert PacedOn(c, st, served, t, l);
  }

  /** A completed flow with something to transfer over links was served. */
  lemma RoutedIsServed(c: Config, n: Net, f: FlowId)
    requires ValidNet(c, n) && f in n.results && f in n.states && f in n.served && FlowOk(c, n, f)
    requires n.states[f].flow.route != [] && n.states[f].flow.nbytes as real > c.epsBytes
    ensures n.states[f].flow.nbytes as real - c.epsBytes <= n.served[f] && Paced(c, n.states[f], n.served[f], n.results[f])
  {
    assert LinkResource(c.topo, n.states[f].flow.route[0]) in ResourcesOf(c.topo, n.states[f].flow);
  }

  /** No flow finishes before its unloaded estimate, beyond the tolerances. */
  lemma NoEarlyFinish(c: Config, n: Net, f: FlowId)
    requires ValidNet(c, n) && f in n.results && f in n.states && ValidFlow(c.topo, n.states[f].flow)
    ensures IdealFinish(c.topo, n.states[f].flow) - Slack(c, n.states[f].flow) <= n.results[f]
  {
    var st, flow := n.states[f], n.states[f].flow;
    assert FlowOk(c, n, f);
    if flow.route != [] {
      var b := BottleneckBandwidth(c.topo, flow.route);
      SmallQuotient(0.0, c.epsBytes, b);
      if flow.nbytes as real <= c.epsBytes {
        SmallQuotient(flow.nbytes as real, c.epsBytes, b);
      } else {
        RoutedIsServed(c, n, f);
        PacedAtBottleneck(c, st, n.served[f], n.results[f]);
        PacedFinish(flow.nbytes as real, c.epsBytes, b, n.results[f] + c.epsTime - st.release);
      }
    }
  }

  /** The delay charged to contention (`contention_delay_s`). */
  function ContentionDelay(topo: Topology, flow: Flow, finish: real): real
    requires ValidTopology(topo) && ValidFlow(topo, flow)
  {
    Max(0.0, finish - IdealFinish(topo, flow))
  }

  /** With no tolerance, finish time is exactly the ideal plus contention. */
  lemma FinishDecomposes(c: Config, n: Net, f: FlowId)
    requires ValidNet(c, n) && f in n.results && f in n.states && ValidFlow(c.topo, n.states[f].flow)
    requires c.epsTime == 0.0 && c.epsBytes == 0.0
    ensures var flow := n.states[f].flow;
      n.results[f] == IdealFinish(c.topo, flow) + ContentionDelay(c.topo, flow, n.results[f])
  {
    NoEarlyFinish(c, n, f);
  }

  // ----- adding flows -----

  function WithBytes(linkBytes: map<LinkId, nat>, route: seq<LinkId>, nbytes: nat): (m: map<LinkId, nat>)
    requires forall l | l in route :: l in linkBytes.Keys
    ensures m.Keys == linkBytes.Keys
    decreases route
  {
    if route == [] then linkBytes
    else WithBytes(linkBytes[route[0] := linkBytes[route[0]] + nbytes], route[1..], nbytes)
  }

  lemma {:induction false} BytesAdded(linkBytes: map<LinkId, nat>, route: seq<LinkId>, nbytes: nat, l: LinkId)
    requires l in linkBytes && forall k | k in route :: k in linkBytes.Keys
    ensures WithBytes(linkBytes, route, nbytes)[l] as real == linkBytes[l] as real + Repeated(Occurrences(route, l), nbytes as real)
    decreases route
  {
    if route != [] {
      BytesAdded(linkBytes[route[0] := linkBytes[route[0]] + nbytes], route[1..], nbytes, l);
    }
  }

  function NewState(topo: Topology, flow: Flow): FlowState
    requires ValidTopology(topo) && ValidFlow(topo, flow)
  {
    FlowState(flow, ResourcesOf(topo, flow), flow.earliest + RouteLatency(topo, flow.route), flow.nbytes as real, None, None, Pending)
  }

  /** The flow joins as pending; its bytes are counted on every link it uses. */
  function Joined(topo: Topology, n: Net, flow: Flow): Net
    requires ValidTopology(topo) && ValidFlow(topo, flow) && n.linkBytes.Keys == topo.links.Keys
  {
    n.(states := n.states[flow.id := NewState(topo, flow)],
       linkBytes := WithBytes(n.linkBytes, flow.route, flow.nbytes),
       served := n.served[flow.id := 0.0])
  }

  ghost function AddFlow(c: Config, n: Net, flow: Flow): Net
    requires ValidConfig(c) && ValidFlow(c.topo, flow) && CountersOk(c.topo, n)
  {
    ActivateDue(c, Joined(c.topo, n, flow))
  }

  lemma JoinKeepsFlows(c: Config, n: Net, flow: Flow)
    requires ValidConfig(c) && FlowsOk(c, n) && CountersOk(c.topo, n) && ValidFlow(c.topo, flow) && flow.id !in n.states
    ensures FlowsOk(c, Joined(c.topo, n, flow))
  {
    var n' := Joined(c.topo, n, flow);
    forall f | f in n'.states.Keys
      ensures FlowOk(c, n', f)
    {
      if f != flow.id {
        assert FlowOk(c, n, f);
        FlowUntouched(c, n, n', f);
      }
    }
  }

  lemma JoinCarries(states: map<FlowId, FlowState>, f: FlowId, st: FlowState, l: LinkId)
    requires f !in states
    ensures Sum(Traffic(states[f := st], l)) == Sum(Traffic(states, l)) + BytesOver(st.flow, l)
  {
    SumAdd(Traffic(states, l), f, BytesOver(st.flow, l));
    assert Traffic(states[f := st], l) == Traffic(states, l)[f := BytesOver(st.flow, l)];
  }

  lemma JoinKeepsCounters(c: Config, n: Net, flow: Flow)
    requires ValidConfig(c) && FlowsOk(c, n) && CountersOk(c.topo, n) && ValidFlow(c.topo, flow) && flow.id !in n.states
    ensures CountersOk(c.topo, Joined(c.topo, n, flow))
  {
    var n' := Joined(c.topo, n, flow);
    forall l | l in n'.inflight.Keys
      ensures n'.inflight[l] as real == Holding(n', l)
    {
      assert n.inflight[l] as real == Holding(n, l);
      assert Crossings(n', l) == Crossings(n, l);
    }
    forall l | l in n'.linkBytes.Keys
      ensures n'.linkBytes[l] as real == Carried(n', l)
    {
      assert n.linkBytes[l] as real == Carried(n, l);
      JoinCarries(n.states, flow.id, NewState(c.topo, flow), l);
      BytesAdded(n.linkBytes, flow.route, flow.nbytes, l);
    }
  }

  ghost predicate OthersWait(c: Config, n: Net, f: FlowId) {
    forall g {:trigger WaitsForSlot(c, n, g)} | g in n.states.Keys && g != f :: WaitsForSlot(c, n, g)
  }

  /** When only f may be admitted, a pass is the turn of f. */
  lemma {:induction false} OneAdmitted(c: Config, n: Net, ids: seq<FlowId>, f: FlowId)
    requires OthersWait(c, n, f) && f in ids && f !in n.results && forall g | g in ids :: g in n.states.Keys
    ensures AdmitAll(c, n, ids) == Admit(c, n, f)
    decreases ids
  {
    if ids[0] == f {
      var n' := Admit(c, n, f);
      AdmitOnlyAdmits(c, n, f);
      forall g | g in n'.states.Keys
        ensures WaitsForSlot(c, n', g)
      {
        if g != f { StillWaits(c, n, n', g); }
      }
      AdmitAllOfSettled(c, n', ids[1..]);
    } else {
      assert WaitsForSlot(c, n, ids[0]);
      OneAdmitted(c, n, ids[1..], f);
    }
  }

  lemma JoinedWait(c: Config, n: Net, flow: Flow)
    requires ValidConfig(c) && Settled(c, n) && n.linkBytes.Keys == c.topo.links.Keys && ValidFlow(c.topo, flow) && flow.id !in n.states
    ensures OthersWait(c, Joined(c.topo, n, flow), flow.id)
  {
    var j := Joined(c.topo, n, flow);
    forall g | g in j.states.Keys && g != flow.id
      ensures WaitsForSlot(c, j, g)
    {
      assert WaitsForSlot(c, n, g);
    }
  }

  /** Adding a flow to a settled network offers admission to no other. */
  lemma AddAdmitsOne(c: Config, n: Net, flow: Flow)
    requires ValidNet(c, n) && ValidFlow(c.topo, flow) && flow.id !in n.states
    ensures AddFlow(c, n, flow) == Admit(c, Joined(c.topo, n, flow), flow.id)
  {
    var j := Joined(c.topo, n, flow);
    JoinedWait(c, n, flow);
    OneAdmitted(c, j, AdmissionOrder(j), flow.id);
  }

  /** What adding a flow does to the others: flows only go forward. */
  ghost predicate Extends(n: Net, n': Net) {
    && n.states.Keys <= n'.states.Keys && n.now <= n'.now
    && (forall f | f in n.results.Keys :: f in n'.results.Keys && n'.results[f] == n.results[f])
    && (forall f | f in n.states.Keys :: n'.states[f].flow == n.states[f].flow)
    && (forall f | f in n.states.Keys && n.states[f].status.Complete? :: n'.states[f].status.Complete?)
  }

  lemma AddFlowKeeps(c: Config, n: Net, flow: Flow)
    requires ValidNet(c, n) && ValidFlow(c.topo, flow) && flow.id !in n.states
    ensures var n' := AddFlow(c, n, flow);
      && ValidNet(c, n') && OnlyStarts(c, Joined(c.topo, n, flow), n')
      && Work(c, n') <= Work(c, n) + 2
      && (NoOverrun(n) ==> NoOverrun(n'))
  {
    var j, n' := Joined(c.topo, n, flow), AddFlow(c, n, flow);
    JoinKeepsFlows(c, n, flow);
    JoinKeepsCounters(c, n, flow);
    ActivateDueKeeps(c, j);
    ForwardShrinks(c, j, n');
    JoinWork(c, n, flow);
    if NoOverrun(n) { JoinNoOverrun(c, n, flow, n'); }
  }

  lemma AddFlowExtends(c: Config, n: Net, flow: Flow)
    requires ValidNet(c, n) && ValidFlow(c.topo, flow) && flow.id !in n.states
    ensures var n' := AddFlow(c, n, flow);
      && n'.now == n.now && n'.states.Keys == n.states.Keys + {flow.id}
      && Extends(n, n') && FreshResults(n, n', c.epsTime) && n'.states[flow.id].flow == flow
  {
    AddFlowKeeps(c, n, flow);
    var j := Joins(c.topo, n, flow);
    StartsExtend(c, n, j, AddFlow(c, n, flow), flow.id);
  }

  lemma Joins(topo: Topology, n: Net, flow: Flow) returns (j: Net)
    requires ValidTopology(topo) && ValidFlow(topo, flow) && n.linkBytes.Keys == topo.links.Keys && flow.id !in n.states
    ensures j == Joined(topo, n, flow)
    ensures j.results == n.results && j.now == n.now && j.states.Keys == n.states.Keys + {flow.id}
    ensures j.states[flow.id].flow == flow && forall f | f in n.states.Keys :: j.states[f] == n.states[f]
  {
    j := Joined(topo, n, flow);
  }

  lemma StartsExtend(c: Config, n: Net, j: Net, n': Net, id: FlowId)
    requires OnlyStarts(c, j, n') && id !in n.states && n.results.Keys <= n.states.Keys
    requires j.results == n.results && j.now == n.now && j.states.Keys == n.states.Keys + {id}
    requires forall f | f in n.states.Keys :: j.states[f] == n.states[f]
    ensures Extends(n, n') && FreshResults(n, n', c.epsTime) && n'.states[id].flow == j.states[id].flow
    ensures n'.now == n.now && n'.states.Keys == j.states.Keys
  {
  }

  lemma JoinWork(c: Config, n: Net, flow: Flow)
    requires ValidConfig(c) && ValidFlow(c.topo, flow) && n.linkBytes.Keys == c.topo.links.Keys && flow.id !in n.states
    ensures Work(c, Joined(c.topo, n, flow)) <= Work(c, n) + 2
  {
    var j := Joined(c.topo, n, flow);
    NoteAdded(Undone(j), Undone(n), flow.id);
    NoteAdded(NotDue(c, j), NotDue(c, n), flow.id);
  }

  lemma NoteAdded(s': set<FlowId>, s: set<FlowId>, f: FlowId)
    requires forall g | g in s' :: g == f || g in s
    ensures |s'| <= |s| + 1
  {
    SmallerSet(s', s + {f});
  }

  lemma JoinNoOverrun(c: Config, n: Net, flow: Flow, n': Net)
    requires ValidConfig(c) && ValidFlow(c.topo, flow) && n.linkBytes.Keys == c.topo.links.Keys && flow.id !in n.states
    requires n.served.Keys == n.states.Keys && NoOverrun(n)
    requires OnlyStarts(c, Joined(c.topo, n, flow), n')
    ensures n'.served.Keys == n'.states.Keys && NoOverrun(n')
  {
    forall f | f in n'.states.Keys
      ensures WithinBytes(n', f)
    {
      if f != flow.id { assert WithinBytes(n, f); }
    }
  }
}
