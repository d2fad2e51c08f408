/** Networks that have only just received their flows. */
module NetStarts {
  import opened Basics
  import opened FairShare
  import opened NetTopology
  import opened NetModel
  import opened NetCounters
  import opened NetEvents
  import opened NetAdvance
  import opened NetRuns
  import opened NetService

  /** The network before any flow is added. */
  function EmptyNet(topo: Topology): Net {
    Net(0.0, map[], {}, map[], map l | l in topo.links.Keys :: 0,
        map l | l in topo.links.Keys && topo.links[l].maxInflight.Some? :: 0, map[])
  }

  lemma EmptyIsValid(c: Config)
    requires ValidConfig(c)
    ensures ValidNet(c, EmptyNet(c.topo)) && NoOverrun(EmptyNet(c.topo))
  {
    var n := EmptyNet(c.topo);
    forall l
      ensures Holding(n, l) == 0.0 && Carried(n, l) == 0.0
    {
      assert Crossings(n, l) == map[] && Traffic(n.states, l) == map[];
    }
  }

  /** Nothing has happened yet: every flow waits for its release. */
  ghost predicate AllWait(c: Config, n: Net) {
    && n.now == 0.0 && n.active == {} && n.results == map[]
    && forall f | f in n.states.Keys :: n.states[f].status.Pending? && n.states[f].release > c.epsTime
  }

  lemma StillWaiting(c: Config, n: Net, j: Net, id: FlowId)
    requires AllWait(c, n) && j.now == n.now && j.active == n.active && j.results == n.results
    requires j.states.Keys == n.states.Keys + {id} && forall f | f in n.states.Keys && f != id :: j.states[f] == n.states[f]
    requires j.states[id].status.Pending? && j.states[id].release > c.epsTime
    ensures AllWait(c, j) && Admit(c, j, id) == j
  {
  }

  /** A flow that is not due only joins the others. */
  lemma WaitingFlowJoins(c: Config, n: Net, flow: Flow)
    requires ValidNet(c, n) && AllWait(c, n) && ValidFlow(c.topo, flow) && flow.id !in n.states
    requires flow.earliest + RouteLatency(c.topo, flow.route) > c.epsTime
    ensures AddFlow(c, n, flow) == Joined(c.topo, n, flow)
    ensures ValidNet(c, AddFlow(c, n, flow)) && AllWait(c, AddFlow(c, n, flow))
  {
    var j := Joined(c.topo, n, flow);
    StillWaiting(c, n, j, flow.id);
    AddAdmitsOne(c, n, flow);
    assert ValidNet(c, AddFlow(c, n, flow)) by { AddFlowKeeps(c, n, flow); }
  }

  /** While every flow waits, time passes without effect until admission. */
  lemma WaitingTimePasses(c: Config, n: Net, t: real)
    requires ValidNet(c, n) && AllWait(c, n) && t >= 0.0
    ensures Advance(c, n, t) == ActivateDue(c, n.(now := t))
  {
    var m := Moved(c, n, t);
    RatesAreOk(c, n);
    forall f | f in n.states.Keys
      ensures m.states[f] == n.states[f] && m.served[f] == n.served[f]
    {
      assert MovesTo(n, RatesOf(c, n), t - n.now, m, f);
    }
    assert m.states == n.states && m.served == n.served;
    assert m == n.(now := t);
    assert InOrder(m.active, Zeroes(m.active)) == [];
  }

  /** The first event is the first release. */
  lemma WaitingNextEvent(c: Config, n: Net, t: real)
    requires ValidNet(c, n) && AllWait(c, n) && n.states != map[]
    requires forall f | f in n.states.Keys :: n.states[f].release == t
    ensures NextEvent(c, n) == Some(t)
  {
    var f :| f in n.states.Keys;
    assert Candidate(c, n, RatesOf(c, n), f) == Some(t);
  }

  /** A flow that is due and has slots is admitted. */
  lemma DueIsAdmitted(c: Config, n: Net, f: FlowId)
    requires f in n.states && Due(c, n, f) && !Instant(c, n.states[f]) && !Blocked(c.topo, n.inflight, n.states[f].flow.route)
    ensures Admit(c, n, f).inflight == Occupied(n.inflight, n.states[f].flow.route)
    ensures forall g | g in n.states.Keys && g != f :: Admit(c, n, f).states[g] == n.states[g]
  {
  }

  lemma NewIsHeavy(c: Config, flow: Flow)
    requires ValidConfig(c) && ValidFlow(c.topo, flow) && flow.route != [] && flow.nbytes as real > c.epsBytes
    ensures !Instant(c, NewState(c.topo, flow))
  {
    assert LinkResource(c.topo, flow.route[0]) in ResourcesOf(c.topo, flow);
  }

  /** The network into which only this flow was put. */
  function OneFlow(topo: Topology, flow: Flow): Net
    requires ValidTopology(topo) && ValidFlow(topo, flow)
  {
    Joined(topo, EmptyNet(topo), flow)
  }

  /** A flow that is due enters an empty network at once. */
  lemma FirstFlowEnters(c: Config, flow: Flow)
    requires ValidConfig(c) && ValidFlow(c.topo, flow) && flow.route != []
    requires flow.earliest + RouteLatency(c.topo, flow.route) <= c.epsTime && flow.nbytes as real > c.epsBytes
    ensures CountersOk(c.topo, EmptyNet(c.topo))
    ensures AddFlow(c, EmptyNet(c.topo), flow) == Admit(c, OneFlow(c.topo, flow), flow.id)
    ensures AddFlow(c, EmptyNet(c.topo), flow).inflight == Occupied(EmptyNet(c.topo).inflight, flow.route)
  {
    EmptyIsValid(c);
    var j := OneFlow(c.topo, flow);
    AddAdmitsOne(c, EmptyNet(c.topo), flow);
    NewIsHeavy(c, flow);
    DueIsAdmitted(c, j, flow.id);
  }

  // ----- identifiers in order -----

  /** Flows released together are offered admission by identifier. */
  lemma {:induction false} CountsUp(r: seq<nat>, k: nat)
    requires forall x: nat :: x in r <==> x < k
    requires forall i, j | 0 <= i < j < |r| :: r[i] < r[j]
    ensures |r| == k && forall i | 0 <= i < k :: r[i] == i
    decreases k
  {
    forall j | 0 <= j < |r|
      ensures r[j] < k
    {
      assert r[j] in r;
    }
    if k > 0 {
      assert k - 1 in r;
      var i :| 0 <= i < |r| && r[i] == k - 1;
      assert r[|r| - 1] < k && i == |r| - 1;
      var p := r[..i];
      assert r == p + [k - 1];
      forall x: nat
        ensures x in p <==> x < k - 1
      {
        assert x in r <==> x in p || x == k - 1;
        if x in p {
          var j :| 0 <= j < |p| && p[j] == x;
          assert r[j] < r[i];
        }
      }
      CountsUp(p, k - 1);
    }
  }

  lemma OrderedTogether(n: Net, k: nat, t: real)
    requires forall f: nat :: f in n.states.Keys <==> f < k
    requires forall f | f in n.states.Keys :: n.states[f].release == t
    ensures |AdmissionOrder(n)| == k && forall i | 0 <= i < k :: AdmissionOrder(n)[i] == i
  {
    var r, at := AdmissionOrder(n), Releases(n);
    forall i, j | 0 <= i < j < |r|
      ensures r[i] < r[j]
    {
      assert r[i] in r && r[j] in r;
      assert Before(Key(at[r[i]], r[i]), Key(at[r[j]], r[j]));
    }
    CountsUp(r, k);
  }
}
