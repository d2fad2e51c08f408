/** A network that goes over a limit. */
module NetExamples {
  import opened Basics
  import opened NetTopology
  import opened NetModel
  import opened NetCounters
  import opened NetService
  import opened NetStarts
  import opened FluidNetworks

  /** A link with one slot, and the way back. */
  function BackAndForth(): Topology {
    var open := EndpointSpec(None, None);
    Topology.Topology(map[0 := LinkSpec(0, 1, 1.0, 0.0, 0.0, None, Some(1)), 1 := LinkSpec(1, 0, 1.0, 0.0, 0.0, None, None)],
                      map[0 := open, 1 := open])
  }

  /** One byte that doubles back over the link with one slot. */
  function DoublingBack(): Flow {
    Flow(0, 0, 1, 1, 0.0, [0, 1, 0])
  }

  lemma DoublingBackCosts(topo: Topology, flow: Flow)
    requires topo == BackAndForth() && flow == DoublingBack()
    ensures ValidTopology(topo) && ValidFlow(topo, flow) && flow.route != [] && flow.nbytes == 1
    ensures flow.earliest + RouteLatency(topo, flow.route) == 0.0
    ensures !WithinLimits(topo, Occupied(EmptyNet(topo).inflight, flow.route))
  {
    assert [0, 1, 0][1..] == [1, 0] && [1, 0][1..] == [0] && [0][1..] == [];
    assert Limited(topo, 0) && Occurrences(flow.route, 0) == 2;
    assert Occupied(EmptyNet(topo).inflight, flow.route)[0] == 2;
  }

  lemma ExceedsLimit(c: Config, flow: Flow)
    requires c.topo == BackAndForth() && flow == DoublingBack() && ValidConfig(c) && c.epsTime == 0.0 && c.epsBytes == 0.0
    ensures ValidFlow(c.topo, flow) && CountersOk(c.topo, EmptyNet(c.topo))
    ensures !WithinLimits(c.topo, AddFlow(c, EmptyNet(c.topo), flow).inflight)
  {
    DoublingBackCosts(c.topo, flow);
    FirstFlowEnters(c, flow);
  }

  /** n is what adding the flow to the empty network gives. */
  ghost predicate Starts(c: Config, flow: Flow, n: Net) {
    ValidConfig(c) && ValidFlow(c.topo, flow) && CountersOk(c.topo, EmptyNet(c.topo)) && n == AddFlow(c, EmptyNet(c.topo), flow)
  }

  /** A new exact network with one flow. */
  method NetworkOf(topo: Topology, flow: Flow) returns (net: FluidNetwork)
    requires ValidTopology(topo) && ValidFlow(topo, flow)
    ensures fresh(net) && net.Valid() && net.c.topo == topo && net.c.epsTime == 0.0 && net.c.epsBytes == 0.0
    ensures Starts(net.c, flow, net.Snapshot())
  {
    net := new FluidNetwork(topo, 0.0, 0.0);
    EmptyIsValid(net.c);
    var error := net.Add(flow);
  }

  /** Adding a flow to an empty network takes two slots where there is one. */
  method DoublingBackExceedsLimit() returns (net: FluidNetwork)
    ensures fresh(net) && net.Valid() && net.c.topo == BackAndForth()
    ensures Starts(net.c, DoublingBack(), net.Snapshot())
    ensures !WithinLimits(net.c.topo, net.inflight)
  {
    var topo, flow := BackAndForth(), DoublingBack();
    DoublingBackCosts(topo, flow);
    net := NetworkOf(topo, flow);
    ExceedsLimit(net.c, flow);
  }
}
