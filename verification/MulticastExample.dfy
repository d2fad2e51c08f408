/** An empty payload that reaches nobody. */
module MulticastExamples {
  import opened Basics
  import opened NetTopology
  import opened MulticastTree
  import opened MulticastReplays
  import opened Multicasts

  /** Two endpoints and a link without delay. */
  function Pair(): Topology {
    var open := EndpointSpec(None, None);
    Topology.Topology(map[0 := LinkSpec(0, 1, 1.0, 0.0, 0.0, None, None)], map[0 := open, 1 := open])
  }

  lemma PairRoutes(topo: Topology, routes: Routes)
    requires topo == Pair() && routes == map[1 := [0]]
    ensures ValidTopology(topo) && LinksJoinEndpoints(topo) && ValidRoutes(topo, 0, {1}, routes)
    ensures Union(routes, InOrder({1}, Zeroes({1}))) == {0} && !HasClash(topo, {0})
  {
    assert StepAt(topo, 0, [0], 0);
    assert RouteOk(topo, 0, routes, 1);
    OnlyRoute(routes, InOrder({1}, Zeroes({1})));
  }

  lemma {:induction false} OnlyRoute(routes: Routes, ds: seq<EndpointId>)
    requires routes == map[1 := [0]] && forall d :: d in ds <==> d == 1
    ensures Union(routes, ds) == {0}
  {
    forall l
      ensures l in Union(routes, ds) <==> l == 0
    {
      InUnion(routes, ds, l);
      assert 1 in ds;
    }
  }

  /** Multicasting nothing over the one link ends in the error for destinations
      that were not reached. */
  method EmptyPayloadReachesNobody() returns (r: Result<Outcome, TreeError>)
    ensures r.Ok? && !r.value.reached && 1 in r.value.tree.destinations && 1 !in r.value.finish
  {
    var topo, routes := Pair(), map[1 := [0]];
    PairRoutes(topo, routes);
    var net;
    r, net := Simulate(topo, 0, {1}, routes, 0, 0.0, 0.0, 0.0);
    assert Swallows(net.c, r.value.tree, 0, 0.0, 0);
    assert r.value.finish.Keys <= {1};
  }
}
