/** Directed links with capacities, and the flows routed over them. */
module NetTopology {
  import opened Basics
  import opened FairShare

  type LinkId = nat

  /** A directed link; `effective` is its bandwidth after efficiency. */
  datatype LinkSpec = LinkSpec(
    src: EndpointId,
    dst: EndpointId,
    effective: real,
    latency: real,
    energyPerByte: real,
    halfGroup: Option<nat>,
    maxInflight: Option<nat>)

  datatype EndpointSpec = EndpointSpec(injection: Option<real>, receive: Option<real>)

  datatype Topology = Topology(links: map<LinkId, LinkSpec>, endpoints: map<EndpointId, EndpointSpec>)

  /** A transfer whose route has been resolved to a sequence of links. */
  datatype Flow = Flow(id: FlowId, src: EndpointId, dst: EndpointId, nbytes: nat, earliest: real, route: seq<LinkId>)

  predicate ValidLink(link: LinkSpec) {
    && link.effective > 0.0 && link.latency >= 0.0 && link.energyPerByte >= 0.0
    && (link.maxInflight.Some? ==> link.maxInflight.value > 0)
  }

  predicate ValidEndpoint(endpoint: EndpointSpec) {
    && (endpoint.injection.Some? ==> endpoint.injection.value > 0.0)
    && (endpoint.receive.Some? ==> endpoint.receive.value > 0.0)
  }

  predicate ValidTopology(topo: Topology) {
    && (forall l | l in topo.links.Keys :: ValidLink(topo.links[l]))
    && (forall e | e in topo.endpoints.Keys :: ValidEndpoint(topo.endpoints[e]))
  }

  /** What flow construction and route resolution guarantee. */
  predicate ValidFlow(topo: Topology, flow: Flow) {
    && flow.src in topo.endpoints.Keys && flow.dst in topo.endpoints.Keys
    && flow.earliest >= 0.0
    && forall l | l in flow.route :: l in topo.links.Keys
  }

  predicate Limited(topo: Topology, l: LinkId) {
    l in topo.links.Keys && topo.links[l].maxInflight.Some?
  }

  function LinkResource(topo: Topology, l: LinkId): Resource
    requires l in topo.links
  {
    match topo.links[l].halfGroup
    case Some(group) => Half(group)
    case None => Resource.Link(l)
  }

  /** Every resource that can limit the flow. */
  function ResourcesOf(topo: Topology, flow: Flow): set<Resource>
    requires ValidFlow(topo, flow)
  {
    (set l | l in flow.route :: LinkResource(topo, l))
    + (if topo.endpoints[flow.src].injection.Some? then {Inject(flow.src)} else {})
    + (if topo.endpoints[flow.dst].receive.Some? then {Receive(flow.dst)} else {})
  }

  function RouteLatency(topo: Topology, route: seq<LinkId>): (t: real)
    requires ValidTopology(topo) && forall l | l in route :: l in topo.links.Keys
    ensures t >= 0.0
  {
    if route == [] then 0.0 else topo.links[route[0]].latency + RouteLatency(topo, route[1..])
  }

  /** sums[k] is the latency of the first k links. */
  predicate LatencySums(topo: Topology, route: seq<LinkId>, sums: seq<real>) {
    && |sums| == |route| + 1 && sums[0] == 0.0
    && forall k | 0 <= k < |route| :: route[k] in topo.links && sums[k + 1] == sums[k] + topo.links[route[k]].latency
  }

  lemma {:induction false} LatencyFrom(topo: Topology, route: seq<LinkId>, sums: seq<real>, i: nat)
    requires ValidTopology(topo) && (forall l | l in route :: l in topo.links.Keys) && LatencySums(topo, route, sums) && i <= |route|
    ensures RouteLatency(topo, route[i..]) == sums[|route|] - sums[i]
    decreases |route| - i
  {
    if i < |route| {
      LatencyFrom(topo, route, sums, i + 1);
      assert route[i..][1..] == route[i + 1..];
    }
  }

  /** The latency of a route is that of all its links together. */
  lemma LatencyIsSum(topo: Topology, route: seq<LinkId>, sums: seq<real>)
    requires ValidTopology(topo) && (forall l | l in route :: l in topo.links.Keys) && LatencySums(topo, route, sums)
    ensures RouteLatency(topo, route) == sums[|route|]
  {
    LatencyFrom(topo, route, sums, 0);
    assert route[0..] == route;
  }

  /** The bandwidth of the slowest link of the route. */
  function BottleneckBandwidth(topo: Topology, route: seq<LinkId>): (b: real)
    requires ValidTopology(topo) && route != [] && forall l | l in route :: l in topo.links.Keys
    ensures b > 0.0
    ensures forall l | l in route :: b <= topo.links[l].effective
  {
    var head := topo.links[route[0]].effective;
    if |route| == 1 then head else Min(head, BottleneckBandwidth(topo, route[1..]))
  }

  lemma {:induction false} BottleneckLink(topo: Topology, route: seq<LinkId>) returns (l: LinkId)
    requires ValidTopology(topo) && route != [] && forall k | k in route :: k in topo.links.Keys
    ensures l in route && topo.links[l].effective == BottleneckBandwidth(topo, route)
  {
    if |route| == 1 || topo.links[route[0]].effective == BottleneckBandwidth(topo, route) {
      l := route[0];
    } else {
      l := BottleneckLink(topo, route[1..]);
    }
  }

  /** Serialization time on an otherwise idle path (`estimate_unloaded`). */
  function Unloaded(topo: Topology, flow: Flow): (t: real)
    requires ValidTopology(topo) && ValidFlow(topo, flow)
    ensures t >= 0.0
  {
    if flow.route == [] || flow.nbytes == 0 then 0.0
    else flow.nbytes as real / BottleneckBandwidth(topo, flow.route)
  }

  /** When the flow would finish on an otherwise idle path. */
  function IdealFinish(topo: Topology, flow: Flow): real
    requires ValidTopology(topo) && ValidFlow(topo, flow)
  {
    flow.earliest + RouteLatency(topo, flow.route) + Unloaded(topo, flow)
  }

  predicate CoversLink(topo: Topology, cap: Capacities, l: LinkId)
    requires l in topo.links
  {
    LinkResource(topo, l) in cap.Keys && cap[LinkResource(topo, l)] <= topo.links[l].effective
  }

  ghost predicate SetByLink(topo: Topology, cap: Capacities, r: Resource)
    requires r in cap
  {
    exists l :: l in topo.links.Keys && LinkResource(topo, l) == r && cap[r] == topo.links[l].effective
  }

  /** cap gives every link resource its capacity: a half-duplex group has the
      lowest bandwidth of its links. */
  ghost predicate IsLinkTable(topo: Topology, links: set<LinkId>, cap: Capacities)
    requires links <= topo.links.Keys
  {
    && (forall l {:trigger CoversLink(topo, cap, l)} | l in links :: CoversLink(topo, cap, l))
    && (forall r {:trigger SetByLink(topo, cap, r)} | r in cap.Keys && (r.Link? || r.Half?) :: SetByLink(topo, cap, r))
  }

  /** cap gives every endpoint port with a limit that limit, and nothing else. */
  ghost predicate IsPortTable(topo: Topology, ends: set<EndpointId>, cap: Capacities)
    requires ends <= topo.endpoints.Keys
  {
    && (forall e :: Inject(e) in cap.Keys <==> e in ends && topo.endpoints[e].injection.Some?)
    && (forall e :: Receive(e) in cap.Keys <==> e in ends && topo.endpoints[e].receive.Some?)
    && (forall e | Inject(e) in cap.Keys :: cap[Inject(e)] == topo.endpoints[e].injection.value)
    && (forall e | Receive(e) in cap.Keys :: cap[Receive(e)] == topo.endpoints[e].receive.value)
  }

  ghost predicate IsCapacityTable(topo: Topology, cap: Capacities) {
    IsLinkTable(topo, topo.links.Keys, cap) && IsPortTable(topo, topo.endpoints.Keys, cap)
  }

  method LinkCapacities(topo: Topology) returns (cap: Capacities)
    requires ValidTopology(topo)
    ensures IsLinkTable(topo, topo.links.Keys, cap)
    ensures forall r | r in cap.Keys :: r.Link? || r.Half?
  {
    cap := map[];
    var todo := topo.links.Keys;
    while todo != {}
      invariant todo <= topo.links.Keys
      invariant forall r | r in cap.Keys :: r.Link? || r.Half?
      invariant IsLinkTable(topo, topo.links.Keys - todo, cap)
      decreases todo
    {
      var l :| l in todo;
      var resource, capacity := LinkResource(topo, l), topo.links[l].effective;
      var next := if resource in cap then cap[resource := Min(cap[resource], capacity)] else cap[resource := capacity];
      LinkAdded(topo, topo.links.Keys - todo, l, cap, next);
      cap := next;
      todo := todo - {l};
      assert topo.links.Keys - todo == topo.links.Keys - (todo + {l}) + {l};
    }
    assert topo.links.Keys - todo == topo.links.Keys;
  }

  lemma LinkAdded(topo: Topology, done: set<LinkId>, l: LinkId, cap: Capacities, next: Capacities)
    requires done <= topo.links.Keys && l in topo.links && IsLinkTable(topo, done, cap)
    requires var r := LinkResource(topo, l);
      var capacity := topo.links[l].effective;
      next == if r in cap then cap[r := Min(cap[r], capacity)] else cap[r := capacity]
    ensures IsLinkTable(topo, done + {l}, next)
  {
    forall k | k in done + {l}
      ensures CoversLink(topo, next, k)
    {
      assert k in done ==> CoversLink(topo, cap, k);
    }
    forall r | r in next.Keys && (r.Link? || r.Half?)
      ensures SetByLink(topo, next, r)
    {
      if r in cap { assert SetByLink(topo, cap, r); }
    }
  }

  /** `_build_resource_capacities`: one pass over the links, one over the
      endpoints. */
  method BuildResourceCapacities(topo: Topology) returns (cap: Capacities)
    requires ValidTopology(topo)
    ensures IsCapacityTable(topo, cap)
  {
    cap := LinkCapacities(topo);
    ghost var links := cap;
    var ends := topo.endpoints.Keys;
    while ends != {}
      invariant ends <= topo.endpoints.Keys
      invariant forall r: Resource | r.Link? || r.Half? :: r in cap.Keys <==> r in links.Keys
      invariant forall r | r in links.Keys :: r in cap.Keys && cap[r] == links[r]
      invariant IsPortTable(topo, topo.endpoints.Keys - ends, cap)
      decreases ends
    {
      var e :| e in ends;
      var endpoint := topo.endpoints[e];
      if endpoint.injection.Some? {
        cap := cap[Inject(e) := endpoint.injection.value];
      }
      if endpoint.receive.Some? {
        cap := cap[Receive(e) := endpoint.receive.value];
      }
      ends := ends - {e};
    }
    assert topo.endpoints.Keys - ends == topo.endpoints.Keys;
    SameLinkTable(topo, links, cap);
  }

  lemma SameLinkTable(topo: Topology, links: Capacities, cap: Capacities)
    requires IsLinkTable(topo, topo.links.Keys, links)
    requires forall r: Resource | r.Link? || r.Half? :: r in cap.Keys <==> r in links.Keys
    requires forall r | r in links.Keys :: r in cap.Keys && cap[r] == links[r]
    ensures IsLinkTable(topo, topo.links.Keys, cap)
  {
    forall l | l in topo.links.Keys
      ensures CoversLink(topo, cap, l)
    {
      assert CoversLink(topo, links, l);
    }
    forall r | r in cap.Keys && (r.Link? || r.Half?)
      ensures SetByLink(topo, cap, r)
    {
      assert SetByLink(topo, links, r);
    }
  }

  /** Every resource has a positive capacity, and all resources of a flow are
      in the table. */
  lemma TableIsPositive(topo: Topology, cap: Capacities)
    requires ValidTopology(topo) && IsCapacityTable(topo, cap)
    ensures Positive(cap) && NonNegative(cap)
  {
    forall r | r in cap.Keys
      ensures cap[r] > 0.0
    {
      if r.Link? || r.Half? { assert SetByLink(topo, cap, r); }
    }
  }

  lemma TableCovers(topo: Topology, cap: Capacities, flow: Flow)
    requires ValidTopology(topo) && IsCapacityTable(topo, cap) && ValidFlow(topo, flow)
    ensures ResourcesOf(topo, flow) <= cap.Keys
  {
    forall l | l in flow.route
      ensures LinkResource(topo, l) in cap.Keys
    {
      assert CoversLink(topo, cap, l);
    }
  }
}
