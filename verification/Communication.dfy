/** What it costs to reach a replica, and the route its transfers take. */
module Communications {
  import opened Basics
  import opened NetTopology
  import opened ReplicaPlans

  type NodeId = nat

  // ----- costs that may be infinite -----

  datatype Cost = Finite(value: real) | Infinite

  predicate Below(a: Cost, b: Cost) {
    a.Finite? && (b.Infinite? || a.value < b.value)
  }

  function Plus(a: Cost, b: Cost): (c: Cost)
    ensures c.Finite? <==> a.Finite? && b.Finite?
    ensures c.Finite? ==> c.value == a.value + b.value
  {
    if a.Finite? && b.Finite? then Finite(a.value + b.value) else Infinite
  }

  function Later(a: Cost, b: Cost): (m: Cost)
    ensures !Below(m, a) && !Below(m, b) && (m == a || m == b)
  {
    if Below(a, b) then b else a
  }

  // ----- the dispatcher's view of the system -----

  datatype Mode = GpuDirect | GpuToHome | HomeResident

  datatype Assignment = Assignment(id: nat, request: nat, step: nat, layer: nat, token: nat, expert: ExpertId, home: NodeId)

  /** `unloaded` is the time of one activation between two endpoints on an
      otherwise idle path, if there is a path. */
  datatype Wiring = Wiring(
    mode: Mode,
    homes: map<NodeId, EndpointId>,
    chipAt: map<ChipId, EndpointId>,
    ingress: Option<EndpointId>,
    gpuIngress: seq<EndpointId>,
    gpus: set<EndpointId>,
    unloaded: (EndpointId, EndpointId) -> Option<real>)

  datatype DispatchError = DuplicateAssignment | UnknownExpert | NoKernel | NoHome | NoIngress | NoRoute

  function IngressSource(w: Wiring, a: Assignment): Option<EndpointId> {
    if w.gpuIngress != [] then Some(w.gpuIngress[a.request % |w.gpuIngress|]) else w.ingress
  }

  /** Requests take the GPU ingress endpoints in turn; without any, all have
      the one ingress endpoint there may be. */
  lemma IngressTakesTurns(w: Wiring, a: Assignment, b: Assignment)
    ensures w.gpuIngress == [] ==> IngressSource(w, a) == w.ingress
    ensures a.request < |w.gpuIngress| ==> IngressSource(w, a) == Some(w.gpuIngress[a.request])
    ensures b.request == a.request + |w.gpuIngress| ==> IngressSource(w, b) == IngressSource(w, a)
  {
    if w.gpuIngress != [] {
      var n := |w.gpuIngress|;
      RemainderIs(a.request, n, 0, a.request);
      RemainderIs(a.request + n, n, a.request / n + 1, a.request % n);
    }
  }

  lemma RemainderIs(x: nat, n: nat, q: nat, m: nat)
    requires n > 0
    ensures m < n && x == q * n + m ==> x % n == m
  {
    var p := x / n;
    assert x == p * n + x % n;
    assert p * n - q * n == (p - q) * n;
    FarApart(p - q, n);
  }

  lemma FarApart(d: int, n: int)
    requires n > 0
    ensures d >= 1 ==> d * n >= n
    ensures d <= -1 ==> d * n <= -n
  {}

  /** There and back between two endpoints. */
  function RoundTrip(w: Wiring, src: EndpointId, dst: EndpointId): Result<(Cost, Cost), DispatchError> {
    match (w.unloaded(src, dst), w.unloaded(dst, src))
    case (Some(out), Some(back)) => Ok((Finite(out), Finite(back)))
    case (_, _) => Err(NoRoute)
  }

  /** `_communication`: dispatch and combine time of a on a chip. */
  function Communication(w: Wiring, a: Assignment, chip: ChipId): Result<(Cost, Cost), DispatchError>
    requires chip in w.chipAt
  {
    if a.home !in w.homes then Err(NoHome) else
    var home, at, source := w.homes[a.home], w.chipAt[chip], IngressSource(w, a);
    if w.mode == GpuDirect && at in w.gpus then
      if source == Some(at) then Ok((Finite(0.0), Finite(0.0))) else Ok((Infinite, Infinite))
    else if source == Some(at) then Ok((Finite(0.0), Finite(0.0)))
    else if w.mode == GpuDirect then
      if source.None? then Err(NoIngress) else RoundTrip(w, source.value, at)
    else
      match RoundTrip(w, home, at)
      case Err(e) => Err(e)
      case Ok((out, back)) =>
        if w.mode == GpuToHome && source.Some? then
          match RoundTrip(w, source.value, home)
          case Err(e) => Err(e)
          case Ok((bridgeOut, bridgeBack)) => Ok((Plus(out, bridgeOut), Plus(back, bridgeBack)))
        else Ok((out, back))
  }

  /** A GPU replica that is not on the ingress endpoint of a. */
  predicate OutOfReach(w: Wiring, a: Assignment, chip: ChipId)
    requires chip in w.chipAt
  {
    w.mode == GpuDirect && w.chipAt[chip] in w.gpus && IngressSource(w, a) != Some(w.chipAt[chip])
  }

  // ----- the route the transfers take -----

  /** `flow_endpoints`: the endpoints a dispatch passes, in order. */
  function DispatchPath(w: Wiring, a: Assignment, chip: ChipId): seq<EndpointId>
    requires chip in w.chipAt && a.home in w.homes
  {
    var home, at, source := w.homes[a.home], w.chipAt[chip], IngressSource(w, a);
    if w.mode == HomeResident || source.None? then [home, at]
    else if source.value == at || w.mode == GpuDirect then [source.value, at]
    else [source.value, home, at]
  }

  // ----- the flows that are sent -----

  /** The network behind the estimates: the route of lowest latency between two
      endpoints, if there is one, and the bytes of one activation. */
  datatype Routing = Routing(topo: Topology, bytes: nat, route: (EndpointId, EndpointId) -> Option<seq<LinkId>>)

  predicate IsRoute(topo: Topology, route: seq<LinkId>, x: EndpointId, y: EndpointId) {
    && x in topo.endpoints && y in topo.endpoints && (route == [] <==> x == y)
    && forall l | l in route :: l in topo.links.Keys
  }

  predicate RouteOk(g: Routing, x: EndpointId, y: EndpointId) {
    var r := g.route(x, y);
    r.Some? ==> IsRoute(g.topo, r.value, x, y)
  }

  ghost predicate ValidRouting(g: Routing) {
    && ValidTopology(g.topo) && g.bytes > 0
    && (forall x, y {:trigger g.route(x, y)} :: RouteOk(g, x, y))
    && forall x {:trigger g.route(x, x)} | x in g.topo.endpoints.Keys :: g.route(x, x).Some?
  }

  function FlowOver(g: Routing, src: EndpointId, dst: EndpointId, route: seq<LinkId>): Flow {
    Flow(0, src, dst, g.bytes, 0.0, route)
  }

  /** `estimate_unloaded`: one activation between two endpoints. */
  ghost function LegTime(g: Routing, x: EndpointId, y: EndpointId): Option<real>
    requires ValidRouting(g)
  {
    assert RouteOk(g, x, y);
    if g.route(x, y).None? then None else Some(IdealFinish(g.topo, FlowOver(g, x, y, g.route(x, y).value)))
  }

  /** The wiring's estimates are those of the network. */
  ghost predicate Estimates(w: Wiring, g: Routing) {
    ValidRouting(g) && forall x, y {:trigger w.unloaded(x, y)} :: w.unloaded(x, y) == LegTime(g, x, y)
  }

  /** `route_through`: the routes between the endpoints of a path, joined. */
  function JointRoute(g: Routing, path: seq<EndpointId>): Option<seq<LinkId>> {
    if |path| < 2 then Some([]) else
    match (g.route(path[0], path[1]), JointRoute(g, path[1..]))
    case (Some(leg), Some(rest)) => Some(leg + rest)
    case (_, _) => None
  }

  /** The time the one flow along the path takes on an otherwise idle network:
      all latencies, and a single serialization at the bottleneck. */
  ghost function PathTime(g: Routing, path: seq<EndpointId>): Option<real>
    requires ValidRouting(g) && |path| >= 2
  {
    if JointRoute(g, path).None? then None else
    JointIsValid(g, path);
    Some(IdealFinish(g.topo, FlowOver(g, path[0], path[|path| - 1], JointRoute(g, path).value)))
  }

  lemma {:induction false} JointIsValid(g: Routing, path: seq<EndpointId>)
    requires ValidRouting(g) && |path| >= 2 && JointRoute(g, path).Some?
    ensures ValidFlow(g.topo, FlowOver(g, path[0], path[|path| - 1], JointRoute(g, path).value))
  {
    assert RouteOk(g, path[0], path[1]);
    if |path| == 2 {
      assert JointRoute(g, path[1..]) == Some([]);
    } else {
      JointIsValid(g, path[1..]);
    }
  }

  function Reverse(path: seq<EndpointId>): seq<EndpointId> {
    if path == [] then [] else Reverse(path[1..]) + [path[0]]
  }

  // ----- times of joint routes -----

  lemma TwoPoints(g: Routing, x: EndpointId, y: EndpointId)
    requires ValidRouting(g)
    ensures PathTime(g, [x, y]) == LegTime(g, x, y)
    ensures Reverse([x, y]) == [y, x]
  {
    assert [x, y][1..] == [y];
    assert JointRoute(g, [y]) == Some([]);
    assert g.route(x, y).Some? ==> g.route(x, y).value + [] == g.route(x, y).value;
    assert Reverse([y]) == Reverse([]) + [y];
  }

  lemma ThreePoints(g: Routing, x: EndpointId, y: EndpointId, z: EndpointId)
    ensures JointRoute(g, [x, y, z])
      == if g.route(x, y).Some? && g.route(y, z).Some? then Some(g.route(x, y).value + g.route(y, z).value) else None
    ensures Reverse([x, y, z]) == [z, y, x]
  {
    assert [x, y, z][1..] == [y, z] && [y, z][1..] == [z];
    assert JointRoute(g, [z]) == Some([]);
    assert g.route(y, z).Some? ==> g.route(y, z).value + [] == g.route(y, z).value;
    assert Reverse([z]) == Reverse([]) + [z] && Reverse([y, z]) == Reverse([z]) + [y];
  }

  lemma {:induction false} LatencyJoins(topo: Topology, a: seq<LinkId>, b: seq<LinkId>)
    requires ValidTopology(topo) && forall l | l in a || l in b :: l in topo.links.Keys
    ensures RouteLatency(topo, a + b) == RouteLatency(topo, a) + RouteLatency(topo, b)
  {
    if a == [] {
      assert a + b == b;
    } else {
      assert (a + b)[1..] == a[1..] + b;
      LatencyJoins(topo, a[1..], b);
    }
  }

  lemma {:induction false} BottleneckJoins(topo: Topology, a: seq<LinkId>, b: seq<LinkId>)
    requires ValidTopology(topo) && a != [] && b != [] && forall l | l in a || l in b :: l in topo.links.Keys
    ensures BottleneckBandwidth(topo, a + b) == Min(BottleneckBandwidth(topo, a), BottleneckBandwidth(topo, b))
  {
    assert (a + b)[1..] == a[1..] + b;
    if |a| == 1 {
      assert a[1..] + b == b;
    } else {
      BottleneckJoins(topo, a[1..], b);
    }
  }

  /** The bandwidth that limits a leg. */
  function Bandwidth(g: Routing, x: EndpointId, y: EndpointId): (b: real)
    requires ValidTopology(g.topo) && RouteOk(g, x, y) && g.route(x, y).Some? && x != y
    ensures b > 0.0
  {
    BottleneckBandwidth(g.topo, g.route(x, y).value)
  }

  lemma Serialized(bytes: nat, a: real, b: real)
    requires bytes > 0 && a > 0.0 && b > 0.0
    ensures bytes as real / a > 0.0
    ensures bytes as real / a + bytes as real / b == bytes as real / Min(a, b) + bytes as real / Max(a, b)
  {
  }

  /** One flow over two legs saves the serialization on the faster one. */
  lemma JointSaves(g: Routing, x: EndpointId, y: EndpointId, z: EndpointId)
    requires ValidRouting(g) && x != y && y != z && g.route(x, y).Some? && g.route(y, z).Some?
    ensures RouteOk(g, x, y) && RouteOk(g, y, z) && LegTime(g, x, y).Some? && LegTime(g, y, z).Some?
    ensures PathTime(g, [x, y, z]).Some?
    ensures var saved := g.bytes as real / Max(Bandwidth(g, x, y), Bandwidth(g, y, z));
      saved > 0.0 && LegTime(g, x, y).value + LegTime(g, y, z).value == PathTime(g, [x, y, z]).value + saved
  {
    ThreePoints(g, x, y, z);
    var a, b := g.route(x, y).value, g.route(y, z).value;
    assert RouteOk(g, x, y) && RouteOk(g, y, z);
    LatencyJoins(g.topo, a, b);
    BottleneckJoins(g.topo, a, b);
    Serialized(g.bytes, Bandwidth(g, x, y), Bandwidth(g, y, z));
    Serialized(g.bytes, Max(Bandwidth(g, x, y), Bandwidth(g, y, z)), 1.0);
  }

  /** A leg without links adds nothing. */
  lemma JointWithEmpty(g: Routing, x: EndpointId, y: EndpointId, z: EndpointId)
    requires ValidRouting(g) && (x == y || y == z) && g.route(x, y).Some? && g.route(y, z).Some?
    ensures LegTime(g, x, y).Some? && LegTime(g, y, z).Some?
    ensures PathTime(g, [x, y, z]) == Some(LegTime(g, x, y).value + LegTime(g, y, z).value)
  {
    ThreePoints(g, x, y, z);
    assert RouteOk(g, x, y) && RouteOk(g, y, z);
    assert x == y ==> g.route(x, y).value + g.route(y, z).value == g.route(y, z).value;
    assert y == z ==> g.route(x, y).value + g.route(y, z).value == g.route(x, y).value;
  }

  lemma LegIsPositive(g: Routing, x: EndpointId, y: EndpointId)
    requires ValidRouting(g) && LegTime(g, x, y).Some?
    ensures x in g.topo.endpoints && y in g.topo.endpoints
    ensures if x == y then LegTime(g, x, y).value == 0.0 else LegTime(g, x, y).value > 0.0
  {
    assert RouteOk(g, x, y);
    if x != y { Serialized(g.bytes, Bandwidth(g, x, y), 1.0); }
  }

  // ----- estimate and flow -----

  /** The estimate is zero although the flow goes from the home to the chip. */
  predicate SkipsHomeLeg(w: Wiring, a: Assignment, chip: ChipId)
    requires chip in w.chipAt && a.home in w.homes
  {
    w.mode == HomeResident && IngressSource(w, a) == Some(w.chipAt[chip]) && w.homes[a.home] != w.chipAt[chip]
  }

  /** The estimate serializes on both legs; the flow, sent as one, only at the
      slower of them. */
  predicate SerializesTwice(w: Wiring, a: Assignment, chip: ChipId)
    requires chip in w.chipAt && a.home in w.homes
  {
    var home, at, source := w.homes[a.home], w.chipAt[chip], IngressSource(w, a);
    w.mode == GpuToHome && source.Some? && source.value != at && source.value != home && home != at
  }

  /** How the estimate relates to the time of the one flow along the path. */
  ghost predicate Relates(w: Wiring, g: Routing, a: Assignment, chip: ChipId, estimate: real, path: seq<EndpointId>)
    requires chip in w.chipAt && a.home in w.homes && ValidRouting(g) && |path| >= 2
  {
    var time := PathTime(g, path);
    if SkipsHomeLeg(w, a, chip) then estimate == 0.0 && (time.Some? ==> time.value > 0.0)
    else time.Some? && if SerializesTwice(w, a, chip) then time.value < estimate else time.value == estimate
  }

  lemma LocalRoute(g: Routing, x: EndpointId)
    requires ValidRouting(g) && x in g.topo.endpoints
    ensures LegTime(g, x, x) == Some(0.0)
  {
    assert g.route(x, x).Some?;
    LegIsPositive(g, x, x);
  }

  lemma BridgeRelates(g: Routing, x: EndpointId, y: EndpointId, z: EndpointId)
    requires ValidRouting(g) && LegTime(g, x, y).Some? && LegTime(g, y, z).Some?
    ensures var time, legs := PathTime(g, [x, y, z]), LegTime(g, x, y).value + LegTime(g, y, z).value;
      time.Some? && if x != y && y != z then time.value < legs else time.value == legs
  {
    if x != y && y != z { JointSaves(g, x, y, z); } else { JointWithEmpty(g, x, y, z); }
  }

  lemma SkipRelates(g: Routing, x: EndpointId, y: EndpointId)
    requires ValidRouting(g) && x != y
    ensures PathTime(g, [x, y]).Some? ==> PathTime(g, [x, y]).value > 0.0
  {
    TwoPoints(g, x, y);
    if LegTime(g, x, y).Some? { LegIsPositive(g, x, y); }
  }

  /** Dispatch and combine of a chip relate to their flows. */
  ghost predicate BothRelate(w: Wiring, g: Routing, a: Assignment, chip: ChipId, out: real, back: real)
    requires chip in w.chipAt && a.home in w.homes && ValidRouting(g)
  {
    var path := DispatchPath(w, a, chip);
    |Reverse(path)| == |path| && Relates(w, g, a, chip, out, path) && Relates(w, g, a, chip, back, Reverse(path))
  }

  lemma LocalRelates(w: Wiring, g: Routing, a: Assignment, chip: ChipId)
    requires chip in w.chipAt && a.home in w.homes && w.chipAt[chip] in g.topo.endpoints && Estimates(w, g)
    requires IngressSource(w, a) == Some(w.chipAt[chip])
    ensures BothRelate(w, g, a, chip, 0.0, 0.0)
  {
    var home, at := w.homes[a.home], w.chipAt[chip];
    LocalRoute(g, at);
    TwoPoints(g, home, at);
    TwoPoints(g, at, home);
    TwoPoints(g, at, at);
    if home != at {
      SkipRelates(g, home, at);
      SkipRelates(g, at, home);
    }
  }

  /** A dispatch of one leg. */
  lemma OneLegRelates(w: Wiring, g: Routing, a: Assignment, chip: ChipId, x: EndpointId, y: EndpointId)
    requires chip in w.chipAt && a.home in w.homes && Estimates(w, g) && DispatchPath(w, a, chip) == [x, y]
    requires IngressSource(w, a) != Some(w.chipAt[chip]) && (w.mode == GpuToHome ==> IngressSource(w, a).None?)
    requires LegTime(g, x, y).Some? && LegTime(g, y, x).Some?
    ensures BothRelate(w, g, a, chip, LegTime(g, x, y).value, LegTime(g, y, x).value)
  {
    TwoPoints(g, x, y);
    TwoPoints(g, y, x);
  }

  /** A dispatch bridged over the home. */
  lemma TwoLegsRelate(w: Wiring, g: Routing, a: Assignment, chip: ChipId, x: EndpointId, y: EndpointId, z: EndpointId)
    requires chip in w.chipAt && a.home in w.homes && Estimates(w, g) && w.mode == GpuToHome
    requires IngressSource(w, a) == Some(x) && w.homes[a.home] == y && w.chipAt[chip] == z && x != z
    requires LegTime(g, x, y).Some? && LegTime(g, y, z).Some? && LegTime(g, z, y).Some? && LegTime(g, y, x).Some?
    ensures BothRelate(w, g, a, chip, LegTime(g, x, y).value + LegTime(g, y, z).value, LegTime(g, z, y).value + LegTime(g, y, x).value)
  {
    ThreePoints(g, x, y, z);
    BridgeRelates(g, x, y, z);
    BridgeRelates(g, z, y, x);
  }

  /** A finite estimate is the time of the dispatch flow, and of the combine flow
      on the reverse path, except in two cases: it is too short, namely zero,
      when the home leg is skipped, and too long when both legs of a bridged
      dispatch are serialized. */
  lemma EstimateVersusFlow(w: Wiring, g: Routing, a: Assignment, chip: ChipId)
    requires chip in w.chipAt && w.chipAt[chip] in g.topo.endpoints && Estimates(w, g)
    requires Communication(w, a, chip).Ok? && Communication(w, a, chip).value.0.Finite?
    ensures a.home in w.homes && Communication(w, a, chip).value.1.Finite?
    ensures var (out, back) := Communication(w, a, chip).value; BothRelate(w, g, a, chip, out.value, back.value)
  {
    var home, at, source := w.homes[a.home], w.chipAt[chip], IngressSource(w, a);
    if source == Some(at) {
      LocalRelates(w, g, a, chip);
    } else if w.mode == GpuToHome && source.Some? {
      TwoLegsRelate(w, g, a, chip, source.value, home, at);
    } else if w.mode == GpuDirect {
      OneLegRelates(w, g, a, chip, source.value, at);
    } else {
      OneLegRelates(w, g, a, chip, home, at);
    }
  }

  /** The estimates of dispatch and combine agree with the flows exactly when
      no home leg is skipped and no bridged dispatch has two legs. */
  lemma EstimateAgreesIff(w: Wiring, g: Routing, a: Assignment, chip: ChipId)
    requires chip in w.chipAt && w.chipAt[chip] in g.topo.endpoints && Estimates(w, g)
    requires Communication(w, a, chip).Ok? && Communication(w, a, chip).value.0.Finite?
    ensures a.home in w.homes && Communication(w, a, chip).value.1.Finite?
    ensures var path, (out, back) := DispatchPath(w, a, chip), Communication(w, a, chip).value;
      && |Reverse(path)| == |path|
      && (PathTime(g, path) == Some(out.value) <==> !SkipsHomeLeg(w, a, chip) && !SerializesTwice(w, a, chip))
      && (PathTime(g, Reverse(path)) == Some(back.value) <==> !SkipsHomeLeg(w, a, chip) && !SerializesTwice(w, a, chip))
  {
    EstimateVersusFlow(w, g, a, chip);
  }

  // ----- two inputs on which they differ -----

  /** Three endpoints in a row, joined both ways by links of bandwidth one
      without latency. */
  function Row(): Topology {
    var link := (x: nat, y: nat) => LinkSpec(x, y, 1.0, 0.0, 0.0, None, None);
    var open := EndpointSpec(None, None);
    Topology.Topology(map[0 := link(0, 1), 1 := link(1, 2), 2 := link(1, 0), 3 := link(2, 1)], map[0 := open, 1 := open, 2 := open])
  }

  function RowRoute(x: EndpointId, y: EndpointId): Option<seq<LinkId>> {
    if x > 2 || y > 2 then None
    else if x == y then Some([])
    else if x == 0 then Some(if y == 1 then [0] else [0, 1])
    else if x == 1 then Some(if y == 0 then [2] else [1])
    else Some(if y == 1 then [3] else [3, 2])
  }

  /** One byte per activation. */
  function RowRouting(): Routing {
    Routing(Row(), 1, RowRoute)
  }

  function RowTime(x: EndpointId, y: EndpointId): Option<real> {
    if x > 2 || y > 2 then None else if x == y then Some(0.0) else Some(1.0)
  }

  /** The ingress is at 0, the home at 1 and the chip at the given endpoint. */
  function RowWiring(mode: Mode, at: EndpointId): Wiring {
    Wiring(mode, map[0 := 1], map[0 := at], Some(0), [], {}, RowTime)
  }

  lemma RowIsValid()
    ensures ValidRouting(RowRouting())
  {
    var g := RowRouting();
    forall x, y
      ensures RouteOk(g, x, y)
    {
    }
  }

  lemma {:induction false} RowCosts(r: seq<LinkId>)
    requires r != [] && forall l | l in r :: l in Row().links.Keys
    ensures ValidTopology(Row()) && RouteLatency(Row(), r) == 0.0 && BottleneckBandwidth(Row(), r) == 1.0
  {
    assert r[0] in r;
    if |r| > 1 { RowCosts(r[1..]); }
  }

  lemma RowLegs(x: EndpointId, y: EndpointId)
    ensures ValidRouting(RowRouting()) && RowTime(x, y) == LegTime(RowRouting(), x, y)
  {
    RowIsValid();
    var g := RowRouting();
    assert RouteOk(g, x, y);
    if g.route(x, y).Some? && x != y {
      RowCosts(g.route(x, y).value);
    }
  }

  lemma RowEstimates(mode: Mode, at: EndpointId)
    ensures Estimates(RowWiring(mode, at), RowRouting())
  {
    RowIsValid();
    forall x, y
      ensures RowWiring(mode, at).unloaded(x, y) == LegTime(RowRouting(), x, y)
    {
      RowLegs(x, y);
    }
  }

  /** Bridged over the home, one byte is estimated at two seconds and takes one. */
  lemma BridgedEstimateIsTooLong(a: Assignment)
    requires a.home == 0
    ensures Estimates(RowWiring(GpuToHome, 2), RowRouting())
    ensures Communication(RowWiring(GpuToHome, 2), a, 0) == Ok((Finite(2.0), Finite(2.0)))
    ensures DispatchPath(RowWiring(GpuToHome, 2), a, 0) == [0, 1, 2] && PathTime(RowRouting(), [0, 1, 2]) == Some(1.0)
  {
    RowEstimates(GpuToHome, 2);
    ThreePoints(RowRouting(), 0, 1, 2);
    TwoPoints(RowRouting(), 0, 2);
    RowLegs(0, 2);
    assert RowRoute(0, 1) == Some([0]) && RowRoute(1, 2) == Some([1]) && [0] + [1] == RowRoute(0, 2).value;
  }

  /** A home-resident expert on the ingress endpoint is estimated at nothing,
      though its activation takes a second from the home. */
  lemma SkippedEstimateIsTooShort(a: Assignment)
    requires a.home == 0
    ensures Estimates(RowWiring(HomeResident, 0), RowRouting())
    ensures Communication(RowWiring(HomeResident, 0), a, 0) == Ok((Finite(0.0), Finite(0.0)))
    ensures DispatchPath(RowWiring(HomeResident, 0), a, 0) == [1, 0] && PathTime(RowRouting(), [1, 0]) == Some(1.0)
  {
    RowEstimates(HomeResident, 0);
    TwoPoints(RowRouting(), 1, 0);
    RowLegs(1, 0);
  }
}
