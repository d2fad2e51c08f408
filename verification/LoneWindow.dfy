/** A window of one assignment: exactly when screening bounds it. */
module LoneWindows {
  import opened Basics
  import opened Communications
  import opened NetTopology
  import opened NetModel
  import opened NetCounters
  import opened NetEvents
  import opened NetRuns
  import opened NetService
  import opened NetStarts
  import opened LoneFlows
  import opened Layers
  import opened LayerArrivals
  import opened LayerModel
  import opened LayerCore
  import opened FastEngines
  import opened FastBound

  /** One assignment, from time 0, with something to transfer. */
  ghost predicate OneJob(topo: Topology, L: Layer) {
    ValidTopology(topo) && ValidLayer(topo, L) && |L.bindings| == 1 && L.start == 0.0 && L.hiddenBytes > 0
  }

  lemma OneGroup(topo: Topology, L: Layer)
    requires OneJob(topo, L)
    ensures L.outward.groups == [[0]] && L.outward.of == [0]
    ensures NotShared(L) && OutFlow(L, 0) == OutFlowOf(L, 0)
  {
    assert InGroup(L.outward, 0);
    forall g | 0 <= g < |L.outward.groups|
      ensures L.outward.groups[g] == [0] && g == L.outward.of[0]
    {
      assert ValidGroup(L.outward, g);
      var xs := L.outward.groups[g];
      assert xs[0] in xs;
      assert xs[|xs| - 1] in xs;
    }
    var first, last := L.outward.groups[0], L.outward.groups[|L.outward.groups| - 1];
    assert |L.outward.groups| == 1;
  }

  lemma OneReplica(L: Layer)
    requires |L.bindings| == 1
    ensures Replicas(L) == {ReplicaOf(L, 0)} && Members(L, ReplicaOf(L, 0)) == {0}
  {
    assert ReplicaOf(L, 0) in Replicas(L);
  }

  // ----- until the dispatch flow is there -----

  function FreshEngine(L: Layer): Engine {
    Engine({}, map r | r in Replicas(L) :: map[], map chip | chip in Chips(L) :: [], {}, {}, map[], map[], NoneReady(L), {},
           map chip | chip in Chips(L) :: [])
  }

  lemma RestsFresh(c: Config, n: Net, L: Layer, e: Engine)
    requires Sound(c, n, L, e) && IsFresh(L, e) && ValidLayer(c.topo, L) && n.results == map[]
    ensures AtRest(c, n, L, e)
  {
    FreshIsHandled(c, L, e);
  }

  lemma EmptyDispatched(c: Config, L: Layer)
    ensures Dispatched(c, EmptyNet(c.topo), L, 0)
  {
  }

  lemma IsFreshEngine(L: Layer)
    ensures IsFresh(L, FreshEngine(L))
  {
  }

  /** The dispatch flow is sent, and nothing else has happened. */
  lemma SentIsSound(c: Config, n: Net, L: Layer, e: Engine)
    requires ValidConfig(c) && OneJob(c.topo, L) && IsFresh(L, e) && ValidFlow(c.topo, OutFlowOf(L, 0))
    requires CountersOk(c.topo, EmptyNet(c.topo)) && n == AddFlow(c, EmptyNet(c.topo), OutFlowOf(L, 0)) && ValidNet(c, n) && NoOverrun(n)
    ensures Sound(c, n, L, e)
  {
    OneGroup(c.topo, L);
    EmptyDispatched(c, L);
    OneDispatched(c, EmptyNet(c.topo), L, n);
    FreshIsSound(c, n, L, e);
  }

  lemma OneDispatched(c: Config, n0: Net, L: Layer, n: Net)
    requires ValidConfig(c) && OneJob(c.topo, L) && L.outward.groups == [[0]] && OutFlow(L, 0) == OutFlowOf(L, 0) && ValidFlow(c.topo, OutFlowOf(L, 0))
    requires n0 == EmptyNet(c.topo) && CountersOk(c.topo, n0) && Dispatched(c, n0, L, 0) && n == AddFlow(c, n0, OutFlowOf(L, 0))
    ensures Dispatched(c, n, L, 1)
  {
    EmptyIsValid(c);
    DispatchAdded(c, n0, L, 0);
  }

  lemma NetworkMoves(c: Config, n: Net, L: Layer, e: Engine, t: real)
    requires Sound(c, n, L, e) && IsFresh(L, e) && ValidLayer(c.topo, L) && n.results == map[]
    requires ValidNet(c, n) && n.now < t && StopsAtEvent(c, n, t)
    ensures Sound(c, Advance(c, n, t), L, e)
  {
    RestsFresh(c, n, L, e);
    NetworkAdvanced(c, n, L, e, t);
  }

  /** The network is at the end of the lone dispatch flow. */
  ghost predicate Delivered(c: Config, n: Net, L: Layer, e: Engine, t: real) {
    Sound(c, n, L, e) && IsFresh(L, e) && n.now == t && n.results == map[0 := t]
  }

  lemma SentDelivers(c: Config, n: Net, L: Layer, e: Engine, s: real) returns (n': Net, t: real)
    requires Sound(c, n, L, e) && IsFresh(L, e) && OneJob(c.topo, L) && ValidFlow(c.topo, OutFlowOf(L, 0)) && RunsFree(c, OutFlowOf(L, 0))
    requires OutFlowOf(L, 0).route != [] && Sending(c, n, OutFlowOf(L, 0), s)
    ensures t == s + L.hiddenBytes as real / BottleneckBandwidth(c.topo, OutFlowOf(L, 0).route) && Delivered(c, n', L, e, t)
  {
    n', t := SendingEnds(c, n, OutFlowOf(L, 0), s);
    NetworkMoves(c, n, L, e, t);
  }

  lemma WaitedDelivers(c: Config, w: Net, n: Net, L: Layer, e: Engine, s: real) returns (n': Net, t: real)
    requires Sound(c, w, L, e) && IsFresh(L, e) && OneJob(c.topo, L) && ValidFlow(c.topo, OutFlowOf(L, 0)) && RunsFree(c, OutFlowOf(L, 0))
    requires OutFlowOf(L, 0).route != [] && ValidNet(c, w) && w.now == 0.0 <= c.epsTime < s && w.results == map[] && StopsAtEvent(c, w, s)
    requires n == Advance(c, w, s) && Sending(c, n, OutFlowOf(L, 0), s)
    ensures t == s + L.hiddenBytes as real / BottleneckBandwidth(c.topo, OutFlowOf(L, 0).route) && Delivered(c, n', L, e, t)
  {
    NetworkMoves(c, w, L, e, s);
    n', t := SentDelivers(c, n, L, e, s);
  }

  lemma LocalArrives(c: Config, L: Layer, e: Engine) returns (n: Net)
    requires ValidConfig(c) && OneJob(c.topo, L) && ValidFlow(c.topo, OutFlowOf(L, 0)) && RunsFree(c, OutFlowOf(L, 0)) && IsFresh(L, e)
    requires OutFlowOf(L, 0).route == []
    ensures Delivered(c, n, L, e, 0.0)
  {
    n := ArrivesAtOnce(c, OutFlowOf(L, 0));
    SentIsSound(c, n, L, e);
  }

  lemma DirectArrives(c: Config, L: Layer, e: Engine) returns (n: Net, t: real)
    requires ValidConfig(c) && OneJob(c.topo, L) && ValidFlow(c.topo, OutFlowOf(L, 0)) && RunsFree(c, OutFlowOf(L, 0)) && IsFresh(L, e)
    requires OutFlowOf(L, 0).route != [] && RouteLatency(c.topo, OutFlowOf(L, 0).route) <= c.epsTime
    ensures t == L.hiddenBytes as real / BottleneckBandwidth(c.topo, OutFlowOf(L, 0).route) && Delivered(c, n, L, e, t)
  {
    n := StartsAtOnce(c, OutFlowOf(L, 0));
    SentIsSound(c, n, L, e);
    n, t := SentDelivers(c, n, L, e, 0.0);
  }

  lemma DelayedArrives(c: Config, L: Layer, e: Engine) returns (n: Net, t: real)
    requires ValidConfig(c) && OneJob(c.topo, L) && ValidFlow(c.topo, OutFlowOf(L, 0)) && RunsFree(c, OutFlowOf(L, 0)) && IsFresh(L, e)
    requires OutFlowOf(L, 0).route != [] && RouteLatency(c.topo, OutFlowOf(L, 0).route) > c.epsTime
    ensures t == RouteLatency(c.topo, OutFlowOf(L, 0).route) + L.hiddenBytes as real / BottleneckBandwidth(c.topo, OutFlowOf(L, 0).route)
    ensures Delivered(c, n, L, e, t)
  {
    var w;
    w, n := StartsLater(c, OutFlowOf(L, 0));
    SentIsSound(c, w, L, e);
    n, t := WaitedDelivers(c, w, n, L, e, RouteLatency(c.topo, OutFlowOf(L, 0).route));
  }

  /** A lone dispatch flow that nothing throttles arrives at its ideal time, or
      earlier where the tolerance covers the delay of its route. */
  lemma LoneArrives(c: Config, L: Layer) returns (n: Net, e: Engine, t: real)
    requires ValidConfig(c) && OneJob(c.topo, L) && ValidFlow(c.topo, OutFlowOf(L, 0)) && RunsFree(c, OutFlowOf(L, 0))
    ensures t <= IdealFinish(c.topo, OutFlowOf(L, 0)) && Delivered(c, n, L, e, t)
    ensures RouteLatency(c.topo, OutFlowOf(L, 0).route) > c.epsTime || RouteLatency(c.topo, OutFlowOf(L, 0).route) == 0.0 ==>
      t == IdealFinish(c.topo, OutFlowOf(L, 0))
  {
    e := FreshEngine(L);
    IsFreshEngine(L);
    if OutFlowOf(L, 0).route == [] {
      n := LocalArrives(c, L, e);
      t := 0.0;
    } else if RouteLatency(c.topo, OutFlowOf(L, 0).route) <= c.epsTime {
      n, t := DirectArrives(c, L, e);
    } else {
      n, t := DelayedArrives(c, L, e);
    }
  }

  // ----- the batch -----

  lemma OneInOrder(s: set<nat>, at: map<nat, real>, x: nat)
    requires s == {x} && s <= at.Keys
    ensures InOrder(s, at) == [x]
  {
    assert s - {x} == {};
  }

  lemma OneMax(m: map<AssignmentId, real>, a: AssignmentId, t: real)
    requires m.Keys == {a} && m[a] == t
    ensures MaxOf(m) == t
  {
  }

  /** What accepting the dispatch flow does to arrivals and queues. */
  lemma OneAccepted(topo: Topology, L: Layer, e: Engine, t: real) returns (arrived': Arrivals, ready': Queues)
    requires OneJob(topo, L) && IsFresh(L, e) && L.outward.groups == [[0]]
    ensures e.ready.Keys == Chips(L) && Accepts(L, 0, t, e.arrived, e.ready, arrived', ready')
    ensures var r := ReplicaOf(L, 0); r in L.chipOf && L.chipOf[r] in ready' && ready'[L.chipOf[r]] == [Key(t, r)]
  {
    var r, xs := ReplicaOf(L, 0), L.outward.groups[0];
    OneReplica(L);
    assert ValidBinding(topo, L, 0);
    assert Touched(L, xs) == {r};
    OneInOrder(Touched(L, xs), Zeroes(Touched(L, xs)), r);
    arrived' := ArriveAll(L, e.arrived, xs, t);
    ArriveAllEffect(L, e.arrived, xs, t, r);
    assert BatchShare(L, xs, r) == {0};
    assert arrived'[r] == map[0 := t];
    OneMax(arrived'[r], 0, t);
    ready' := EnqueueAll(L, arrived', e.ready, [r]);
    assert ready' == EnqueueAll(L, arrived', EnqueueIfFull(L, arrived', e.ready, r), [r][1..]);
    assert [r][1..] == [];
  }

  /** The batch has run right after the arrival. */
  ghost predicate RanAt(c: Config, n: Net, L: Layer, e: Engine, t: real)
    requires |L.bindings| == 1
  {
    var r := ReplicaOf(L, 0);
    && Sound(c, n, L, e) && e.execs.Keys == Replicas(L) && r in e.execs && r in L.duration && e.execs[r].finish == t + L.duration[r]
  }

  lemma LoneRuns(c: Config, n: Net, L: Layer, e: Engine, t: real) returns (e': Engine)
    requires Delivered(c, n, L, e, t) && OneJob(c.topo, L) && c.epsTime >= 0.0
    ensures RanAt(c, n, L, e', t)
  {
    OneGroup(c.topo, L);
    OneReplica(L);
    var r := ReplicaOf(L, 0);
    var arrived', ready' := OneAccepted(c.topo, L, e, t);
    SoundDispatch(c, n, L, e, 0, arrived', ready');
    var e1 := e.(seen := e.seen + {OutId(0)}, arrived := arrived', ready := ready');
    SoundStart(c, n, L, e1, L.chipOf[r]);
    e' := Started(L, e1, L.chipOf[r], n.now);
  }

  // ----- screening one job -----

  lemma ScreenedJob(L: Layer, P: FastPlan, runs: FastRuns, chip: ChipId)
    requires |L.bindings| == 1 && SameJobs(L, P) && ValidFast(P) && FastOn(P, runs, chip)
    requires ReplicaOf(L, 0) in L.chipOf && L.chipOf[ReplicaOf(L, 0)] == chip
    requires P.jobs[0].dispatch.Finite? && P.jobs[0].dispatch.value >= 0.0
    ensures var r := ReplicaOf(L, 0);
      && FastOrder(P, chip) == [r] && r in FastReplicas(P) && FastArrival(P, r) == P.jobs[0].dispatch
      && r in runs && r in P.duration && runs[r].finish == Finite(P.jobs[0].dispatch.value + P.duration[r])
  {
    var r := ReplicaOf(L, 0);
    SameBatches(L, P);
    OneReplica(L);
    assert OnChip(P, chip) == {r};
    var a: nat :| a in FastMembers(P, r) && P.jobs[a].dispatch == FastArrival(P, r);
    assert a == 0;
    OneOrdered({r}, FastArrivals(P), r);
    assert FastAt(P, FastArrivals(P), runs, chip, FastOrder(P, chip), 0);
  }

  lemma OneOrdered(s: set<ReplicaId>, at: FastTimes, r: ReplicaId)
    requires s == {r} && r in at && at[r].Finite?
    ensures ByArrival(s, at) == [r]
  {
    assert Reachable(s, at) == {r} && s - {r} == {};
    OneInOrder({r}, TimesOf({r}, at), r);
  }

  // ----- the exact condition -----

  /** A run in which the batch is over earlier, by more than the margin, than the
      screening model says. */
  ghost predicate Beats(c: Config, L: Layer, P: FastPlan, runs: FastRuns, n: Net, e: Engine, margin: real)
    requires |L.bindings| == 1
  {
    var r := ReplicaOf(L, 0);
    && Sound(c, n, L, e) && e.execs.Keys == Replicas(L) && r in e.execs && r in runs
    && (runs[r].finish.Infinite? || e.execs[r].finish < runs[r].finish.value - margin)
  }

  lemma NeverEarly(c: Config, n: Net, L: Layer, e: Engine)
    requires Sound(c, n, L, e) && OneJob(c.topo, L) && e.execs.Keys == Replicas(L)
    ensures ValidFlow(c.topo, OutFlowOf(L, 0)) && ReplicaOf(L, 0) in e.execs && ReplicaOf(L, 0) in L.duration
    ensures IdealFinish(c.topo, OutFlowOf(L, 0)) - Slack(c, OutFlowOf(L, 0)) + L.duration[ReplicaOf(L, 0)] <= e.execs[ReplicaOf(L, 0)].finish
  {
    OneGroup(c.topo, L);
    OneReplica(L);
    OutFlowOfIsValid(c.topo, L, 0);
    assert SlackWithin(c, L, 0, Slack(c, OutFlowOf(L, 0)));
    StartsAfterFlow(c, n, L, e, 0, Slack(c, OutFlowOf(L, 0)));
    assert Core(c, n, L, e);
    assert ExecOk(L, e.arrived, e.execs, ReplicaOf(L, 0));
  }

  /** What screening says of one assignment, and a run that takes no longer than
      an unloaded network. */
  lemma LoneOutcome(c: Config, L: Layer, P: FastPlan, runs: FastRuns, chip: ChipId) returns (n: Net, e: Engine)
    requires ValidConfig(c) && OneJob(c.topo, L) && ValidFlow(c.topo, OutFlowOf(L, 0)) && RunsFree(c, OutFlowOf(L, 0))
    requires SameJobs(L, P) && ValidFast(P) && FastOn(P, runs, chip)
    requires ReplicaOf(L, 0) in L.chipOf && L.chipOf[ReplicaOf(L, 0)] == chip
    requires P.jobs[0].dispatch.Finite? && P.jobs[0].dispatch.value >= 0.0
    ensures var r := ReplicaOf(L, 0);
      && r in L.duration && r in P.duration && r in runs && runs[r].finish == Finite(P.jobs[0].dispatch.value + P.duration[r])
      && Sound(c, n, L, e) && e.execs.Keys == Replicas(L) && r in e.execs
      && e.execs[r].finish <= IdealFinish(c.topo, OutFlowOf(L, 0)) + L.duration[r]
      && (RouteLatency(c.topo, OutFlowOf(L, 0).route) == 0.0 ==> e.execs[r].finish == IdealFinish(c.topo, OutFlowOf(L, 0)) + L.duration[r])
  {
    ScreenedJob(L, P, runs, chip);
    var e0, t;
    n, e0, t := LoneArrives(c, L);
    e := LoneRuns(c, n, L, e0, t);
    assert RanAt(c, n, L, e, t);
  }

  /** For one assignment whose transfer nothing throttles: if the estimate and
      the screened latency together are no longer than the ideal transfer and
      the latency, no run beats the screening model by more than the tolerances
      allow; and if they are longer, some run does beat it, by any less than the
      difference. */
  lemma LoneBound(c: Config, L: Layer, P: FastPlan, runs: FastRuns, chip: ChipId, margin: real)
    requires ValidConfig(c) && OneJob(c.topo, L) && ValidFlow(c.topo, OutFlowOf(L, 0)) && RunsFree(c, OutFlowOf(L, 0))
    requires SameJobs(L, P) && ValidFast(P) && FastOn(P, runs, chip)
    requires ReplicaOf(L, 0) in L.chipOf && L.chipOf[ReplicaOf(L, 0)] == chip
    requires P.jobs[0].dispatch.Finite? && P.jobs[0].dispatch.value >= 0.0
    ensures ReplicaOf(L, 0) in L.duration && ReplicaOf(L, 0) in P.duration
    ensures var late := P.jobs[0].dispatch.value + P.duration[ReplicaOf(L, 0)] - IdealFinish(c.topo, OutFlowOf(L, 0)) - L.duration[ReplicaOf(L, 0)];
      && (late <= 0.0 ==> forall n, e {:trigger Beats(c, L, P, runs, n, e, Slack(c, OutFlowOf(L, 0)))} :: !Beats(c, L, P, runs, n, e, Slack(c, OutFlowOf(L, 0))))
      && (late > margin ==> exists n, e {:trigger Beats(c, L, P, runs, n, e, margin)} :: Beats(c, L, P, runs, n, e, margin))
  {
    var r := ReplicaOf(L, 0);
    var slack := Slack(c, OutFlowOf(L, 0));
    var n, e := LoneOutcome(c, L, P, runs, chip);
    forall n, e | Beats(c, L, P, runs, n, e, slack)
      ensures IdealFinish(c.topo, OutFlowOf(L, 0)) + L.duration[r] < P.jobs[0].dispatch.value + P.duration[r]
    {
      NeverEarly(c, n, L, e);
    }
    assert IdealFinish(c.topo, OutFlowOf(L, 0)) + L.duration[r] < P.jobs[0].dispatch.value + P.duration[r] - margin ==> Beats(c, L, P, runs, n, e, margin);
  }

  /** With no tolerance: the screening model is never late, over all runs,
      exactly when the estimate and the screened latency together are no longer
      than the ideal transfer and the latency. */
  lemma LoneBoundIff(c: Config, L: Layer, P: FastPlan, runs: FastRuns, chip: ChipId)
    requires ValidConfig(c) && OneJob(c.topo, L) && ValidFlow(c.topo, OutFlowOf(L, 0)) && RunsFree(c, OutFlowOf(L, 0))
    requires SameJobs(L, P) && ValidFast(P) && FastOn(P, runs, chip) && c.epsTime == 0.0 && c.epsBytes == 0.0
    requires ReplicaOf(L, 0) in L.chipOf && L.chipOf[ReplicaOf(L, 0)] == chip
    requires P.jobs[0].dispatch.Finite? && P.jobs[0].dispatch.value >= 0.0
    ensures ReplicaOf(L, 0) in L.duration && ReplicaOf(L, 0) in P.duration
    ensures (forall n, e {:trigger Beats(c, L, P, runs, n, e, 0.0)} :: !Beats(c, L, P, runs, n, e, 0.0))
      <==> P.jobs[0].dispatch.value + P.duration[ReplicaOf(L, 0)] <= IdealFinish(c.topo, OutFlowOf(L, 0)) + L.duration[ReplicaOf(L, 0)]
  {
    NoSlack(c, OutFlowOf(L, 0));
    LoneBound(c, L, P, runs, chip, 0.0);
  }
}
