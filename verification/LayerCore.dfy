/** The state of a layer run, its invariant, and the steps that keep it. */
module LayerCore {
  import opened Basics
  import opened FairShare
  import opened NetTopology
  import opened NetModel
  import opened NetAdvance
  import opened NetEvents
  import opened NetRuns
  import opened NetService
  import opened Layers
  import opened LayerArrivals
  import opened LayerModel
  import opened LayerSchedule
  import opened LayerInvariant

  datatype Engine = Engine(
    seen: set<FlowId>,
    arrived: Arrivals,
    ready: Queues,
    running: set<ChipId>,
    heap: set<Key>,
    execs: Executions,
    combined: map<AssignmentId, real>,
    combineReady: CombineReady,
    launched: set<nat>,
    log: Log)

  /** The network carries the layer's flows. */
  ghost predicate FlowsMatch(c: Config, n: Net, L: Layer, e: Engine) {
    && ValidNet(c, n) && NoOverrun(n) && 0.0 <= n.now && ValidLayer(c.topo, L)
    && FlowsBelong(L, n.states.Keys, e.launched) && OutFlows(L, n.states) && BackFlows(L, n.states, e.execs, e.launched)
  }

  /** What was accepted is recorded; what was not has just finished. */
  ghost predicate AcceptedMatch(c: Config, n: Net, L: Layer, e: Engine)
    requires ValidLayer(c.topo, L)
  {
    && e.seen <= n.results.Keys && UnseenFresh(n.results, e.seen, n.now, c.epsTime)
    && ArrivalsOk(L, n.results, e.seen, e.arrived) && CombinedOk(L, n.results, e.seen, e.combined)
  }

  /** Queues, schedules and running batches agree. */
  ghost predicate ChipsMatch(L: Layer, e: Engine, now: real, eps: real) {
    && e.ready.Keys == Chips(L) == e.log.Keys
    && QueuesOk(L, e.arrived, e.ready) && PhasesOk(L, e.arrived, e.ready, e.execs) && ExecsOk(L, e.arrived, e.execs)
    && HeapOk(e.execs, e.heap, e.running) && LogsOk(e.execs, e.heap, e.log, eps)
    && OnTime(e.execs, e.heap, now, eps) && FitsAll(e.execs, e.running, e.ready, e.log, now, eps)
  }

  ghost predicate Core(c: Config, n: Net, L: Layer, e: Engine) {
    FlowsMatch(c, n, L, e) && AcceptedMatch(c, n, L, e) && ChipsMatch(L, e, n.now, c.epsTime)
  }

  /** `Core`, to be opened by naming it. */
  ghost predicate Sound(c: Config, n: Net, L: Layer, e: Engine) {
    forall m {:trigger Core(c, m, L, e)} | m == n :: Core(c, m, L, e)
  }

  lemma SoundIsValid(c: Config, n: Net, L: Layer, e: Engine)
    requires Sound(c, n, L, e)
    ensures ValidLayer(c.topo, L) && c.epsTime >= 0.0
  {
    assert Core(c, n, L, e);
  }

  lemma DispatchKeepsChips(c: Config, n: Net, L: Layer, e: Engine, g: nat, arrived': Arrivals, ready': Queues)
    requires ValidNet(c, n) && ValidLayer(c.topo, L) && AcceptedMatch(c, n, L, e) && ChipsMatch(L, e, n.now, c.epsTime)
    requires g < |L.outward.groups| && OutId(g) !in e.seen && OutId(g) in n.results
    requires Accepts(L, g, n.results[OutId(g)], e.arrived, e.ready, arrived', ready')
    requires ArrivedBefore(e.execs, n.now + c.epsTime)
    ensures ChipsMatch(L, e.(seen := e.seen + {OutId(g)}, arrived := arrived', ready := ready'), n.now, c.epsTime)
  {
    var t := n.results[OutId(g)];
    AcceptQueues(c.topo, L, g, t, n.results, e.seen, e.arrived, e.ready, e.execs, arrived', ready');
    AcceptPhases(c.topo, L, g, t, n.results, e.seen, e.arrived, e.ready, e.execs, arrived', ready');
    ResultsNotLate(c, n);
    forall chip | chip in e.log.Keys
      ensures forall r | r in e.log[chip] :: r in e.execs
    {
      assert LogOk(e.execs, e.heap, chip, e.log[chip], c.epsTime);
    }
    AcceptFits(c.topo, L, g, t, n.results, e.seen, e.arrived, e.ready, e.execs, arrived', ready', e.running, e.log, n.now, c.epsTime);
  }

  /** Everything an accepted dispatch flow changes stays consistent. */
  lemma DispatchAccepted(c: Config, n: Net, L: Layer, e: Engine, g: nat, arrived': Arrivals, ready': Queues)
    requires Core(c, n, L, e) && g < |L.outward.groups| && OutId(g) !in e.seen && OutId(g) in n.results
    requires Accepts(L, g, n.results[OutId(g)], e.arrived, e.ready, arrived', ready')
    requires ArrivedBefore(e.execs, n.now + c.epsTime)
    ensures Core(c, n, L, e.(seen := e.seen + {OutId(g)}, arrived := arrived', ready := ready'))
  {
    DispatchKeepsChips(c, n, L, e, g, arrived', ready');
    AcceptArrivals(c.topo, L, g, n.results[OutId(g)], n.results, e.seen, e.arrived);
    SeenOutKeepsCombined(c.topo, L, g, n.results, e.seen, e.combined);
  }

  lemma CombineAccepted(c: Config, n: Net, L: Layer, e: Engine, h: nat)
    requires Core(c, n, L, e) && h < |L.inward.groups| && BackId(L, h) !in e.seen && BackId(L, h) in n.results
    ensures Core(c, n, L, e.(seen := e.seen + {BackId(L, h)},
                             combined := CombineAll(e.combined, L.inward.groups[h], n.results[BackId(L, h)])))
  {
    AcceptCombine(c.topo, L, h, n.results[BackId(L, h)], n.results, e.seen, e.combined);
    SeenBackKeepsArrivals(c.topo, L, h, n.results, e.seen, e.arrived);
  }

  /** A result that is not a dispatch flow's belongs to a launched combine flow. */
  lemma LaunchedFlow(c: Config, n: Net, L: Layer, e: Engine, f: FlowId)
    requires Core(c, n, L, e) && f in n.results && f >= |L.outward.groups|
    ensures f - |L.outward.groups| in e.launched && f - |L.outward.groups| < |L.inward.groups|
  {
    assert f in n.states.Keys;
  }

  // ----- computing -----

  lemma BatchPopped(c: Config, n: Net, L: Layer, e: Engine, k: Key)
    requires Core(c, n, L, e) && k in e.heap && k.time <= n.now + c.epsTime
    ensures k.id in e.execs && e.execs[k.id].chip in e.running && k.id in Replicas(L)
    ensures n.now <= e.execs[k.id].finish == k.time && !Computed(e.execs, e.heap, k.id)
    ensures Core(c, n, L, e.(heap := e.heap - {k}, running := e.running - {e.execs[k.id].chip}))
    ensures |Uncomputed(L, e.execs, e.heap - {k})| == |Uncomputed(L, e.execs, e.heap)| - 1
    ensures forall r :: Computed(e.execs, e.heap - {k}, r) <==> Computed(e.execs, e.heap, r) || r == k.id
  {
    PopKeepsHeap(e.execs, e.heap, e.running, k);
    PopKeepsLogs(e.execs, e.heap, e.log, c.epsTime, e.heap - {k});
    PopFits(e.execs, e.heap, e.running, e.ready, e.log, n.now, c.epsTime, k);
    PopOnTime(e.execs, e.heap, e.running, n.now, c.epsTime, k);
    assert ExecOk(L, e.arrived, e.execs, k.id);
    PopShrinks(L, e.execs, e.heap, e.running, k);
  }

  /** The state after starting the batch at the head of a queue. */
  function Started(L: Layer, e: Engine, chip: ChipId, now: real): Engine
    requires chip in e.ready && chip in e.log && e.ready[chip] != [] && e.ready[chip][0].id in L.duration
  {
    var k := e.ready[chip][0];
    var x := StartOf(L, chip, k, now);
    e.(ready := e.ready[chip := e.ready[chip][1..]], running := e.running + {chip},
       heap := e.heap + {Key(x.finish, k.id)}, execs := e.execs[k.id := x], log := e.log[chip := e.log[chip] + [k.id]])
  }

  lemma HeadOf(c: Config, L: Layer, e: Engine, now: real, chip: ChipId)
    requires ValidLayer(c.topo, L) && ChipsMatch(L, e, now, c.epsTime) && chip in e.ready && e.ready[chip] != []
    ensures var k := e.ready[chip][0];
      && k.id in L.duration && L.duration[k.id] > 0.0 && k.id !in e.execs
      && k.time <= now + c.epsTime && FitsChip(e.execs, e.running, e.log[chip], chip, k, now, c.epsTime)
  {
    var k := e.ready[chip][0];
    assert FitsOn(e.execs, e.running, e.ready, e.log, chip, now, c.epsTime);
    assert FitsChip(e.execs, e.running, e.log[chip], chip, k, now, c.epsTime);
    assert QueueOk(L, e.arrived, chip, e.ready[chip]);
    assert IsEntry(L, e.arrived, chip, k);
    var a: nat :| 0 <= a < |L.bindings| && ReplicaOf(L, a) == k.id;
    assert ValidBinding(c.topo, L, a);
    QueuedByMember(e.ready[chip], k);
    assert Phase(L, e.arrived, e.ready, e.execs, k.id);
  }

  lemma StartKeepsChips(c: Config, L: Layer, e: Engine, now: real, chip: ChipId)
    requires ValidLayer(c.topo, L) && ChipsMatch(L, e, now, c.epsTime)
    requires chip in e.ready && e.ready[chip] != [] && chip !in e.running
    ensures e.ready[chip][0].id in L.duration && ChipsMatch(L, Started(L, e, chip, now), now, c.epsTime)
  {
    HeadOf(c, L, e, now, chip);
    var k, e' := e.ready[chip][0], Started(L, e, chip, now);
    var x := StartOf(L, chip, k, now);
    assert LogOk(e.execs, e.heap, chip, e.log[chip], c.epsTime);
    HeadCanFollow(e.execs, e.heap, e.running, e.log[chip], chip, k, now, c.epsTime);
    HeapKnown(e.execs, e.heap, e.running);
    StartKeepsLog(L, e.execs, e.heap, chip, e.log[chip], c.epsTime, now, k);
    StartKeepsPhases(L, e.arrived, e.ready, e.execs, chip, x);
    StartKeepsHeap(e.execs, e.heap, e.running, k.id, x);
    StartFits(L, e.arrived, e.execs, e.running, e.ready, e.log, chip, x, now, c.epsTime);
    StartOnTime(e.execs, e.heap, k.id, x, now, c.epsTime);
    forall other | other in e'.log.Keys
      ensures LogOk(e'.execs, e'.heap, other, e'.log[other], c.epsTime)
    {
      if other != chip {
        assert LogOk(e.execs, e.heap, other, e.log[other], c.epsTime);
        StartKeepsOtherLog(L, e.execs, e.heap, other, e.log[other], c.epsTime, x, k.id);
      }
    }
  }

  lemma HeapKnown(execs: Executions, heap: set<Key>, running: set<ChipId>)
    requires HeapOk(execs, heap, running)
    ensures forall k | k in heap :: k.id in execs
  {
    forall k | k in heap
      ensures k.id in execs
    {
      assert HeapEntry(execs, running, k);
    }
  }

  /** From e to e' batches are started and nothing else happens. */
  ghost predicate StartsOnly(L: Layer, e: Engine, e': Engine, now: real, eps: real) {
    && e'.seen == e.seen && e'.combined == e.combined && e'.combineReady == e.combineReady && e'.launched == e.launched
    && e.running <= e'.running && e'.ready.Keys == e.ready.Keys
    && (forall chip | chip in e.ready.Keys && e.ready[chip] == [] :: e'.ready[chip] == [])
    && (forall r | r in e.execs.Keys :: r in e'.execs && e'.execs[r] == e.execs[r])
    && ComputedSet(L, e'.execs, e'.heap) == ComputedSet(L, e.execs, e.heap)
    && Uncomputed(L, e'.execs, e'.heap) == Uncomputed(L, e.execs, e.heap)
    && (ArrivedBy(e.execs, now + eps) ==> ArrivedBy(e'.execs, now + eps))
    && (LaterThan(e.heap, now) ==> LaterThan(e'.heap, now))
  }

  predicate LaterThan(heap: set<Key>, now: real) {
    forall k | k in heap :: now < k.time
  }

  lemma StartsOnlyChains(L: Layer, e: Engine, e1: Engine, e2: Engine, now: real, eps: real)
    requires StartsOnly(L, e, e1, now, eps) && StartsOnly(L, e1, e2, now, eps)
    ensures StartsOnly(L, e, e2, now, eps)
  {
  }

  lemma StartsKeepHandled(L: Layer, e: Engine, e': Engine, now: real, eps: real)
    requires StartsOnly(L, e, e', now, eps) && Handled(L, e, ComputedSet(L, e.execs, e.heap))
    ensures Handled(L, e', ComputedSet(L, e'.execs, e'.heap))
  {
    if L.reduceChip {
      var done := ComputedSet(L, e.execs, e.heap);
      forall a | 0 <= a < |L.bindings|
        ensures RecordedAt(L, e'.execs, done, e'.combineReady, a)
      {
        assert RecordedAt(L, e.execs, done, e.combineReady, a);
      }
    }
  }

  lemma StartStartsOnly(c: Config, L: Layer, e: Engine, now: real, chip: ChipId)
    requires ValidLayer(c.topo, L) && ChipsMatch(L, e, now, c.epsTime)
    requires chip in e.ready && e.ready[chip] != [] && chip !in e.running
    ensures e.ready[chip][0].id in L.duration && StartsOnly(L, e, Started(L, e, chip, now), now, c.epsTime)
  {
    HeadOf(c, L, e, now, chip);
    var k := e.ready[chip][0];
    var x := StartOf(L, chip, k, now);
    HeapKnown(e.execs, e.heap, e.running);
    StartKeepsComputed(L, e.execs, e.heap, k.id, x);
    StartKeepsUncomputed(L, e.execs, e.heap, k.id, x);
  }

  /** Starting a batch keeps the invariant and computes nothing yet. */
  lemma BatchStarted(c: Config, n: Net, L: Layer, e: Engine, chip: ChipId)
    requires Core(c, n, L, e) && chip in e.ready && e.ready[chip] != [] && chip !in e.running
    ensures e.ready[chip][0].id in L.duration && e.ready[chip][0].id !in e.execs && e.ready[chip][0].time <= n.now + c.epsTime
    ensures var e' := Started(L, e, chip, n.now);
      Core(c, n, L, e') && StartsOnly(L, e, e', n.now, c.epsTime)
  {
    HeadOf(c, L, e, n.now, chip);
    var k := e.ready[chip][0];
    var x := StartOf(L, chip, k, n.now);
    StartKeepsChips(c, L, e, n.now, chip);
    StartStartsOnly(c, L, e, n.now, chip);
    StartKeepsBackFlows(L, n.states, e.execs, e.launched, k.id, x);
  }

  lemma SoundStart(c: Config, n: Net, L: Layer, e: Engine, chip: ChipId)
    requires Sound(c, n, L, e) && chip in e.ready && e.ready[chip] != [] && chip !in e.running
    ensures chip in e.log && e.ready[chip][0].id in L.duration && e.ready[chip][0].time <= n.now + c.epsTime
    ensures var e' := Started(L, e, chip, n.now);
      Sound(c, n, L, e') && StartsOnly(L, e, e', n.now, c.epsTime)
  {
    assert Core(c, n, L, e);
    BatchStarted(c, n, L, e, chip);
  }

  lemma SoundPop(c: Config, n: Net, L: Layer, e: Engine, k: Key)
    requires Sound(c, n, L, e) && k in e.heap && k.time <= n.now + c.epsTime
    ensures k.id in e.execs && k.id in Replicas(L) && n.now <= e.execs[k.id].finish && !Computed(e.execs, e.heap, k.id)
    ensures Sound(c, n, L, e.(heap := e.heap - {k}, running := e.running - {e.execs[k.id].chip}))
    ensures |Uncomputed(L, e.execs, e.heap - {k})| == |Uncomputed(L, e.execs, e.heap)| - 1
    ensures forall r :: Computed(e.execs, e.heap - {k}, r) <==> Computed(e.execs, e.heap, r) || r == k.id
  {
    assert Core(c, n, L, e);
    BatchPopped(c, n, L, e, k);
  }

  lemma SoundDispatch(c: Config, n: Net, L: Layer, e: Engine, g: nat, arrived': Arrivals, ready': Queues)
    requires Sound(c, n, L, e) && g < |L.outward.groups| && OutId(g) !in e.seen && OutId(g) in n.results && e.ready.Keys == Chips(L)
    requires Accepts(L, g, n.results[OutId(g)], e.arrived, e.ready, arrived', ready') && ArrivedBefore(e.execs, n.now + c.epsTime)
    ensures Sound(c, n, L, e.(seen := e.seen + {OutId(g)}, arrived := arrived', ready := ready'))
  {
    assert Core(c, n, L, e);
    DispatchAccepted(c, n, L, e, g, arrived', ready');
  }

  lemma SoundCombine(c: Config, n: Net, L: Layer, e: Engine, h: nat)
    requires Sound(c, n, L, e) && h < |L.inward.groups| && BackId(L, h) !in e.seen && BackId(L, h) in n.results
    ensures Sound(c, n, L, e.(seen := e.seen + {BackId(L, h)},
                              combined := CombineAll(e.combined, L.inward.groups[h], n.results[BackId(L, h)])))
  {
    assert Core(c, n, L, e);
    CombineAccepted(c, n, L, e, h);
  }

  /** What accepting needs to know. */
  lemma SoundArrivals(c: Config, n: Net, L: Layer, e: Engine)
    requires Sound(c, n, L, e)
    ensures ValidLayer(c.topo, L) && e.ready.Keys == Chips(L) && ArrivalsOk(L, n.results, e.seen, e.arrived)
  {
    assert Core(c, n, L, e);
  }

  // ----- the network moves -----

  lemma LaunchMatches(c: Config, n: Net, L: Layer, e: Engine, h: nat, release: real)
    requires FlowsMatch(c, n, L, e) && h < |L.inward.groups| && h !in e.launched
    requires ReleaseOf(L, e.execs, h, release) && n.now <= release
    ensures L.inward.groups[h] != [] && L.inward.groups[h][0] < |L.bindings|
    ensures ValidFlow(c.topo, BackFlow(L, h, release)) && BackId(L, h) !in n.states
    ensures var n' := AddFlow(c, n, BackFlow(L, h, release));
      && FlowsMatch(c, n', L, e.(launched := e.launched + {h})) && n'.now == n.now
      && FreshResults(n, n', c.epsTime) && ResultsGrow(n.results, n'.results) && Work(c, n') <= Work(c, n) + 2
  {
    BackFlowIsValid(c.topo, L, h, release);
    var flow := BackFlow(L, h, release);
    var n' := AddFlow(c, n, flow);
    AddFlowKeeps(c, n, flow);
    AddFlowExtends(c, n, flow);
    LaunchKeepsFlows(L, n.states, n'.states, e.execs, e.launched, h, release);
  }

  /** New results, dated now, wait to be accepted. */
  lemma GrownResults(c: Config, n: Net, n': Net, L: Layer, e: Engine)
    requires ValidLayer(c.topo, L) && AcceptedMatch(c, n, L, e) && (n'.now == n.now || e.seen == n.results.Keys)
    requires FreshResults(n, n', c.epsTime) && ResultsGrow(n.results, n'.results)
    ensures AcceptedMatch(c, n', L, e)
  {
    GrowKeepsSeen(c.topo, L, n.results, n'.results, e.seen, e.arrived, e.combined);
  }

  /** Launching the combine flow of a group whose batches are over. */
  lemma CombineLaunched(c: Config, n: Net, L: Layer, e: Engine, h: nat, release: real)
    requires Core(c, n, L, e) && h < |L.inward.groups| && h !in e.launched
    requires ReleaseOf(L, e.execs, h, release) && n.now <= release
    ensures L.inward.groups[h] != [] && L.inward.groups[h][0] < |L.bindings|
    ensures ValidFlow(c.topo, BackFlow(L, h, release)) && BackId(L, h) !in n.states
    ensures var n' := AddFlow(c, n, BackFlow(L, h, release));
      && Core(c, n', L, e.(launched := e.launched + {h}))
      && n'.now == n.now && Work(c, n') <= Work(c, n) + 2
    ensures |Unlaunched(L, e.launched + {h})| == |Unlaunched(L, e.launched)| - 1
  {
    LaunchMatches(c, n, L, e, h, release);
    GrownResults(c, n, AddFlow(c, n, BackFlow(L, h, release)), L, e);
    LaunchShrinks(L, e.launched, h);
  }

  lemma SoundLaunch(c: Config, n: Net, L: Layer, e: Engine, h: nat, release: real)
    requires Sound(c, n, L, e) && h < |L.inward.groups| && h !in e.launched
    requires ReleaseOf(L, e.execs, h, release) && n.now <= release
    ensures ValidNet(c, n) && NoOverrun(n) && L.inward.groups[h] != [] && L.inward.groups[h][0] < |L.bindings|
    ensures ValidFlow(c.topo, BackFlow(L, h, release)) && BackId(L, h) !in n.states
    ensures var n' := AddFlow(c, n, BackFlow(L, h, release));
      && Sound(c, n', L, e.(launched := e.launched + {h}))
      && n'.now == n.now && Work(c, n') <= Work(c, n) + 2
    ensures |Unlaunched(L, e.launched + {h})| == |Unlaunched(L, e.launched)| - 1
  {
    assert Core(c, n, L, e);
    CombineLaunched(c, n, L, e, h, release);
  }

  lemma StaysRunning(c: Config, n: Net, L: Layer, e: Engine, t: real)
    requires ChipsMatch(L, e, n.now, c.epsTime) && NoIdleWait(e.running, e.ready) && n.now <= t
    requires forall k | k in e.heap :: t <= k.time
    ensures ChipsMatch(L, e, t, c.epsTime)
  {
    forall chip | chip in e.ready.Keys
      ensures FitsOn(e.execs, e.running, e.ready, e.log, chip, t, c.epsTime)
    {
      assert FitsOn(e.execs, e.running, e.ready, e.log, chip, n.now, c.epsTime);
      forall k | k in e.ready[chip]
        ensures FitsChip(e.execs, e.running, e.log[chip], chip, k, t, c.epsTime)
      {
        assert FitsChip(e.execs, e.running, e.log[chip], chip, k, n.now, c.epsTime);
      }
    }
  }

  /** The network advances to the next moment anything happens. */
  lemma NetworkAdvanced(c: Config, n: Net, L: Layer, e: Engine, t: real)
    requires AtRest(c, n, L, e) && ValidNet(c, n) && n.now < t && StopsAtEvent(c, n, t)
    requires forall k | k in e.heap :: t <= k.time
    ensures var n' := Advance(c, n, t);
      Core(c, n', L, e) && n'.now == t && Work(c, n') <= Work(c, n) && ArrivedBefore(e.execs, t + c.epsTime)
  {
    assert Core(c, n, L, e);
    var n' := Advance(c, n, t);
    AdvanceKeeps(c, n, t);
    ForwardShrinks(c, n, n');
    AdvanceNoOverrun(c, n, t);
    FlowsStay(L, n.states, n'.states, e.execs, e.launched);
    GrownResults(c, n, n', L, e);
    StaysRunning(c, n, L, e, t);
  }

  // ----- between events -----

  /** Nothing waits that could go on now. */
  ghost predicate AtRest(c: Config, n: Net, L: Layer, e: Engine) {
    && Sound(c, n, L, e) && e.seen == n.results.Keys && NoIdleWait(e.running, e.ready)
    && ArrivedBy(e.execs, n.now + c.epsTime) && LaterThan(e.heap, n.now)
    && Handled(L, e, ComputedSet(L, e.execs, e.heap))
  }

  /** The combine flows of exactly the groups within `done` are launched. */
  ghost predicate Handled(L: Layer, e: Engine, done: set<AssignmentId>) {
    && |L.inward.of| == |L.bindings| && LaunchedOk(L, done, e.launched)
    && (L.reduceChip ==> RecordedOk(L, e.execs, done, e.combineReady))
  }

  lemma QuietNetwork(c: Config, n: Net)
    requires ValidNet(c, n) && n.results.Keys == n.states.Keys
    ensures NextEvent(c, n).None?
  {
    var t, R := NextEvent(c, n), RatesOf(c, n);
    forall f | f in n.states.Keys
      ensures Candidate(c, n, R, f).None?
    {
      assert FlowOk(c, n, f);
    }
  }

  /** The deadlock error is unreachable: until everything is combined, the
      network or a chip has an event to come. */
  lemma NeverStuck(c: Config, n: Net, L: Layer, e: Engine)
    requires AtRest(c, n, L, e) && |e.combined| < |L.bindings|
    ensures e.heap != {} || n.results.Keys != n.states.Keys
    ensures ValidNet(c, n) && NoOverrun(n)
  {
    assert Core(c, n, L, e);
    var all := FirstNats(|L.bindings|);
    assert forall a | a in e.combined.Keys :: a in all;
    assert |e.combined.Keys| < |all|;
    if all <= e.combined.Keys { SmallerSet(all, e.combined.Keys); }
    var a :| a in all && a !in e.combined.Keys;
    SomethingPending(c.topo, L, n.states.Keys, n.results, e.arrived, e.ready, e.execs, e.heap, e.running, e.combined, e.launched, a);
  }

  /** The next moment anything happens: a network event or the end of a batch. */
  ghost predicate IsNextMoment(c: Config, n: Net, heap: set<Key>, t: real)
    requires ValidNet(c, n)
  {
    && n.now < t && StopsAtEvent(c, n, t) && (forall k | k in heap :: t <= k.time)
    && (NextEvent(c, n) == Some(t) || exists k | k in heap :: k.time == t)
  }

  /** Getting to the next moment spends a network event or a running batch. */
  lemma MomentProgress(c: Config, n: Net, L: Layer, e: Engine, t: real)
    requires AtRest(c, n, L, e) && ValidNet(c, n) && IsNextMoment(c, n, e.heap, t)
    ensures var n' := Advance(c, n, t);
      && Sound(c, n', L, e) && n'.now == t && ArrivedBefore(e.execs, t + c.epsTime)
      && Work(c, n') <= Work(c, n)
      && (Work(c, n') < Work(c, n) || exists k | k in e.heap :: k.time <= t + c.epsTime)
  {
    NetworkAdvanced(c, n, L, e, t);
    if NextEvent(c, n) == Some(t) {
      EventProgress(c, n);
    }
  }

  // ----- launching -----

  lemma RestOfLaunch(L: Layer, done: set<AssignmentId>, launched: set<nat>, a: AssignmentId)
    requires |L.inward.of| == |L.bindings| && ValidGrouping(L.inward, |L.bindings|)
    requires forall h | 0 <= h < |L.inward.groups| :: |L.inward.groups[h]| == 1
    requires a < |L.bindings| && a !in done && LaunchedOk(L, done, launched)
    ensures var h := L.inward.of[a];
      h < |L.inward.groups| && L.inward.groups[h] == [a] && h !in launched && LaunchedOk(L, done + {a}, launched + {h})
  {
    var h := L.inward.of[a];
    assert InGroup(L.inward, a);
    assert L.inward.groups[h] == [a];
    assert LaunchedAt(L, done, launched, h);
    forall k: nat | k < |L.inward.groups|
      ensures LaunchedAt(L, done + {a}, launched + {h}, k)
    {
      assert LaunchedAt(L, done, launched, k);
      if k != h {
        assert ValidGroup(L.inward, k);
        assert forall b | b in L.inward.groups[k] :: b != a;
      }
    }
  }

  lemma LoneRelease(L: Layer, execs: Executions, h: nat, a: AssignmentId)
    requires !L.reduceChip && h < |L.inward.groups| && L.inward.groups[h] == [a] && a < |L.bindings| && ReplicaOf(L, a) in execs
    ensures ReleaseOf(L, execs, h, execs[ReplicaOf(L, a)].finish)
  {
    assert DoneBy(L, execs, a, execs[ReplicaOf(L, a)].finish);
    assert a in L.inward.groups[h];
  }

  /** A group that has only now become complete is released from now on. */
  lemma GroupRelease(c: Config, n: Net, L: Layer, e: Engine, before: set<AssignmentId>, done: set<AssignmentId>, h: nat)
    requires ValidLayer(c.topo, L) && L.reduceChip && RecordedOk(L, e.execs, done, e.combineReady) && h < |L.inward.groups|
    requires GroupDone(L, done, h) && !GroupDone(L, before, h)
    requires forall a | a in done && a !in before && a < |L.bindings| && ReplicaOf(L, a) in e.execs :: n.now <= e.execs[ReplicaOf(L, a)].finish
    ensures h in e.combineReady && e.combineReady[h].Keys != {} && n.now <= MaxOf(e.combineReady[h])
    ensures ReleaseOf(L, e.execs, h, MaxOf(e.combineReady[h]) + L.reduceLatency)
  {
    assert ValidGroup(L.inward, h);
    var a :| a in L.inward.groups[h] && a !in before;
    assert RecordedAt(L, e.execs, done, e.combineReady, a);
    AllRecorded(c.topo, L, e.execs, done, e.combineReady, h);
    assert a in e.combineReady[h].Keys;
  }

  // ----- the beginning -----

  /** The first g dispatch flows have been added. */
  ghost predicate Dispatched(c: Config, n: Net, L: Layer, g: nat) {
    && n.now == 0.0 && (forall f: nat :: f in n.states.Keys <==> f < g)
    && (forall k: nat {:trigger IsOutFlow(L, n.states, k)} | k < g && k < |L.outward.groups| :: IsOutFlow(L, n.states, k))
    && UnseenFresh(n.results, {}, n.now, c.epsTime)
  }

  lemma DispatchAdded(c: Config, n: Net, L: Layer, g: nat)
    requires ValidNet(c, n) && ValidLayer(c.topo, L) && g < |L.outward.groups| && Dispatched(c, n, L, g)
    ensures L.outward.groups[g] != [] && L.outward.groups[g][0] < |L.bindings|
    ensures ValidFlow(c.topo, OutFlow(L, g)) && OutId(g) !in n.states
    ensures Dispatched(c, AddFlow(c, n, OutFlow(L, g)), L, g + 1)
  {
    OutFlowIsValid(c.topo, L, g);
    AddFlowExtends(c, n, OutFlow(L, g));
    var n' := AddFlow(c, n, OutFlow(L, g));
    DispatchExtends(c, n, n', L, g);
  }

  lemma DispatchExtends(c: Config, n: Net, n': Net, L: Layer, g: nat)
    requires g < |L.outward.groups| && Dispatched(c, n, L, g) && L.outward.groups[g] != [] && L.outward.groups[g][0] < |L.bindings|
    requires n'.now == n.now && n'.states.Keys == n.states.Keys + {OutId(g)} && n'.states[OutId(g)].flow == OutFlow(L, g)
    requires Extends(n, n') && FreshResults(n, n', c.epsTime)
    ensures Dispatched(c, n', L, g + 1)
  {
    forall k: nat | k < g + 1
      ensures IsOutFlow(L, n'.states, k)
    {
      if k < g { assert IsOutFlow(L, n.states, k); }
    }
  }

  function NoneReady(L: Layer): CombineReady {
    if L.reduceChip then map h | h in FirstNats(|L.inward.groups|) :: map[] else map[]
  }

  /** The state before anything is accepted. */
  ghost predicate IsFresh(L: Layer, e: Engine) {
    && e.seen == {} && e.arrived.Keys == Replicas(L) && (forall r | r in e.arrived.Keys :: e.arrived[r] == map[])
    && e.ready.Keys == Chips(L) == e.log.Keys && (forall chip | chip in Chips(L) :: e.ready[chip] == [] && e.log[chip] == [])
    && e.running == {} && e.heap == {} && e.execs == map[] && e.combined == map[]
    && e.combineReady == NoneReady(L) && e.launched == {}
  }

  lemma FreshIsSound(c: Config, n: Net, L: Layer, e: Engine)
    requires ValidNet(c, n) && NoOverrun(n) && ValidLayer(c.topo, L)
    requires Dispatched(c, n, L, |L.outward.groups|) && IsFresh(L, e)
    ensures Sound(c, n, L, e)
  {
    FreshChips(c, L, e, n.now);
    forall a | 0 <= a < |L.bindings|
      ensures ArrivedAt(L, n.results, {}, e.arrived, a) && CombinedAt(L, n.results, {}, e.combined, a)
    {
    }
    assert Core(c, n, L, e);
  }

  lemma FreshChips(c: Config, L: Layer, e: Engine, now: real)
    requires ValidLayer(c.topo, L) && IsFresh(L, e)
    ensures ChipsMatch(L, e, now, c.epsTime)
  {
    forall r | r in Replicas(L)
      ensures Phase(L, e.arrived, e.ready, e.execs, r)
    {
      MembersNonEmpty(L, r);
      assert !QueuedOnChip(L, e.ready, r);
    }
  }

  lemma FreshIsHandled(c: Config, L: Layer, e: Engine)
    requires ValidLayer(c.topo, L) && IsFresh(L, e)
    ensures Handled(L, e, ComputedSet(L, e.execs, e.heap))
  {
    assert ComputedSet(L, e.execs, e.heap) == {};
    forall h: nat | h < |L.inward.groups|
      ensures LaunchedAt(L, {}, e.launched, h)
    {
      assert ValidGroup(L.inward, h);
      assert L.inward.groups[h][0] in L.inward.groups[h];
    }
    if L.reduceChip {
      forall a | 0 <= a < |L.bindings|
        ensures RecordedAt(L, e.execs, {}, e.combineReady, a)
      {
        assert InGroup(L.inward, a);
      }
    }
  }

  // ----- the end -----

  /** The flow takes the path with this payload. */
  predicate Carries(flow: Flow, path: Path, nbytes: nat) {
    flow.src == path.src && flow.dst == path.dst && flow.route == path.route && flow.nbytes == nbytes
  }

  predicate LedBy(L: Layer, group: seq<AssignmentId>) {
    group != [] && group[0] < |L.bindings|
  }

  /** The batch of a is over at t. */
  predicate IsOver(L: Layer, execs: Executions, a: AssignmentId, t: real) {
    a < |L.bindings| && L.bindings[a].replica in execs && execs[L.bindings[a].replica].finish == t
  }

  /** t is when the last batch of the group is over, and the reduction on their
      chip if there is one. */
  ghost predicate OverAt(L: Layer, execs: Executions, group: seq<AssignmentId>, t: real) {
    var delay := if L.reduceChip then L.reduceLatency else 0.0;
    && (forall a | a in group :: a < |L.bindings| && L.bindings[a].replica in execs && execs[L.bindings[a].replica].finish + delay <= t)
    && exists a {:trigger IsOver(L, execs, a, t - delay)} :: a in group && IsOver(L, execs, a, t - delay)
  }

  /** The network carries nothing but the activations of this layer: out along
      the path of the first member of each group from the start, and back along
      the path of the first member of each launched group. */
  lemma FlowsCarry(c: Config, n: Net, L: Layer, e: Engine, f: FlowId)
    requires Sound(c, n, L, e) && f in n.states
    ensures f < |L.outward.groups| ==>
      && LedBy(L, L.outward.groups[f]) && n.states[f].flow.earliest == L.start
      && Carries(n.states[f].flow, L.bindings[L.outward.groups[f][0]].outbound, L.hiddenBytes)
    ensures f >= |L.outward.groups| ==>
      var h := f - |L.outward.groups|;
      && h in e.launched && h < |L.inward.groups| && LedBy(L, L.inward.groups[h])
      && OverAt(L, e.execs, L.inward.groups[h], n.states[f].flow.earliest)
      && Carries(n.states[f].flow, L.bindings[L.inward.groups[h][0]].inbound, L.hiddenBytes)
  {
    assert Core(c, n, L, e);
    if f < |L.outward.groups| {
      assert IsOutFlow(L, n.states, f);
    } else {
      assert f in n.states.Keys;
      assert ReleasedAt(L, n.states, e.execs, f - |L.outward.groups|);
      ReleaseIsOver(L, e.execs, f - |L.outward.groups|, n.states[f].flow.earliest);
    }
  }

  lemma ReleaseIsOver(L: Layer, execs: Executions, h: nat, release: real)
    requires h < |L.inward.groups| && ReleaseOf(L, execs, h, release)
    ensures OverAt(L, execs, L.inward.groups[h], release)
  {
    forall a | a in L.inward.groups[h]
      ensures DoneBy(L, execs, a, release)
    {
    }
    var a: AssignmentId :| a in L.inward.groups[h] && DoneBy(L, execs, a, release) && execs[ReplicaOf(L, a)].finish + ReduceDelay(L) == release;
    assert IsOver(L, execs, a, release - (if L.reduceChip then L.reduceLatency else 0.0));
  }

  /** What was noted of a is when the network delivered it: the flow of its
      group out, and the flow of its group back. */
  ghost predicate Delivered(n: Net, L: Layer, e: Engine, a: AssignmentId) {
    && a < |L.bindings| && a < |L.outward.of| && a < |L.inward.of|
    && var r, out, back := L.bindings[a].replica, L.outward.of[a], |L.outward.groups| + L.inward.of[a];
    && r in e.arrived && a in e.arrived[r] && out in n.results && e.arrived[r][a] == n.results[out]
    && a in e.combined && back in n.results && e.combined[a] == n.results[back]
  }

  lemma CombinedWasDelivered(c: Config, n: Net, L: Layer, e: Engine, a: AssignmentId)
    requires Sound(c, n, L, e) && a < |L.bindings| && a in e.combined
    ensures Delivered(n, L, e, a)
  {
    assert Core(c, n, L, e);
    assert CombinedAt(L, n.results, e.seen, e.combined, a);
    var release := JourneyBack(c, n, L, e, a);
    JourneyOut(c, n, L, e, a);
    assert ArrivedAt(L, n.results, e.seen, e.arrived, a);
  }

  /** An activation sent along the path from a moment on can be there by t: its
      route takes its latency, and its slowest link the bytes, both up to the
      tolerances. */
  ghost predicate ThereBy(c: Config, path: Path, nbytes: nat, from: real, t: real) {
    && ValidTopology(c.topo) && ValidPath(c.topo, path)
    && if path.route == [] then from <= t + c.epsTime
       else
         from + RouteLatency(c.topo, path.route) + (nbytes as real - c.epsBytes) / BottleneckBandwidth(c.topo, path.route) <= t + c.epsTime
  }

  lemma QuotientDifference(x: real, y: real, b: real)
    requires b > 0.0
    ensures (x - y) / b == x / b - y / b
  {
  }

  /** What the flow needs when idle is what its path needs. */
  lemma CarriedThere(c: Config, flow: Flow, path: Path, t: real)
    requires ValidConfig(c) && ValidFlow(c.topo, flow) && ValidPath(c.topo, path) && Carries(flow, path, flow.nbytes)
    requires IdealFinish(c.topo, flow) - Slack(c, flow) <= t
    ensures ThereBy(c, path, flow.nbytes, flow.earliest, t)
  {
    if path.route != [] {
      QuotientDifference(flow.nbytes as real, c.epsBytes, BottleneckBandwidth(c.topo, path.route));
      assert flow.nbytes == 0 ==> flow.nbytes as real / BottleneckBandwidth(c.topo, path.route) == 0.0;
    }
  }

  /** The way of one assignment: its activation is sent at the start and
      arrives no earlier than the path takes, its batch starts after all its
      arrivals and runs for its duration, and the result is released when the
      batches of its group and the reduction are over, and is back no earlier
      than the way back takes. */
  ghost predicate Journey(c: Config, L: Layer, e: Engine, a: AssignmentId) {
    && a < |L.bindings| && a < |L.outward.of| && a < |L.inward.of|
    && var r, g, h := ReplicaOf(L, a), L.outward.of[a], L.inward.of[a];
    && g < |L.outward.groups| && h < |L.inward.groups| && LedBy(L, L.outward.groups[g]) && LedBy(L, L.inward.groups[h])
    && r in e.execs && r in e.arrived && a in e.arrived[r] && r in L.duration && a in e.combined
    && var x := e.execs[r];
    && ThereBy(c, L.bindings[L.outward.groups[g][0]].outbound, L.hiddenBytes, L.start, e.arrived[r][a])
    && e.arrived[r][a] <= x.arrival <= x.start && x.finish == x.start + L.duration[r]
    && exists release {:trigger OverAt(L, e.execs, L.inward.groups[h], release)} ::
         OverAt(L, e.execs, L.inward.groups[h], release) && a in L.inward.groups[h]
         && ThereBy(c, L.bindings[L.inward.groups[h][0]].inbound, L.hiddenBytes, release, e.combined[a])
  }

  lemma JourneyBack(c: Config, n: Net, L: Layer, e: Engine, a: AssignmentId) returns (release: real)
    requires Core(c, n, L, e) && a < |L.bindings| && a in e.combined
    ensures ValidTopology(c.topo) && L.inward.of[a] < |L.inward.groups|
    ensures var h := L.inward.of[a];
      && L.inward.groups[h] != [] && L.inward.groups[h][0] < |L.bindings|
      && ReleaseOf(L, e.execs, h, release) && DoneBy(L, e.execs, a, release)
      && ValidFlow(c.topo, BackFlow(L, h, release))
      && IdealFinish(c.topo, BackFlow(L, h, release)) - Slack(c, BackFlow(L, h, release)) <= e.combined[a]
  {
    var h := L.inward.of[a];
    assert CombinedAt(L, n.results, e.seen, e.combined, a) && InGroup(L.inward, a);
    assert BackId(L, h) in n.states.Keys;
    assert ReleasedAt(L, n.states, e.execs, h);
    release := n.states[BackId(L, h)].flow.earliest;
    assert DoneBy(L, e.execs, a, release);
    assert FlowOk(c, n, BackId(L, h));
    NoEarlyFinish(c, n, BackId(L, h));
  }

  lemma JourneyOut(c: Config, n: Net, L: Layer, e: Engine, a: AssignmentId)
    requires Core(c, n, L, e) && a < |L.bindings| && ReplicaOf(L, a) in e.execs
    ensures ValidTopology(c.topo) && L.outward.of[a] < |L.outward.groups|
    ensures var r, g := ReplicaOf(L, a), L.outward.of[a];
      && L.outward.groups[g] != [] && L.outward.groups[g][0] < |L.bindings| && ValidFlow(c.topo, OutFlow(L, g))
      && r in e.arrived && a in e.arrived[r] && r in L.duration
      && IdealFinish(c.topo, OutFlow(L, g)) - Slack(c, OutFlow(L, g)) <= e.arrived[r][a]
      && e.arrived[r][a] <= e.execs[r].arrival <= e.execs[r].start && e.execs[r].finish == e.execs[r].start + L.duration[r]
  {
    var r, g := ReplicaOf(L, a), L.outward.of[a];
    assert ExecOk(L, e.arrived, e.execs, r);
    assert a in Members(L, r);
    assert ArrivedAt(L, n.results, e.seen, e.arrived, a) && InGroup(L.outward, a);
    assert IsOutFlow(L, n.states, g);
    OutFlowIsValid(c.topo, L, g);
    assert FlowOk(c, n, OutId(g));
    NoEarlyFinish(c, n, OutId(g));
  }

  /** Every assignment that is combined went all the way, in order. */
  lemma CombinedJourney(c: Config, n: Net, L: Layer, e: Engine, a: AssignmentId)
    requires Sound(c, n, L, e) && a < |L.bindings| && a in e.combined
    ensures Journey(c, L, e, a)
  {
    assert Core(c, n, L, e);
    var release := JourneyBack(c, n, L, e, a);
    assert DoneBy(L, e.execs, a, release);
    JourneyOut(c, n, L, e, a);
    assert InGroup(L.inward, a);
    var g, h := L.outward.of[a], L.inward.of[a];
    var first, last := L.outward.groups[g][0], L.inward.groups[h][0];
    assert ValidBinding(c.topo, L, first) && ValidBinding(c.topo, L, last);
    CarriedThere(c, OutFlow(L, g), L.bindings[first].outbound, e.arrived[ReplicaOf(L, a)][a]);
    CarriedThere(c, BackFlow(L, h, release), L.bindings[last].inbound, e.combined[a]);
    ReleaseIsOver(L, e.execs, h, release);
  }

  /** Once as many are combined as were dispatched, every assignment is
      combined, every batch was computed, and nothing else was. */
  lemma AllDone(c: Config, n: Net, L: Layer, e: Engine)
    requires Sound(c, n, L, e) && |e.combined| >= |L.bindings|
    ensures forall a: nat :: a in e.combined <==> a < |L.bindings|
    ensures e.execs.Keys == Replicas(L)
  {
    assert Core(c, n, L, e);
    var all := FirstNats(|L.bindings|);
    assert forall a | a in e.combined.Keys :: a in all;
    SmallerSet(e.combined.Keys, all);
    assert e.combined.Keys == all;
    forall r | r in Replicas(L)
      ensures r in e.execs
    {
      var a: nat :| 0 <= a < |L.bindings| && ReplicaOf(L, a) == r;
      assert a in all;
      var release := JourneyBack(c, n, L, e, a);
    }
    forall r | r in e.execs.Keys
      ensures r in Replicas(L)
    {
      assert ExecOk(L, e.arrived, e.execs, r);
    }
  }

  /** The event-driven schedule of a chip is a recurrence: a batch lasts as long
      as its kernel takes, the first starts when its last dispatch arrives, and
      each next one when it has arrived and the one before is over; with no
      tolerance, in the order of arrival with ties by replica. */
  lemma ScheduleIsRecurrence(c: Config, n: Net, L: Layer, e: Engine, chip: ChipId, i: nat)
    requires Sound(c, n, L, e) && chip in e.log && i < |e.log[chip]|
    ensures var r := e.log[chip][i];
      && r in e.execs && r in e.arrived && r in L.duration && r in L.chipOf && L.chipOf[r] == chip
      && e.arrived[r].Keys == Members(L, r) != {} && e.execs[r].arrival == MaxOf(e.arrived[r])
      && e.execs[r].finish == e.execs[r].start + L.duration[r]
      && (i == 0 ==> e.execs[r].start == e.execs[r].arrival)
    ensures i > 0 ==> Follows(e.execs, c.epsTime, e.log[chip][i - 1], e.log[chip][i])
    ensures i > 0 && c.epsTime == 0.0 ==>
      var p, r := e.log[chip][i - 1], e.log[chip][i];
      && e.execs[r].start == Max(e.execs[r].arrival, e.execs[p].finish)
      && Before(Key(e.execs[p].arrival, p), Key(e.execs[r].arrival, r))
  {
    assert Core(c, n, L, e);
    var log := e.log[chip];
    assert LogOk(e.execs, e.heap, chip, log, c.epsTime);
    assert log[i] in log && ExecOk(L, e.arrived, e.execs, log[i]);
    if i > 0 { assert FollowsAt(e.execs, e.heap, log, c.epsTime, i - 1); }
  }
}
