/** The state of the fluid network as a value, and what each step does to it. */
module NetModel {
  import opened Basics
  import opened FairShare
  import opened NetTopology

  /** The topology with its capacity table, and the tolerances of the event
      loop; the exact model has both tolerances zero. */
  datatype Config = Config(topo: Topology, cap: Capacities, epsTime: real, epsBytes: real)

  ghost predicate ValidConfig(c: Config) {
    ValidTopology(c.topo) && IsCapacityTable(c.topo, c.cap) && c.epsTime >= 0.0 && c.epsBytes >= 0.0
  }

  datatype Status = Pending | Active | Complete

  datatype FlowState = FlowState(
    flow: Flow,
    resources: set<Resource>,
    release: real,
    remaining: real,
    firstService: Option<real>,
    finish: Option<real>,
    status: Status)

  /** `served` is what the network has delivered of each flow: its rate
      integrated over time. It is not part of the program's state. */
  datatype Net = Net(
    now: real,
    states: map<FlowId, FlowState>,
    active: set<FlowId>,
    results: map<FlowId, real>,
    linkBytes: map<LinkId, nat>,
    inflight: map<LinkId, int>,
    served: map<FlowId, real>)

  // ----- steps -----

  function Occupied(inflight: map<LinkId, int>, route: seq<LinkId>): map<LinkId, int> {
    map l | l in inflight.Keys :: inflight[l] + Occurrences(route, l)
  }

  function Released(inflight: map<LinkId, int>, route: seq<LinkId>): map<LinkId, int> {
    map l | l in inflight.Keys :: inflight[l] - Occurrences(route, l)
  }

  function CompleteFlow(n: Net, f: FlowId, t: real): (n': Net)
    requires f in n.states
    ensures n'.states.Keys == n.states.Keys && n'.now == n.now
  {
    if f in n.results then n else
    var st := n.states[f];
    n.(states := n.states[f := st.(
         status := Complete,
         finish := Some(t),
         firstService := if st.firstService.None? then Some(t) else st.firstService)],
       active := n.active - {f},
       inflight := if st.status.Active? then Released(n.inflight, st.flow.route) else n.inflight,
       results := n.results[f := t])
  }

  /** A limited link of the route has no free slot. */
  predicate Blocked(topo: Topology, inflight: map<LinkId, int>, route: seq<LinkId>) {
    exists l :: l in route && Limited(topo, l) && l in inflight.Keys && inflight[l] >= topo.links[l].maxInflight.value
  }

  predicate Due(c: Config, n: Net, f: FlowId)
    requires f in n.states
  {
    n.states[f].status.Pending? && n.states[f].release <= n.now + c.epsTime
  }

  /** Nothing to transfer, or nothing that limits the transfer. */
  predicate Instant(c: Config, st: FlowState) {
    st.remaining <= c.epsBytes || st.resources == {}
  }

  /** One turn of `_activate_due`. */
  function Admit(c: Config, n: Net, f: FlowId): (n': Net)
    requires f in n.states
    ensures n'.states.Keys == n.states.Keys && n'.now == n.now
  {
    var st := n.states[f];
    if !Due(c, n, f) then n
    else if Instant(c, st) then CompleteFlow(n, f, Max(n.now, st.release))
    else if Blocked(c.topo, n.inflight, st.flow.route) then n
    else n.(states := n.states[f := st.(status := Active)],
            active := n.active + {f},
            inflight := Occupied(n.inflight, st.flow.route))
  }

  function AdmitAll(c: Config, n: Net, ids: seq<FlowId>): (n': Net)
    requires forall f | f in ids :: f in n.states.Keys
    ensures n'.states.Keys == n.states.Keys && n'.now == n.now
    decreases ids
  {
    if ids == [] then n else AdmitAll(c, Admit(c, n, ids[0]), ids[1..])
  }

  function Releases(n: Net): map<FlowId, real> {
    map f | f in n.states.Keys :: n.states[f].release
  }

  /** All flows in the order in which they are offered admission. */
  function AdmissionOrder(n: Net): seq<FlowId> {
    InOrder(n.states.Keys, Releases(n))
  }

  function ActivateDue(c: Config, n: Net): Net {
    AdmitAll(c, n, AdmissionOrder(n))
  }

  // ----- consistency -----

  /** By time t the link can have carried what was served since the release. */
  ghost predicate PacedOn(c: Config, st: FlowState, served: real, t: real, l: LinkId)
    requires l in c.topo.links
  {
    served <= c.topo.links[l].effective * (t + c.epsTime - st.release)
  }

  /** The flow was served no faster than any link of its route allows. */
  ghost predicate Paced(c: Config, st: FlowState, served: real, t: real)
    requires ValidFlow(c.topo, st.flow)
  {
    forall l {:trigger PacedOn(c, st, served, t, l)} | l in st.flow.route :: PacedOn(c, st, served, t, l)
  }

  ghost predicate StaticOk(c: Config, st: FlowState, f: FlowId)
    requires ValidConfig(c)
  {
    && st.flow.id == f && ValidFlow(c.topo, st.flow)
    && st.resources == ResourcesOf(c.topo, st.flow)
    && st.release == st.flow.earliest + RouteLatency(c.topo, st.flow.route)
  }

  /** What a completed flow received, and how soon it can have finished. */
  ghost predicate FinishedOk(c: Config, st: FlowState, finish: real, served: real)
    requires ValidFlow(c.topo, st.flow)
  {
    && st.finish == Some(finish) && st.firstService.Some?
    && st.release <= finish + c.epsTime
    && (st.flow.nbytes as real <= c.epsBytes || st.resources == {} ||
         (st.flow.nbytes as real - c.epsBytes <= served && Paced(c, st, served, finish)))
  }

  ghost predicate StatusOk(c: Config, n: Net, f: FlowId)
    requires f in n.states && f in n.served && ValidFlow(c.topo, n.states[f].flow)
  {
    var st := n.states[f];
    match st.status
    case Pending =>
      && f !in n.active && f !in n.results
      && st.remaining == st.flow.nbytes as real && n.served[f] == 0.0
    case Active =>
      && f in n.active && f !in n.results
      && st.resources != {} && st.release <= n.now + c.epsTime
      && st.remaining >= 0.0 && st.flow.nbytes as real <= n.served[f] + st.remaining
      && (st.remaining > 0.0 ==> st.flow.nbytes as real == n.served[f] + st.remaining)
      && Paced(c, st, n.served[f], n.now)
    case Complete =>
      && f !in n.active && f in n.results
      && n.results[f] <= n.now + c.epsTime
      && FinishedOk(c, st, n.results[f], n.served[f])
  }

  ghost predicate FlowOk(c: Config, n: Net, f: FlowId)
    requires ValidConfig(c) && f in n.states && f in n.served
  {
    StaticOk(c, n.states[f], f) && StatusOk(c, n, f)
  }

  /** Each flow is where its status says, with the service it has received. */
  ghost predicate FlowsOk(c: Config, n: Net)
    requires ValidConfig(c)
  {
    && n.active <= n.states.Keys && n.results.Keys <= n.states.Keys && n.served.Keys == n.states.Keys
    && forall f {:trigger FlowOk(c, n, f)} | f in n.states.Keys :: FlowOk(c, n, f)
  }

  /** n and n' agree on g. */
  predicate SameFor(n: Net, n': Net, g: FlowId)
    requires g in n.states && g in n'.states && g in n.served
  {
    && n'.states[g] == n.states[g] && n'.now == n.now
    && g in n'.served && n'.served[g] == n.served[g]
    && (g in n'.active <==> g in n.active)
    && (g in n'.results <==> g in n.results)
    && (g in n.results ==> n'.results[g] == n.results[g])
  }

  lemma FlowUntouched(c: Config, n: Net, n': Net, g: FlowId)
    requires ValidConfig(c) && g in n.states && g in n.served && g in n'.states
    requires FlowOk(c, n, g) && SameFor(n, n', g)
    ensures FlowOk(c, n', g)
  {
  }

  /** What completing f at time t takes for the network to stay consistent. */
  ghost predicate CanComplete(c: Config, n: Net, f: FlowId, t: real)
    requires f in n.states && f in n.served
  {
    var st := n.states[f];
    && t <= n.now + c.epsTime && st.release <= t + c.epsTime
    && (st.flow.nbytes as real <= c.epsBytes || st.resources == {} ||
         (ValidFlow(c.topo, st.flow) && st.flow.nbytes as real - c.epsBytes <= n.served[f] && Paced(c, st, n.served[f], t)))
  }

  lemma PacedTransfers(c: Config, st: FlowState, st': FlowState, served: real, t: real)
    requires ValidFlow(c.topo, st.flow) && Paced(c, st, served, t)
    requires st'.flow == st.flow && st'.release == st.release
    ensures Paced(c, st', served, t)
  {
    forall l | l in st'.flow.route
      ensures PacedOn(c, st', served, t, l)
    {
      assert PacedOn(c, st, served, t, l);
    }
  }

  lemma CompletedOk(c: Config, n: Net, f: FlowId, t: real)
    requires ValidConfig(c) && f in n.states && f in n.served && f !in n.results
    requires FlowOk(c, n, f) && CanComplete(c, n, f, t)
    ensures FlowOk(c, CompleteFlow(n, f, t), f)
  {
    var n' := CompleteFlow(n, f, t);
    var st, st' := n.states[f], n'.states[f];
    if Paced(c, st, n.served[f], t) {
      PacedTransfers(c, st, st', n.served[f], t);
    }
    assert FinishedOk(c, st', t, n.served[f]);
    assert StaticOk(c, st', f);
  }

  /** Completing a flow whose service adds up keeps the network consistent. */
  lemma CompleteKeepsFlows(c: Config, n: Net, f: FlowId, t: real)
    requires ValidConfig(c) && FlowsOk(c, n) && f in n.states.Keys && f !in n.results
    requires CanComplete(c, n, f, t)
    ensures FlowsOk(c, CompleteFlow(n, f, t))
  {
    var n' := CompleteFlow(n, f, t);
    assert FlowOk(c, n, f);
    CompletedOk(c, n, f, t);
    forall g | g in n'.states.Keys && g != f
      ensures FlowOk(c, n', g)
    {
      assert FlowOk(c, n, g);
      FlowUntouched(c, n, n', g);
    }
  }

  lemma StartKeepsFlows(c: Config, n: Net, f: FlowId, n': Net)
    requires ValidConfig(c) && FlowsOk(c, n) && f in n.states.Keys && Due(c, n, f) && n.states[f].resources != {}
    requires n' == n.(states := n.states[f := n.states[f].(status := Active)], active := n.active + {f}, inflight := n'.inflight)
    ensures FlowsOk(c, n')
  {
    assert FlowOk(c, n, f);
    StartPaced(c, n'.states[f], n.now);
    assert StaticOk(c, n'.states[f], f);
    assert FlowOk(c, n', f);
    forall g | g in n'.states.Keys && g != f
      ensures FlowOk(c, n', g)
    {
      assert FlowOk(c, n, g);
      FlowUntouched(c, n, n', g);
    }
  }

  lemma AdmitKeepsFlows(c: Config, n: Net, f: FlowId)
    requires ValidConfig(c) && FlowsOk(c, n) && f in n.states.Keys
    ensures FlowsOk(c, Admit(c, n, f))
  {
    assert FlowOk(c, n, f);
    var st := n.states[f];
    if Due(c, n, f) {
      if Instant(c, st) {
        CompleteKeepsFlows(c, n, f, Max(n.now, st.release));
      } else if !Blocked(c.topo, n.inflight, st.flow.route) {
        StartKeepsFlows(c, n, f, Admit(c, n, f));
      }
    }
  }

  lemma StartPaced(c: Config, st: FlowState, t: real)
    requires ValidConfig(c) && ValidFlow(c.topo, st.flow) && st.release <= t + c.epsTime
    ensures Paced(c, st, 0.0, t)
  {
    forall l | l in st.flow.route
      ensures PacedOn(c, st, 0.0, t, l)
    {
      NonNegativeProduct(c.topo.links[l].effective, t + c.epsTime - st.release);
    }
  }

  lemma NonNegativeProduct(x: real, y: real)
    requires x >= 0.0 && y >= 0.0
    ensures x * y >= 0.0
  {}

  lemma {:induction false} AdmitAllKeepsFlows(c: Config, n: Net, ids: seq<FlowId>)
    requires ValidConfig(c) && FlowsOk(c, n) && forall f | f in ids :: f in n.states.Keys
    ensures FlowsOk(c, AdmitAll(c, n, ids))
    decreases ids
  {
    if ids != [] {
      AdmitKeepsFlows(c, n, ids[0]);
      AdmitAllKeepsFlows(c, Admit(c, n, ids[0]), ids[1..]);
    }
  }

  // ----- admission settles in one pass -----

  /** A due flow that is still waiting is waiting for a slot. */
  predicate WaitsForSlot(c: Config, n: Net, f: FlowId)
    requires f in n.states
  {
    Due(c, n, f) ==> !Instant(c, n.states[f]) && Blocked(c.topo, n.inflight, n.states[f].flow.route)
  }

  ghost predicate Settled(c: Config, n: Net) {
    forall f {:trigger WaitsForSlot(c, n, f)} | f in n.states.Keys :: WaitsForSlot(c, n, f)
  }

  /** During a pass the only changes are admissions: slots are taken, never
      freed, and no flow goes back to waiting. */
  ghost predicate OnlyAdmits(n: Net, n': Net) {
    && n'.states.Keys == n.states.Keys && n'.now == n.now
    && n.inflight.Keys == n'.inflight.Keys
    && (forall l | l in n.inflight.Keys :: n.inflight[l] <= n'.inflight[l])
    && (forall f | f in n.states.Keys && n'.states[f].status.Pending? :: n'.states[f] == n.states[f])
  }

  lemma AdmitOnlyAdmits(c: Config, n: Net, f: FlowId)
    requires f in n.states.Keys
    ensures OnlyAdmits(n, Admit(c, n, f))
    ensures f !in n.results ==> WaitsForSlot(c, Admit(c, n, f), f)
  {
  }

  lemma StillWaits(c: Config, n: Net, n': Net, f: FlowId)
    requires f in n.states.Keys && OnlyAdmits(n, n') && WaitsForSlot(c, n, f)
    ensures WaitsForSlot(c, n', f)
  {
    if Due(c, n', f) {
      var l :| l in n.states[f].flow.route && Limited(c.topo, l) && l in n.inflight.Keys && n.inflight[l] >= c.topo.links[l].maxInflight.value;
      assert n'.inflight[l] >= c.topo.links[l].maxInflight.value;
    }
  }

  lemma {:induction false} AdmitAllSettles(c: Config, n: Net, ids: seq<FlowId>)
    requires ValidConfig(c) && FlowsOk(c, n) && forall f | f in ids :: f in n.states.Keys
    ensures OnlyAdmits(n, AdmitAll(c, n, ids))
    ensures forall f | f in ids :: WaitsForSlot(c, AdmitAll(c, n, ids), f)
    decreases ids
  {
    if ids != [] {
      var n1 := Admit(c, n, ids[0]);
      AdmitOnlyAdmits(c, n, ids[0]);
      assert FlowOk(c, n, ids[0]);
      AdmitKeepsFlows(c, n, ids[0]);
      AdmitAllSettles(c, n1, ids[1..]);
      StillWaits(c, n1, AdmitAll(c, n1, ids[1..]), ids[0]);
    }
  }

  lemma ActivateDueSettles(c: Config, n: Net)
    requires ValidConfig(c) && FlowsOk(c, n)
    ensures FlowsOk(c, ActivateDue(c, n)) && Settled(c, ActivateDue(c, n)) && OnlyAdmits(n, ActivateDue(c, n))
  {
    AdmitAllKeepsFlows(c, n, AdmissionOrder(n));
    AdmitAllSettles(c, n, AdmissionOrder(n));
  }

  lemma {:induction false} AdmitAllOfSettled(c: Config, n: Net, ids: seq<FlowId>)
    requires Settled(c, n) && forall f | f in ids :: f in n.states.Keys
    ensures AdmitAll(c, n, ids) == n
    decreases ids
  {
    if ids != [] {
      assert WaitsForSlot(c, n, ids[0]);
      AdmitAllOfSettled(c, n, ids[1..]);
    }
  }

  /** A second activation pass at the same time changes nothing. */
  lemma ActivateDueIsIdempotent(c: Config, n: Net)
    requires ValidConfig(c) && FlowsOk(c, n)
    ensures ActivateDue(c, ActivateDue(c, n)) == ActivateDue(c, n)
  {
    ActivateDueSettles(c, n);
    AdmitAllOfSettled(c, ActivateDue(c, n), AdmissionOrder(ActivateDue(c, n)));
  }
}
