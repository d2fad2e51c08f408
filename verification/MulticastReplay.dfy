/** A payload on its way through a multicast tree. */
module MulticastReplays {
  import opened Basics
  import opened Sums
  import opened FairShare
  import opened NetTopology
  import opened NetModel
  import opened NetCounters
  import opened NetAdvance
  import opened NetEvents
  import opened NetRuns
  import opened NetService
  import opened FluidNetworks
  import opened MulticastTree

  /** The transfer over one tree link. */
  function LinkFlow(topo: Topology, l: LinkId, nbytes: nat, release: real): Flow {
    Flow(l, From(topo, l), To(topo, l), nbytes, release, [l])
  }

  predicate OwnFlow(topo: Topology, tree: Tree, n: Net, nbytes: nat, l: LinkId) {
    && l in n.states && l in tree.links
    && n.states[l].flow == LinkFlow(topo, l, nbytes, n.states[l].flow.earliest)
  }

  /** The network carries the payload over links of the tree, and nothing else. */
  ghost predicate Carries(topo: Topology, tree: Tree, n: Net, nbytes: nat) {
    forall l {:trigger OwnFlow(topo, tree, n, nbytes, l)} | l in n.states.Keys :: OwnFlow(topo, tree, n, nbytes, l)
  }

  ghost predicate ValidEnds(topo: Topology, tree: Tree) {
    forall l {:trigger l in tree.links} | l in tree.links ::
      l in topo.links && topo.links[l].src in topo.endpoints && topo.links[l].dst in topo.endpoints
  }

  /** The state of a replay between events. */
  ghost predicate Ready(c: Config, tree: Tree, n: Net, nbytes: nat) {
    ValidNet(c, n) && NoOverrun(n) && Carries(c.topo, tree, n, nbytes) && ValidEnds(c.topo, tree) && 0.0 <= n.now
  }

  /** `Ready`, to be opened by naming it. */
  ghost predicate Live(c: Config, tree: Tree, n: Net, nbytes: nat) {
    forall m {:trigger Ready(c, tree, m, nbytes)} | m == n :: Ready(c, tree, m, nbytes)
  }

  lemma AdvanceCarries(c: Config, tree: Tree, n: Net, nbytes: nat, n': Net)
    requires Forward(n, n') && Carries(c.topo, tree, n, nbytes)
    ensures Carries(c.topo, tree, n', nbytes)
  {
    forall l | l in n'.states.Keys
      ensures OwnFlow(c.topo, tree, n', nbytes, l)
    {
      assert OwnFlow(c.topo, tree, n, nbytes, l);
    }
  }

  // ----- bytes -----

  /** A launched link carries the whole payload, from its start to its end. */
  lemma PayloadFlow(topo: Topology, tree: Tree, n: Net, nbytes: nat, l: LinkId)
    requires Carries(topo, tree, n, nbytes) && l in n.states && l in topo.links
    ensures var flow := n.states[l].flow;
      && flow.src == topo.links[l].src && flow.dst == topo.links[l].dst && flow.nbytes == nbytes
      && flow.route == [l] && l in tree.links
  {
    assert OwnFlow(topo, tree, n, nbytes, l);
  }

  /** Each launched link carries the payload once, every other link nothing. */
  lemma PayloadBytes(c: Config, tree: Tree, n: Net, nbytes: nat, l: LinkId)
    requires ValidNet(c, n) && Carries(c.topo, tree, n, nbytes) && l in n.linkBytes
    ensures n.linkBytes[l] == if l in n.states then nbytes else 0
  {
    var t := Traffic(n.states, l);
    assert n.linkBytes[l] as real == Carried(n, l);
    forall f | f in t.Keys
      ensures t[f] == if f == l then nbytes as real else 0.0
    {
      assert OwnFlow(c.topo, tree, n, nbytes, f);
      OneCrossing(f, l, nbytes as real);
    }
    if l in n.states {
      SumRemove(t, l);
      SumZero(t - {l});
    } else {
      SumZero(t);
    }
  }

  lemma OneCrossing(f: LinkId, l: LinkId, d: real)
    ensures Repeated(Occurrences([f], l), d) == if f == l then d else 0.0
  {
    assert [f][1..] == [];
    assert Occurrences([f], l) == if f == l then 1 else 0;
    assert Repeated(0, d) == 0.0;
    if f == l { assert Repeated(1, d) == Repeated(0, d) + d; }
  }

  // ----- launching -----

  /** A payload launched over l completes at once: there is nothing to send,
      and it is due with the delay of the link. */
  predicate EndsAtOnce(c: Config, l: LinkId, nbytes: nat, now: real, release: real) {
    l in c.topo.links && nbytes as real <= c.epsBytes && release + c.topo.links[l].latency <= now + c.epsTime
  }

  lemma LinkFlowCosts(c: Config, l: LinkId, nbytes: nat, release: real)
    requires ValidTopology(c.topo) && ValidFlow(c.topo, LinkFlow(c.topo, l, nbytes, release))
    ensures l in c.topo.links
    ensures var st := NewState(c.topo, LinkFlow(c.topo, l, nbytes, release));
      st.release == release + c.topo.links[l].latency && (Instant(c, st) <==> nbytes as real <= c.epsBytes)
  {
    assert l in [l] && [l][1..] == [];
    assert RouteLatency(c.topo, [l]) == c.topo.links[l].latency;
    assert LinkResource(c.topo, l) in ResourcesOf(c.topo, LinkFlow(c.topo, l, nbytes, release));
  }

  /** n' is n with one more flow, and perhaps its result. */
  ghost predicate Launched(n: Net, n': Net, l: LinkId, flow: Flow) {
    && n'.now == n.now && n'.states.Keys == n.states.Keys + {l} && n'.states[l].flow == flow
    && (forall f | f in n.states.Keys :: n'.states[f].flow == n.states[f].flow)
    && (forall f | f in n.results.Keys :: f in n'.results.Keys && n'.results[f] == n.results[f])
  }

  lemma LaunchResults(c: Config, n: Net, nbytes: nat, l: LinkId, release: real)
    requires ValidNet(c, n) && l !in n.states && ValidFlow(c.topo, LinkFlow(c.topo, l, nbytes, release))
    ensures var results := AddFlow(c, n, LinkFlow(c.topo, l, nbytes, release)).results;
      if EndsAtOnce(c, l, nbytes, n.now, release) then l in results else results == n.results
  {
    AddAdmitsOne(c, n, LinkFlow(c.topo, l, nbytes, release));
    LinkFlowCosts(c, l, nbytes, release);
  }

  lemma LaunchCarries(topo: Topology, tree: Tree, n: Net, n': Net, nbytes: nat, l: LinkId, release: real)
    requires Carries(topo, tree, n, nbytes) && l in tree.links && Launched(n, n', l, LinkFlow(topo, l, nbytes, release))
    ensures Carries(topo, tree, n', nbytes)
  {
    forall k | k in n'.states.Keys
      ensures OwnFlow(topo, tree, n', nbytes, k)
    {
      if k != l { assert OwnFlow(topo, tree, n, nbytes, k); }
    }
  }

  // ----- what is left -----

  function Unsent(tree: Tree, sent: set<LinkId>): set<LinkId> {
    tree.links - sent
  }

  ghost predicate IsRemaining(c: Config, tree: Tree, n: Net, w: nat) {
    forall s {:trigger Unsent(tree, s)} | s == n.states.Keys :: w == Work(c, n) + 2 * |Unsent(tree, s)|
  }

  lemma RemainingExists(c: Config, tree: Tree, n: Net)
    ensures exists w :: IsRemaining(c, tree, n, w)
  {
    assert IsRemaining(c, tree, n, Work(c, n) + 2 * |Unsent(tree, n.states.Keys)|);
  }

  /** Network events still to come, and two for every link still to launch. */
  ghost function Remaining(c: Config, tree: Tree, n: Net): (w: nat)
    ensures IsRemaining(c, tree, n, w)
  {
    RemainingExists(c, tree, n);
    var w :| IsRemaining(c, tree, n, w);
    w
  }

  lemma FewerLeft(tree: Tree, sent: set<LinkId>, l: LinkId)
    requires l in tree.links && l !in sent
    ensures |Unsent(tree, sent + {l})| == |Unsent(tree, sent)| - 1
  {
    assert Unsent(tree, sent) == Unsent(tree, sent + {l}) + {l};
  }

  lemma LessRemaining(c: Config, tree: Tree, n: Net, n': Net)
    requires n'.states.Keys == n.states.Keys && Work(c, n') < Work(c, n)
    ensures Remaining(c, tree, n') < Remaining(c, tree, n)
  {
    assert Remaining(c, tree, n) == Work(c, n) + 2 * |Unsent(tree, n.states.Keys)|;
  }

  lemma LaunchExtends(c: Config, n: Net, flow: Flow)
    requires ValidNet(c, n) && NoOverrun(n) && ValidFlow(c.topo, flow) && flow.id !in n.states
    ensures var n' := AddFlow(c, n, flow);
      ValidNet(c, n') && NoOverrun(n') && Launched(n, n', flow.id, flow) && Work(c, n') <= Work(c, n) + 2
  {
    AddFlowKeeps(c, n, flow);
    AddFlowExtends(c, n, flow);
  }

  lemma LiveLaunch(c: Config, tree: Tree, n: Net, nbytes: nat, l: LinkId, release: real)
    requires Live(c, tree, n, nbytes) && l in tree.links && l !in n.states && n.now <= release
    ensures ValidNet(c, n) && NoOverrun(n) && ValidFlow(c.topo, LinkFlow(c.topo, l, nbytes, release)) && c.epsTime >= 0.0
    ensures var n' := AddFlow(c, n, LinkFlow(c.topo, l, nbytes, release));
      && Live(c, tree, n', nbytes) && Launched(n, n', l, LinkFlow(c.topo, l, nbytes, release))
      && Remaining(c, tree, n') <= Remaining(c, tree, n)
      && if EndsAtOnce(c, l, nbytes, n.now, release) then l in n'.results else n'.results == n.results
  {
    assert Ready(c, tree, n, nbytes);
    var flow := LinkFlow(c.topo, l, nbytes, release);
    var n' := AddFlow(c, n, flow);
    LaunchResults(c, n, nbytes, l, release);
    LaunchExtends(c, n, flow);
    LaunchCarries(c.topo, tree, n, n', nbytes, l, release);
    FewerLeft(tree, n.states.Keys, l);
    assert Ready(c, tree, n', nbytes);
  }

  /** Going to the next event keeps the replay going and spends the event. */
  lemma LiveEvent(c: Config, tree: Tree, n: Net, nbytes: nat) returns (t: real)
    requires Live(c, tree, n, nbytes) && n.results.Keys != n.states.Keys
    ensures ValidNet(c, n) && NoOverrun(n) && NextEvent(c, n) == Some(t) && StopsAtEvent(c, n, t) && c.epsTime >= 0.0
    ensures var n' := Advance(c, n, t);
      && Live(c, tree, n', nbytes) && Moves(n, n')
      && (forall f | f in n'.results.Keys && f !in n.results.Keys :: n'.now <= n'.results[f] <= n'.now + c.epsTime)
      && Remaining(c, tree, n') < Remaining(c, tree, n)
  {
    assert Ready(c, tree, n, nbytes);
    t := RunStep(c, n);
    NextEventIsLater(c, n);
    AdvanceKeeps(c, n, t);
    AdvanceNoOverrun(c, n, t);
    RunStepWork(c, n, t, Advance(c, n, t));
    LessRemaining(c, tree, n, Advance(c, n, t));
    AdvanceCarries(c, tree, n, nbytes, Advance(c, n, t));
    assert Ready(c, tree, Advance(c, n, t), nbytes);
  }

  lemma ResultIsLink(c: Config, tree: Tree, n: Net, nbytes: nat, l: LinkId)
    requires Live(c, tree, n, nbytes) && l in n.states
    ensures l in tree.links && l in c.topo.links
  {
    assert Ready(c, tree, n, nbytes);
    assert OwnFlow(c.topo, tree, n, nbytes, l);
  }

  // ----- when the payload is passed on -----

  /** When link l may start: at once from the source, otherwise when the link
      before it has delivered. */
  predicate IsRelease(topo: Topology, tree: Tree, results: map<FlowId, real>, start: real, l: LinkId, t: real) {
    var e := From(topo, l);
    if e == tree.source then t == start
    else e in tree.parent && tree.parent[e] in results && t == results[tree.parent[e]]
  }

  predicate OnTime(topo: Topology, tree: Tree, n: Net, start: real, l: LinkId) {
    l in n.states && IsRelease(topo, tree, n.results, start, l, n.states[l].flow.earliest)
  }

  ghost predicate Punctual(topo: Topology, tree: Tree, n: Net, start: real) {
    forall l {:trigger OnTime(topo, tree, n, start, l)} | l in n.states.Keys :: OnTime(topo, tree, n, start, l)
  }

  /** Nothing is launched, and what is known stays. */
  ghost predicate Moves(n: Net, n': Net) {
    && n'.states.Keys == n.states.Keys
    && (forall l | l in n.states.Keys :: n'.states[l].flow == n.states[l].flow)
    && (forall l | l in n.results.Keys :: l in n'.results.Keys && n'.results[l] == n.results[l])
  }

  lemma StaysPunctual(topo: Topology, tree: Tree, n: Net, n': Net, start: real)
    requires Punctual(topo, tree, n, start) && Moves(n, n')
    ensures Punctual(topo, tree, n', start)
  {
    forall l | l in n'.states.Keys
      ensures OnTime(topo, tree, n', start, l)
    {
      assert OnTime(topo, tree, n, start, l);
    }
  }

  lemma LaunchIsPunctual(topo: Topology, tree: Tree, n: Net, n': Net, start: real, l: LinkId, flow: Flow)
    requires Punctual(topo, tree, n, start) && Launched(n, n', l, flow) && IsRelease(topo, tree, n.results, start, l, flow.earliest)
    requires l !in n.states
    ensures Punctual(topo, tree, n', start)
  {
    forall k | k in n'.states.Keys
      ensures OnTime(topo, tree, n', start, k)
    {
      if k != l { assert OnTime(topo, tree, n, start, k); }
    }
  }

  /** The finish noted for d is that of the link that enters it. */
  predicate FinishAt(tree: Tree, finish: map<EndpointId, real>, results: map<FlowId, real>, start: real, d: EndpointId) {
    d in finish && if d == tree.source then finish[d] == start
      else d in tree.parent && tree.parent[d] in results && finish[d] == results[tree.parent[d]]
  }

  ghost predicate FinishTimes(tree: Tree, finish: map<EndpointId, real>, results: map<FlowId, real>, start: real) {
    forall d {:trigger FinishAt(tree, finish, results, start, d)} | d in finish.Keys :: FinishAt(tree, finish, results, start, d)
  }

  lemma FinishStays(tree: Tree, finish: map<EndpointId, real>, results: map<FlowId, real>, results': map<FlowId, real>, start: real)
    requires FinishTimes(tree, finish, results, start)
    requires forall l | l in results.Keys :: l in results' && results'[l] == results[l]
    ensures FinishTimes(tree, finish, results', start)
  {
    forall d | d in finish.Keys
      ensures FinishAt(tree, finish, results', start, d)
    {
      assert FinishAt(tree, finish, results, start, d);
    }
  }

  /** What a delivery over l notes. */
  function Noted(topo: Topology, tree: Tree, finish: map<EndpointId, real>, l: LinkId, t: real): map<EndpointId, real> {
    if To(topo, l) in tree.destinations then finish[To(topo, l) := t] else finish
  }

  lemma FinishNoted(topo: Topology, tree: Tree, finish: map<EndpointId, real>, results: map<FlowId, real>, start: real, l: LinkId)
    requires IsTree(topo, tree) && l in tree.links && l in results && FinishTimes(tree, finish, results, start)
    ensures FinishTimes(tree, Noted(topo, tree, finish, l, results[l]), results, start)
  {
    assert Attached(topo, tree, l) && EnteredBy(topo, tree.parent, l);
    var finish' := Noted(topo, tree, finish, l, results[l]);
    forall d | d in finish'.Keys
      ensures FinishAt(tree, finish', results, start, d)
    {
      if d != To(topo, l) || finish' == finish { assert FinishAt(tree, finish, results, start, d); }
    }
  }

  /** The children of a link start when it has delivered. */
  lemma ChildRelease(topo: Topology, tree: Tree, results: map<FlowId, real>, start: real, p: LinkId, l: LinkId)
    requires IsTree(topo, tree) && p in tree.links && p in results && l in tree.children[p]
    ensures IsRelease(topo, tree, results, start, l, results[p]) && FedBy(topo, tree, {p}, l)
    ensures From(topo, l) != tree.source && l in tree.links
  {
    assert BranchesAt(topo, tree, p) && EnteredBy(topo, tree.parent, p);
  }

  // ----- links that have delivered -----

  /** The children of every link that has delivered are launched. */
  ghost predicate ChildrenSent(tree: Tree, done: set<LinkId>, sent: set<LinkId>) {
    forall p {:trigger p in done} | p in done && p in tree.children :: tree.children[p] <= sent
  }

  ghost predicate FinishOk(topo: Topology, tree: Tree, finish: map<EndpointId, real>, done: set<LinkId>) {
    forall d {:trigger d in finish} :: d in finish <==> d in tree.destinations && (d == tree.source || exists l :: l in done && To(topo, l) == d)
  }

  lemma MoreFinished(topo: Topology, tree: Tree, finish: map<EndpointId, real>, done: set<LinkId>, l: LinkId, t: real)
    requires FinishOk(topo, tree, finish, done)
    ensures FinishOk(topo, tree, Noted(topo, tree, finish, l, t), done + {l})
  {
    var finish' := Noted(topo, tree, finish, l, t);
    forall d: EndpointId
      ensures d in finish' <==> d in tree.destinations && (d == tree.source || exists k :: k in done + {l} && To(topo, k) == d)
    {
      assert d in finish <==> d in tree.destinations && (d == tree.source || exists k :: k in done && To(topo, k) == d);
      if d in tree.destinations && d == To(topo, l) { assert l in done + {l}; }
    }
  }

  /** l leaves the source, or an endpoint that a link of `done` has reached. */
  predicate FedBy(topo: Topology, tree: Tree, done: set<LinkId>, l: LinkId) {
    From(topo, l) == tree.source || (From(topo, l) in tree.parent && tree.parent[From(topo, l)] in done)
  }

  ghost predicate AllFed(topo: Topology, tree: Tree, done: set<LinkId>, sent: set<LinkId>) {
    forall l {:trigger FedBy(topo, tree, done, l)} | l in sent :: FedBy(topo, tree, done, l)
  }

  lemma MoreFed(topo: Topology, tree: Tree, done: set<LinkId>, more: set<LinkId>, sent: set<LinkId>)
    requires AllFed(topo, tree, done, sent) && done <= more
    ensures AllFed(topo, tree, more, sent)
  {
    forall l | l in sent
      ensures FedBy(topo, tree, more, l)
    {
      assert FedBy(topo, tree, done, l);
    }
  }

  // ----- links that swallow an empty payload -----

  /** There is nothing to send over l and no delay, so it is complete when
      launched and is never seen to deliver. */
  predicate Swallows(c: Config, tree: Tree, nbytes: nat, start: real, l: LinkId) {
    && l in c.topo.links && nbytes as real <= c.epsBytes
    && if From(c.topo, l) == tree.source then start + c.topo.links[l].latency <= c.epsTime else c.topo.links[l].latency == 0.0
  }

  /** There is something to send over l, or enough delay. */
  predicate Passes(c: Config, tree: Tree, nbytes: nat, start: real, l: LinkId) {
    && l in c.topo.links
    && (nbytes as real > c.epsBytes ||
         (if From(c.topo, l) == tree.source then start else 0.0) + c.topo.links[l].latency > c.epsTime)
  }

  ghost predicate AllPass(c: Config, tree: Tree, nbytes: nat, start: real) {
    forall l {:trigger Passes(c, tree, nbytes, start, l)} | l in tree.links :: Passes(c, tree, nbytes, start, l)
  }

  ghost predicate SomeSwallows(c: Config, tree: Tree, nbytes: nat, start: real) {
    exists l {:trigger Swallows(c, tree, nbytes, start, l)} :: l in tree.links && Swallows(c, tree, nbytes, start, l)
  }

  /** Without a tolerance in time there is no third case. */
  lemma PassesOrSwallows(c: Config, tree: Tree, nbytes: nat, start: real)
    requires ValidTopology(c.topo) && ValidEnds(c.topo, tree) && c.epsTime == 0.0
    ensures AllPass(c, tree, nbytes, start) <==> !SomeSwallows(c, tree, nbytes, start)
  {
    forall l | l in tree.links
      ensures Passes(c, tree, nbytes, start, l) <==> !Swallows(c, tree, nbytes, start, l)
    {
    }
    if !AllPass(c, tree, nbytes, start) {
      var l :| l in tree.links && !Passes(c, tree, nbytes, start, l);
      assert Swallows(c, tree, nbytes, start, l);
    }
  }

  /** Launching over l now swallows or passes the payload as foreseen. */
  predicate AsForeseen(c: Config, tree: Tree, nbytes: nat, start: real, now: real, l: LinkId, release: real) {
    && (Swallows(c, tree, nbytes, start, l) ==> EndsAtOnce(c, l, nbytes, now, release))
    && (Passes(c, tree, nbytes, start, l) ==> !EndsAtOnce(c, l, nbytes, now, release))
  }

  lemma RootForeseen(c: Config, tree: Tree, nbytes: nat, start: real, l: LinkId)
    requires From(c.topo, l) == tree.source
    ensures AsForeseen(c, tree, nbytes, start, 0.0, l, start)
  {
  }

  lemma ChildForeseen(c: Config, tree: Tree, nbytes: nat, start: real, now: real, l: LinkId, release: real)
    requires From(c.topo, l) != tree.source && now <= release <= now + c.epsTime
    ensures AsForeseen(c, tree, nbytes, start, now, l, release)
  {
  }

  /** A link that swallows is complete once launched, and never delivers. */
  predicate HeldAt(c: Config, tree: Tree, n: Net, nbytes: nat, start: real, done: set<LinkId>, l: LinkId) {
    Swallows(c, tree, nbytes, start, l) ==> l !in done && (l in n.states ==> l in n.results)
  }

  ghost predicate Held(c: Config, tree: Tree, n: Net, nbytes: nat, start: real, done: set<LinkId>) {
    forall l {:trigger HeldAt(c, tree, n, nbytes, start, done, l)} | l in tree.links :: HeldAt(c, tree, n, nbytes, start, done, l)
  }

  // ----- the replay as a whole -----

  /** `done` are the links that have delivered: what was noted and launched
      follows from them. */
  ghost predicate Playing(c: Config, tree: Tree, n: Net, nbytes: nat, start: real, finish: map<EndpointId, real>, done: set<LinkId>) {
    && Punctual(c.topo, tree, n, start) && FinishTimes(tree, finish, n.results, start) && FinishOk(c.topo, tree, finish, done)
    && AllFed(c.topo, tree, done, n.states.Keys) && Held(c, tree, n, nbytes, start, done) && done <= n.results.Keys
  }

  lemma LaunchPlays(c: Config, tree: Tree, n: Net, n': Net, nbytes: nat, start: real, finish: map<EndpointId, real>, done: set<LinkId>,
                    l: LinkId, release: real)
    requires Playing(c, tree, n, nbytes, start, finish, done) && l !in n.states
    requires Launched(n, n', l, LinkFlow(c.topo, l, nbytes, release))
    requires IsRelease(c.topo, tree, n.results, start, l, release) && FedBy(c.topo, tree, done, l)
    requires Swallows(c, tree, nbytes, start, l) ==> l in n'.results
    ensures Playing(c, tree, n', nbytes, start, finish, done)
  {
    LaunchIsPunctual(c.topo, tree, n, n', start, l, LinkFlow(c.topo, l, nbytes, release));
    FinishStays(tree, finish, n.results, n'.results, start);
    forall k | k in n'.states.Keys
      ensures FedBy(c.topo, tree, done, k)
    {
    }
    forall k | k in tree.links
      ensures HeldAt(c, tree, n', nbytes, start, done, k)
    {
      assert HeldAt(c, tree, n, nbytes, start, done, k);
    }
  }

  lemma MovePlays(c: Config, tree: Tree, n: Net, n': Net, nbytes: nat, start: real, finish: map<EndpointId, real>, done: set<LinkId>)
    requires Playing(c, tree, n, nbytes, start, finish, done) && Moves(n, n')
    ensures Playing(c, tree, n', nbytes, start, finish, done)
  {
    StaysPunctual(c.topo, tree, n, n', start);
    FinishStays(tree, finish, n.results, n'.results, start);
    forall k | k in tree.links
      ensures HeldAt(c, tree, n', nbytes, start, done, k)
    {
      assert HeldAt(c, tree, n, nbytes, start, done, k);
    }
  }

  /** A delivery over l is noted. */
  lemma NotePlays(c: Config, tree: Tree, n: Net, nbytes: nat, start: real, finish: map<EndpointId, real>, done: set<LinkId>, l: LinkId)
    requires Playing(c, tree, n, nbytes, start, finish, done) && IsTree(c.topo, tree)
    requires l in tree.links && l in n.results && !Swallows(c, tree, nbytes, start, l)
    ensures Playing(c, tree, n, nbytes, start, Noted(c.topo, tree, finish, l, n.results[l]), done + {l})
  {
    FinishNoted(c.topo, tree, finish, n.results, start, l);
    MoreFinished(c.topo, tree, finish, done, l, n.results[l]);
    MoreFed(c.topo, tree, done, done + {l}, n.states.Keys);
    forall k | k in tree.links
      ensures HeldAt(c, tree, n, nbytes, start, done + {l}, k)
    {
      assert HeldAt(c, tree, n, nbytes, start, done, k);
    }
  }

  /** What is still under way is not swallowed. */
  lemma UnderWayPasses(c: Config, tree: Tree, n: Net, nbytes: nat, start: real, finish: map<EndpointId, real>, done: set<LinkId>, l: LinkId)
    requires Playing(c, tree, n, nbytes, start, finish, done) && l in tree.links && l in n.states && l !in n.results
    ensures !Swallows(c, tree, nbytes, start, l)
  {
    assert HeldAt(c, tree, n, nbytes, start, done, l);
  }

  // ----- the end of the replay -----

  /** Every link lies on the chain of a destination. */
  ghost predicate Leads(topo: Topology, tree: Tree, l: LinkId, d: EndpointId, q: seq<LinkId>) {
    d in tree.destinations && Chain(topo, tree, q, d) && l in q
  }

  ghost predicate IsUsed(topo: Topology, tree: Tree, l: LinkId) {
    exists d, q {:trigger Leads(topo, tree, l, d, q)} :: Leads(topo, tree, l, d, q)
  }

  ghost predicate AllUsed(topo: Topology, tree: Tree) {
    forall l {:trigger IsUsed(topo, tree, l)} | l in tree.links :: IsUsed(topo, tree, l)
  }

  lemma RoutesUseAll(topo: Topology, tree: Tree, routes: Routes, ds: seq<EndpointId>)
    requires IsTree(topo, tree) && ValidRoutes(topo, tree.source, tree.destinations, routes)
    requires tree.links == Union(routes, ds) && forall d | d in ds :: d in tree.destinations
    ensures AllUsed(topo, tree)
  {
    forall l | l in tree.links
      ensures IsUsed(topo, tree, l)
    {
      InUnion(routes, ds, l);
      var d :| d in ds && d in routes && l in routes[d];
      DestinationsReached(topo, tree, routes, ds, d);
      assert Leads(topo, tree, l, d, routes[d]);
    }
  }

  /** Only deliveries along its whole chain reach an endpoint. */
  lemma {:induction false} ChainIsDone(topo: Topology, tree: Tree, done: set<LinkId>, sent: set<LinkId>, q: seq<LinkId>, e: EndpointId)
    requires IsTree(topo, tree) && AllFed(topo, tree, done, sent) && done <= sent && done <= tree.links
    requires Chain(topo, tree, q, e) && (e == tree.source || (e in tree.parent && tree.parent[e] in done))
    ensures forall l | l in q :: l in done
    decreases |q|
  {
    if q != [] {
      var rest, l := q[..|q| - 1], q[|q| - 1];
      assert Attached(topo, tree, l) && EnteredBy(topo, tree.parent, l);
      assert FedBy(topo, tree, done, l);
      ChainIsDone(topo, tree, done, sent, rest, From(topo, l));
      assert q == rest + [l];
    }
  }

  /** A link that swallows the payload keeps it from some destination. */
  lemma SwallowedIsLost(c: Config, tree: Tree, n: Net, nbytes: nat, start: real, finish: map<EndpointId, real>, done: set<LinkId>)
    requires IsTree(c.topo, tree) && AllUsed(c.topo, tree) && Live(c, tree, n, nbytes) && Playing(c, tree, n, nbytes, start, finish, done)
    requires SomeSwallows(c, tree, nbytes, start)
    ensures finish.Keys != tree.destinations
  {
    var l :| l in tree.links && Swallows(c, tree, nbytes, start, l);
    assert HeldAt(c, tree, n, nbytes, start, done, l) && IsUsed(c.topo, tree, l);
    var d, q :| Leads(c.topo, tree, l, d, q);
    DoneIsSent(c, tree, n, nbytes, done);
    if d in finish {
      ReachedByParent(c.topo, tree, finish, done, d);
      ChainIsDone(c.topo, tree, done, n.states.Keys, q, d);
    }
  }

  lemma DoneIsSent(c: Config, tree: Tree, n: Net, nbytes: nat, done: set<LinkId>)
    requires Live(c, tree, n, nbytes) && done <= n.results.Keys
    ensures done <= n.states.Keys && done <= tree.links
  {
    assert Ready(c, tree, n, nbytes);
    forall l | l in done
      ensures l in n.states && l in tree.links
    {
      assert OwnFlow(c.topo, tree, n, nbytes, l);
    }
  }

  lemma ReachedByParent(topo: Topology, tree: Tree, finish: map<EndpointId, real>, done: set<LinkId>, d: EndpointId)
    requires IsTree(topo, tree) && FinishOk(topo, tree, finish, done) && done <= tree.links && d in finish
    ensures d == tree.source || (d in tree.parent && tree.parent[d] in done)
  {
    if d != tree.source {
      var k :| k in done && To(topo, k) == d;
      assert EnteredBy(topo, tree.parent, k);
    }
  }

  lemma WholeTreeSent(c: Config, tree: Tree, n: Net, nbytes: nat)
    requires IsTree(c.topo, tree) && AllChained(c.topo, tree) && Live(c, tree, n, nbytes)
    requires n.results.Keys == n.states.Keys && tree.roots <= n.states.Keys && ChildrenSent(tree, n.results.Keys, n.states.Keys)
    ensures n.states.Keys == tree.links
  {
    assert Ready(c, tree, n, nbytes);
    ClosedIsWhole(c.topo, tree, n.states.Keys);
    forall l | l in n.states.Keys
      ensures l in tree.links
    {
      assert OwnFlow(c.topo, tree, n, nbytes, l);
    }
  }

  lemma AllReached(topo: Topology, tree: Tree, finish: map<EndpointId, real>)
    requires IsTree(topo, tree) && FinishOk(topo, tree, finish, tree.links)
    requires forall d | d in tree.destinations :: d == tree.source || d in tree.parent
    ensures finish.Keys == tree.destinations
  {
    forall d | d in tree.destinations
      ensures d in finish
    {
      if d != tree.source {
        assert Enters(topo, tree.links, tree.parent, d);
      }
    }
    assert forall d | d in finish :: d in tree.destinations;
  }
}
