/** Replaying a payload over a multicast tree on the fluid network. */
module Multicasts {
  import opened Basics
  import opened NetTopology
  import opened NetModel
  import opened NetEvents
  import opened NetService
  import opened NetStarts
  import opened FluidNetworks
  import opened MulticastTree
  import opened MulticastReplays

  /** `launch`: send the payload over one link, unless it was sent. */
  method Launch(net: FluidNetwork, tree: Tree, l: LinkId, nbytes: nat, release: real, ghost start: real,
                ghost finish: map<EndpointId, real>, ghost done: set<LinkId>)
    requires Live(net.c, tree, net.Snapshot(), nbytes) && Playing(net.c, tree, net.Snapshot(), nbytes, start, finish, done)
    requires l in tree.links && net.now <= release
    requires IsRelease(net.c.topo, tree, net.results, start, l, release) && FedBy(net.c.topo, tree, done, l)
    requires AsForeseen(net.c, tree, nbytes, start, net.now, l, release)
    modifies net
    ensures Live(net.c, tree, net.Snapshot(), nbytes) && Playing(net.c, tree, net.Snapshot(), nbytes, start, finish, done)
    ensures net.now == old(net.now) && net.states.Keys == old(net.states.Keys) + {l}
    ensures forall k | k in old(net.results) :: k in net.results && net.results[k] == old(net.results)[k]
    ensures Passes(net.c, tree, nbytes, start, l) ==> net.results == old(net.results)
    ensures Remaining(net.c, tree, net.Snapshot()) <= old(Remaining(net.c, tree, net.Snapshot()))
  {
    if l in net.states { return; }
    ghost var n := net.Snapshot();
    LiveLaunch(net.c, tree, n, nbytes, l, release);
    LaunchPlays(net.c, tree, n, AddFlow(net.c, n, LinkFlow(net.c.topo, l, nbytes, release)), nbytes, start, finish, done, l, release);
    var error := net.Add(LinkFlow(net.c.topo, l, nbytes, release));
    if error.Some? {
      assert false;
    }
  }

  /** Launch several links. */
  method LaunchAll(net: FluidNetwork, tree: Tree, ls: set<LinkId>, nbytes: nat, release: real, ghost start: real,
                   ghost finish: map<EndpointId, real>, ghost done: set<LinkId>)
    requires Live(net.c, tree, net.Snapshot(), nbytes) && Playing(net.c, tree, net.Snapshot(), nbytes, start, finish, done)
    requires ls <= tree.links && net.now <= release
    requires forall l | l in ls :: IsRelease(net.c.topo, tree, net.results, start, l, release) && FedBy(net.c.topo, tree, done, l)
    requires forall l | l in ls :: AsForeseen(net.c, tree, nbytes, start, net.now, l, release)
    modifies net
    ensures Live(net.c, tree, net.Snapshot(), nbytes) && Playing(net.c, tree, net.Snapshot(), nbytes, start, finish, done)
    ensures net.now == old(net.now) && net.states.Keys == old(net.states.Keys) + ls
    ensures forall k | k in old(net.results) :: k in net.results && net.results[k] == old(net.results)[k]
    ensures AllPass(net.c, tree, nbytes, start) ==> net.results == old(net.results)
    ensures Remaining(net.c, tree, net.Snapshot()) <= old(Remaining(net.c, tree, net.Snapshot()))
  {
    var ids := InOrder(ls, Zeroes(ls));
    var i := 0;
    while i < |ids|
      invariant 0 <= i <= |ids| && Live(net.c, tree, net.Snapshot(), nbytes)
      invariant Playing(net.c, tree, net.Snapshot(), nbytes, start, finish, done)
      invariant net.now == old(net.now) && net.states.Keys == old(net.states.Keys) + ElementSet(ids[..i])
      invariant forall k | k in old(net.results) :: k in net.results && net.results[k] == old(net.results)[k]
      invariant AllPass(net.c, tree, nbytes, start) ==> net.results == old(net.results)
      invariant Remaining(net.c, tree, net.Snapshot()) <= old(Remaining(net.c, tree, net.Snapshot()))
    {
      assert ids[i] in ids;
      NextElement(ids, i);
      ghost var sent := net.states.Keys;
      ghost var passes := Passes(net.c, tree, nbytes, start, ids[i]);
      Launch(net, tree, ids[i], nbytes, release, start, finish, done);
      assert net.states.Keys == sent + {ids[i]};
      i := i + 1;
    }
    assert ids[..i] == ids;
    ListsSet(ids, ls);
  }

  /** Children of a link that has just delivered can be launched. */
  lemma ChildrenFollow(c: Config, tree: Tree, n: Net, nbytes: nat, start: real, done: set<LinkId>, p: LinkId, l: LinkId)
    requires IsTree(c.topo, tree) && p in tree.links && p in n.results && l in tree.children[p] && n.now <= n.results[p] <= n.now + c.epsTime
    ensures l in tree.links && IsRelease(c.topo, tree, n.results, start, l, n.results[p]) && FedBy(c.topo, tree, done + {p}, l)
    ensures AsForeseen(c, tree, nbytes, start, n.now, l, n.results[p])
  {
    ChildRelease(c.topo, tree, n.results, start, p, l);
    ChildForeseen(c, tree, nbytes, start, n.now, l, n.results[p]);
  }

  /** A link has delivered: note the endpoint it reaches and go on from there. */
  method Deliver(net: FluidNetwork, tree: Tree, l: LinkId, nbytes: nat, finish: map<EndpointId, real>, ghost done: set<LinkId>, ghost start: real)
    returns (finish': map<EndpointId, real>)
    requires Live(net.c, tree, net.Snapshot(), nbytes) && Playing(net.c, tree, net.Snapshot(), nbytes, start, finish, done)
    requires IsTree(net.c.topo, tree) && ChildrenSent(tree, done, net.states.Keys) && l in tree.links && !Swallows(net.c, tree, nbytes, start, l)
    requires l in net.results && net.now <= net.results[l] <= net.now + net.c.epsTime
    modifies net
    ensures Live(net.c, tree, net.Snapshot(), nbytes) && Playing(net.c, tree, net.Snapshot(), nbytes, start, finish', done + {l})
    ensures ChildrenSent(tree, done + {l}, net.states.Keys) && net.now == old(net.now) && old(net.states.Keys) <= net.states.Keys
    ensures forall k | k in old(net.results) :: k in net.results && net.results[k] == old(net.results)[k]
    ensures AllPass(net.c, tree, nbytes, start) ==> net.results == old(net.results)
    ensures Remaining(net.c, tree, net.Snapshot()) <= old(Remaining(net.c, tree, net.Snapshot()))
  {
    ghost var n := net.Snapshot();
    var e := To(net.c.topo, l);
    finish' := if e in tree.destinations then finish[e := net.results[l]] else finish;
    NotePlays(net.c, tree, n, nbytes, start, finish, done, l);
    assert BranchesAt(net.c.topo, tree, l);
    forall k | k in tree.children[l]
      ensures k in tree.links && IsRelease(net.c.topo, tree, net.results, start, k, net.results[l]) && FedBy(net.c.topo, tree, done + {l}, k)
      ensures AsForeseen(net.c, tree, nbytes, start, net.now, k, net.results[l])
    {
      ChildrenFollow(net.c, tree, n, nbytes, start, done, l, k);
    }
    LaunchAll(net, tree, tree.children[l], nbytes, net.results[l], start, finish', done + {l});
    ChildrenAdded(tree, done, n.states.Keys, net.states.Keys, l);
  }

  lemma ChildrenAdded(tree: Tree, done: set<LinkId>, sent: set<LinkId>, sent': set<LinkId>, l: LinkId)
    requires ChildrenSent(tree, done, sent) && sent <= sent' && (l in tree.children ==> tree.children[l] <= sent')
    ensures ChildrenSent(tree, done + {l}, sent')
  {
    forall p | p in done + {l} && p in tree.children
      ensures tree.children[p] <= sent'
    {
      assert p in done ==> tree.children[p] <= sent;
    }
  }

  /** Deliver everything that completed at an event. */
  method DeliverAll(net: FluidNetwork, tree: Tree, nbytes: nat, ls: seq<LinkId>, finish: map<EndpointId, real>, ghost done: set<LinkId>, ghost start: real)
    returns (finish': map<EndpointId, real>)
    requires Live(net.c, tree, net.Snapshot(), nbytes) && Playing(net.c, tree, net.Snapshot(), nbytes, start, finish, done)
    requires IsTree(net.c.topo, tree) && ChildrenSent(tree, done, net.states.Keys)
    requires forall l | l in ls :: l in tree.links && !Swallows(net.c, tree, nbytes, start, l)
    requires forall l | l in ls :: l in net.results && net.now <= net.results[l] <= net.now + net.c.epsTime
    modifies net
    ensures Live(net.c, tree, net.Snapshot(), nbytes) && Playing(net.c, tree, net.Snapshot(), nbytes, start, finish', done + ElementSet(ls))
    ensures ChildrenSent(tree, done + ElementSet(ls), net.states.Keys) && old(net.states.Keys) <= net.states.Keys
    ensures AllPass(net.c, tree, nbytes, start) ==> net.results == old(net.results)
    ensures Remaining(net.c, tree, net.Snapshot()) <= old(Remaining(net.c, tree, net.Snapshot()))
  {
    finish' := finish;
    var i := 0;
    assert done + ElementSet(ls[..0]) == done;
    while i < |ls|
      invariant 0 <= i <= |ls| && Live(net.c, tree, net.Snapshot(), nbytes)
      invariant Playing(net.c, tree, net.Snapshot(), nbytes, start, finish', done + ElementSet(ls[..i]))
      invariant ChildrenSent(tree, done + ElementSet(ls[..i]), net.states.Keys)
      invariant net.now == old(net.now) && old(net.states.Keys) <= net.states.Keys
      invariant forall k | k in old(net.results) :: k in net.results && net.results[k] == old(net.results)[k]
      invariant AllPass(net.c, tree, nbytes, start) ==> net.results == old(net.results)
      invariant Remaining(net.c, tree, net.Snapshot()) <= old(Remaining(net.c, tree, net.Snapshot()))
    {
      assert ls[i] in ls;
      NextElement(ls, i);
      assert done + ElementSet(ls[..i + 1]) == done + ElementSet(ls[..i]) + {ls[i]};
      finish' := Deliver(net, tree, ls[i], nbytes, finish', done + ElementSet(ls[..i]), start);
      i := i + 1;
    }
    assert ls[..i] == ls;
  }

  lemma NewPass(c: Config, tree: Tree, n: Net, nbytes: nat, start: real, finish: map<EndpointId, real>, done: set<LinkId>, ls: seq<LinkId>)
    requires Live(c, tree, n, nbytes) && Playing(c, tree, n, nbytes, start, finish, done)
    requires forall l | l in ls :: l in n.states && l !in n.results
    ensures forall l | l in ls :: l in tree.links && !Swallows(c, tree, nbytes, start, l)
  {
    forall l | l in ls
      ensures l in tree.links && !Swallows(c, tree, nbytes, start, l)
    {
      ResultIsLink(c, tree, n, nbytes, l);
      UnderWayPasses(c, tree, n, nbytes, start, finish, done, l);
    }
  }

  /** Everything that completed was seen to deliver, if every link passes. */
  ghost predicate AllSeen(c: Config, tree: Tree, n: Net, nbytes: nat, start: real, done: set<LinkId>) {
    AllPass(c, tree, nbytes, start) ==> n.results.Keys <= done
  }

  /** One event: everything that has just delivered is passed on. */
  method Event(net: FluidNetwork, tree: Tree, nbytes: nat, finish: map<EndpointId, real>, ghost done: set<LinkId>, ghost start: real)
    returns (finish': map<EndpointId, real>, ghost done': set<LinkId>)
    requires Live(net.c, tree, net.Snapshot(), nbytes) && Playing(net.c, tree, net.Snapshot(), nbytes, start, finish, done)
    requires IsTree(net.c.topo, tree) && ChildrenSent(tree, done, net.states.Keys) && net.results.Keys != net.states.Keys
    requires AllSeen(net.c, tree, net.Snapshot(), nbytes, start, done)
    modifies net
    ensures Live(net.c, tree, net.Snapshot(), nbytes) && Playing(net.c, tree, net.Snapshot(), nbytes, start, finish', done')
    ensures ChildrenSent(tree, done', net.states.Keys) && old(net.states.Keys) <= net.states.Keys
    ensures AllSeen(net.c, tree, net.Snapshot(), nbytes, start, done')
    ensures Remaining(net.c, tree, net.Snapshot()) < old(Remaining(net.c, tree, net.Snapshot()))
  {
    ghost var n := net.Snapshot();
    ghost var t := LiveEvent(net.c, tree, n, nbytes);
    var next := net.NextEventTime();
    if next.None? {
      assert false;  // no deadlock
    }
    var r := net.AdvanceTo(next.value);
    assert r.Ok?;
    MovePlays(net.c, tree, n, net.Snapshot(), nbytes, start, finish, done);
    LiveResults(net.c, tree, net.Snapshot(), nbytes);
    NewPass(net.c, tree, n, nbytes, start, finish, done, r.value);
    done' := done + ElementSet(r.value);
    finish' := DeliverAll(net, tree, nbytes, r.value, finish, done, start);
  }

  lemma LiveResults(c: Config, tree: Tree, n: Net, nbytes: nat)
    requires Live(c, tree, n, nbytes)
    ensures n.results.Keys <= n.states.Keys
  {
    assert Ready(c, tree, n, nbytes);
  }

  lemma ReplayStarts(c: Config, tree: Tree, n: Net, nbytes: nat, start: real, finish: map<EndpointId, real>)
    requires ValidConfig(c) && IsTree(c.topo, tree) && ValidEnds(c.topo, tree) && start >= 0.0 && n == EmptyNet(c.topo)
    requires finish == map d | d in tree.destinations && d == tree.source :: start
    ensures Live(c, tree, n, nbytes) && Playing(c, tree, n, nbytes, start, finish, {})
    ensures forall l | l in tree.roots ::
      && l in tree.links && IsRelease(c.topo, tree, n.results, start, l, start) && FedBy(c.topo, tree, {}, l)
      && AsForeseen(c, tree, nbytes, start, n.now, l, start)
  {
    EmptyIsValid(c);
    assert Ready(c, tree, n, nbytes);
    forall l | l in tree.roots
      ensures AsForeseen(c, tree, nbytes, start, n.now, l, start)
    {
      RootForeseen(c, tree, nbytes, start, l);
    }
  }

  /** What a replay leaves: the payload has crossed every link it was launched
      over once, each as soon as the link before it had delivered. */
  ghost predicate IsReplay(c: Config, tree: Tree, n: Net, nbytes: nat, start: real, finish: map<EndpointId, real>) {
    && n.results.Keys == n.states.Keys <= tree.links && Carries(c.topo, tree, n, nbytes)
    && (forall l | l in c.topo.links :: l in n.linkBytes && n.linkBytes[l] == if l in n.states then nbytes else 0)
    && Punctual(c.topo, tree, n, start) && FinishTimes(tree, finish, n.results, start) && finish.Keys <= tree.destinations
  }

  lemma ReplayEnds(c: Config, tree: Tree, n: Net, nbytes: nat, start: real, finish: map<EndpointId, real>, done: set<LinkId>)
    requires Live(c, tree, n, nbytes) && Playing(c, tree, n, nbytes, start, finish, done) && n.results.Keys == n.states.Keys
    ensures IsReplay(c, tree, n, nbytes, start, finish)
  {
    assert Ready(c, tree, n, nbytes);
    forall l | l in n.states.Keys
      ensures l in tree.links
    {
      assert OwnFlow(c.topo, tree, n, nbytes, l);
    }
    forall l | l in c.topo.links
      ensures l in n.linkBytes && n.linkBytes[l] == if l in n.states then nbytes else 0
    {
      PayloadBytes(c, tree, n, nbytes, l);
    }
  }

  /** A replay in which every link passes the payload on reaches all. */
  lemma ReplayReaches(c: Config, tree: Tree, n: Net, nbytes: nat, start: real, finish: map<EndpointId, real>, done: set<LinkId>)
    requires Live(c, tree, n, nbytes) && Playing(c, tree, n, nbytes, start, finish, done) && n.results.Keys == n.states.Keys
    requires IsTree(c.topo, tree) && AllChained(c.topo, tree) && tree.roots <= n.states.Keys && ChildrenSent(tree, done, n.states.Keys)
    requires n.results.Keys <= done && forall d | d in tree.destinations :: d == tree.source || d in tree.parent
    ensures n.states.Keys == tree.links && finish.Keys == tree.destinations
  {
    assert done == n.states.Keys;
    WholeTreeSent(c, tree, n, nbytes);
    AllReached(c.topo, tree, finish);
  }

  /** Whether the payload reaches all, or a link swallows it. */
  lemma ReplayDecides(c: Config, tree: Tree, n: Net, nbytes: nat, start: real, finish: map<EndpointId, real>, done: set<LinkId>)
    requires Live(c, tree, n, nbytes) && Playing(c, tree, n, nbytes, start, finish, done) && n.results.Keys == n.states.Keys
    requires IsTree(c.topo, tree) && ValidEnds(c.topo, tree) && AllChained(c.topo, tree) && AllUsed(c.topo, tree)
    requires tree.roots <= n.states.Keys && ChildrenSent(tree, done, n.states.Keys) && AllSeen(c, tree, n, nbytes, start, done)
    requires forall d | d in tree.destinations :: d == tree.source || d in tree.parent
    ensures ValidNet(c, n) && NoOverrun(n)
    ensures AllPass(c, tree, nbytes, start) ==> n.states.Keys == tree.links && finish.Keys == tree.destinations
    ensures SomeSwallows(c, tree, nbytes, start) ==> finish.Keys != tree.destinations
    ensures c.epsTime == 0.0 ==> (AllPass(c, tree, nbytes, start) <==> !SomeSwallows(c, tree, nbytes, start))
  {
    assert Ready(c, tree, n, nbytes);
    if AllPass(c, tree, nbytes, start) { ReplayReaches(c, tree, n, nbytes, start, finish, done); }
    if SomeSwallows(c, tree, nbytes, start) { SwallowedIsLost(c, tree, n, nbytes, start, finish, done); }
    if c.epsTime == 0.0 { PassesOrSwallows(c, tree, nbytes, start); }
  }

  /** `simulate_multicast` after the tree is built: the error for a deadlock is
      unreachable. The one for an unreached destination is not: every
      destination is reached if every link passes the payload on, and not if
      some link swallows it. */
  method Replay(topo: Topology, tree: Tree, nbytes: nat, start: real, epsTime: real, epsBytes: real)
    returns (net: FluidNetwork, finish: map<EndpointId, real>, reached: bool)
    requires ValidTopology(topo) && epsTime >= 0.0 && epsBytes >= 0.0 && start >= 0.0
    requires IsTree(topo, tree) && ValidEnds(topo, tree) && AllChained(topo, tree) && AllUsed(topo, tree)
    requires forall d | d in tree.destinations :: d == tree.source || d in tree.parent
    ensures fresh(net) && net.Valid() && net.c.topo == topo && net.c.epsTime == epsTime && net.c.epsBytes == epsBytes
    ensures IsReplay(net.c, tree, net.Snapshot(), nbytes, start, finish) && (reached <==> finish.Keys == tree.destinations)
    ensures AllPass(net.c, tree, nbytes, start) ==> reached && net.states.Keys == tree.links
    ensures SomeSwallows(net.c, tree, nbytes, start) ==> !reached
    ensures epsTime == 0.0 ==> (reached <==> AllPass(net.c, tree, nbytes, start))
  {
    net := new FluidNetwork(topo, epsTime, epsBytes);
    finish := map d | d in tree.destinations && d == tree.source :: start;
    ghost var done: set<LinkId> := {};
    ReplayStarts(net.c, tree, net.Snapshot(), nbytes, start, finish);
    LaunchAll(net, tree, tree.roots, nbytes, start, start, finish, done);
    while net.results.Keys != net.states.Keys
      invariant Live(net.c, tree, net.Snapshot(), nbytes) && Playing(net.c, tree, net.Snapshot(), nbytes, start, finish, done)
      invariant ChildrenSent(tree, done, net.states.Keys) && tree.roots <= net.states.Keys
      invariant AllSeen(net.c, tree, net.Snapshot(), nbytes, start, done)
      decreases Remaining(net.c, tree, net.Snapshot())
    {
      finish, done := Event(net, tree, nbytes, finish, done, start);
    }
    ReplayEnds(net.c, tree, net.Snapshot(), nbytes, start, finish, done);
    ReplayDecides(net.c, tree, net.Snapshot(), nbytes, start, finish, done);
    reached := finish.Keys == tree.destinations;
  }

  /** Every link joins two known endpoints. */
  ghost predicate LinksJoinEndpoints(topo: Topology) {
    forall l | l in topo.links.Keys :: topo.links[l].src in topo.endpoints && topo.links[l].dst in topo.endpoints
  }

  /** What a tree built from routes promises a replay. */
  lemma TreeIsReplayable(topo: Topology, tree: Tree, routes: Routes, ds: seq<EndpointId>)
    requires LinksJoinEndpoints(topo) && IsTree(topo, tree) && ValidRoutes(topo, tree.source, tree.destinations, routes)
    requires tree.links == Union(routes, ds) && forall d :: d in ds <==> d in tree.destinations
    ensures ValidEnds(topo, tree) && AllChained(topo, tree) && AllUsed(topo, tree)
    ensures forall d | d in tree.destinations :: d == tree.source || d in tree.parent
  {
    RoutesChainAll(topo, tree, routes, ds);
    RoutesUseAll(topo, tree, routes, ds);
    forall l | l in tree.links
      ensures l in topo.links && topo.links[l].src in topo.endpoints && topo.links[l].dst in topo.endpoints
    {
      assert Attached(topo, tree, l);
    }
    forall d | d in tree.destinations
      ensures d == tree.source || d in tree.parent
    {
      assert RouteOk(topo, tree.source, routes, d);
      if routes[d] != [] {
        var last := routes[d][|routes[d]| - 1];
        assert last in routes[d];
        InUnion(routes, ds, last);
        assert EnteredBy(topo, tree.parent, last);
      }
    }
  }

  /** The outcome of `simulate_multicast`; `reached` is false when it reports an
      unreached destination. */
  datatype Outcome = Outcome(tree: Tree, finish: map<EndpointId, real>, reached: bool)

  ghost predicate Simulated(c: Config, n: Net, nbytes: nat, start: real, o: Outcome) {
    && IsTree(c.topo, o.tree) && IsReplay(c, o.tree, n, nbytes, start, o.finish)
    && (o.reached <==> o.finish.Keys == o.tree.destinations)
    && (AllPass(c, o.tree, nbytes, start) ==> o.reached && n.states.Keys == o.tree.links)
    && (SomeSwallows(c, o.tree, nbytes, start) ==> !o.reached)
    && (c.epsTime == 0.0 ==> (o.reached <==> AllPass(c, o.tree, nbytes, start)))
  }

  /** Building the tree and replaying a payload over it: if the routes form a
      tree at all, every destination is served over its own chain of links. */
  method Simulate(topo: Topology, source: EndpointId, destinations: set<EndpointId>, routes: Routes, nbytes: nat, start: real,
                  epsTime: real, epsBytes: real)
    returns (r: Result<Outcome, TreeError>, net: FluidNetwork?)
    requires ValidTopology(topo) && LinksJoinEndpoints(topo) && ValidRoutes(topo, source, destinations, routes)
    requires epsTime >= 0.0 && epsBytes >= 0.0 && start >= 0.0
    ensures var union := Union(routes, InOrder(destinations, Zeroes(destinations)));
      && (r.Ok? <==> destinations != {} && source in topo.endpoints && destinations <= topo.endpoints.Keys && !HasClash(topo, union))
      && (r.Ok? ==> r.value.tree.source == source && r.value.tree.destinations == destinations && r.value.tree.links == union)
    ensures r.Ok? ==> net != null && fresh(net) && net.Valid() && net.c.topo == topo && net.c.epsTime == epsTime && net.c.epsBytes == epsBytes
    ensures r.Ok? ==> Simulated(net.c, net.Snapshot(), nbytes, start, r.value)
    ensures r.Ok? ==> forall d | d in destinations :: d in routes && Chain(topo, r.value.tree, routes[d], d)
  {
    net := null;
    var built := BuildTree(topo, source, destinations, routes);
    match built
    case Err(e) => r := Err(e);
    case Ok(tree) =>
      ghost var ds := InOrder(destinations, Zeroes(destinations));
      TreeIsReplayable(topo, tree, routes, ds);
      forall d | d in destinations
        ensures d in routes && Chain(topo, tree, routes[d], d)
      {
        DestinationsReached(topo, tree, routes, ds, d);
      }
      var finish, reached;
      net, finish, reached := Replay(topo, tree, nbytes, start, epsTime, epsBytes);
      r := Ok(Outcome(tree, finish, reached));
  }
}
