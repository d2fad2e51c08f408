/** Multicast trees: the union of shortest paths to several destinations. */
module MulticastTree {
  import opened Basics
  import opened FairShare
  import opened NetTopology

  type Routes = map<EndpointId, seq<LinkId>>

  datatype Tree = Tree(
    source: EndpointId,
    destinations: set<EndpointId>,
    links: set<LinkId>,
    parent: map<EndpointId, LinkId>,
    roots: set<LinkId>,
    children: map<LinkId, set<LinkId>>)

  // ----- paths -----

  function From(topo: Topology, l: LinkId): EndpointId {
    if l in topo.links then topo.links[l].src else 0
  }

  function To(topo: Topology, l: LinkId): EndpointId {
    if l in topo.links then topo.links[l].dst else 0
  }

  /** Link i continues the path from s, and does not come back to s. */
  predicate StepAt(topo: Topology, s: EndpointId, route: seq<LinkId>, i: nat) {
    && i < |route| && route[i] in topo.links && To(topo, route[i]) != s
    && From(topo, route[i]) == if i == 0 then s else To(topo, route[i - 1])
  }

  /** A directed path from s to d. */
  ghost predicate IsPath(topo: Topology, s: EndpointId, route: seq<LinkId>, d: EndpointId) {
    && (forall i: nat {:trigger StepAt(topo, s, route, i)} | i < |route| :: StepAt(topo, s, route, i))
    && d == if route == [] then s else To(topo, route[|route| - 1])
  }

  ghost predicate RouteOk(topo: Topology, s: EndpointId, routes: Routes, d: EndpointId) {
    d in routes && IsPath(topo, s, routes[d], d)
  }

  ghost predicate ValidRoutes(topo: Topology, s: EndpointId, destinations: set<EndpointId>, routes: Routes) {
    forall d {:trigger RouteOk(topo, s, routes, d)} | d in destinations :: RouteOk(topo, s, routes, d)
  }

  /** All links of the routes to the given destinations. */
  function Union(routes: Routes, ds: seq<EndpointId>): set<LinkId> {
    if ds == [] then {} else
    Union(routes, ds[..|ds| - 1]) + (if ds[|ds| - 1] in routes then ElementSet(routes[ds[|ds| - 1]]) else {})
  }

  lemma {:induction false} InUnion(routes: Routes, ds: seq<EndpointId>, l: LinkId)
    ensures l in Union(routes, ds) <==> exists d :: d in ds && d in routes && l in routes[d]
  {
    if ds != [] {
      var rest, last := ds[..|ds| - 1], ds[|ds| - 1];
      InUnion(routes, rest, l);
      assert ds == rest + [last];
      if l in Union(routes, ds) && l !in Union(routes, rest) {
        assert last in ds && last in routes && l in routes[last];
      }
    }
  }

  // ----- collecting the links -----

  /** Each endpoint is entered by the link its parent says. */
  predicate EnteredBy(topo: Topology, parent: map<EndpointId, LinkId>, l: LinkId) {
    To(topo, l) in parent && parent[To(topo, l)] == l
  }

  predicate Enters(topo: Topology, links: set<LinkId>, parent: map<EndpointId, LinkId>, e: EndpointId) {
    e in parent && parent[e] in links && To(topo, parent[e]) == e
  }

  ghost predicate ParentsOk(topo: Topology, links: set<LinkId>, parent: map<EndpointId, LinkId>) {
    && (forall l {:trigger EnteredBy(topo, parent, l)} | l in links :: EnteredBy(topo, parent, l))
    && (forall e {:trigger Enters(topo, links, parent, e)} | e in parent.Keys :: Enters(topo, links, parent, e))
  }

  /** Two links of the set end at one endpoint. */
  predicate Clashes(topo: Topology, k: LinkId, l: LinkId) {
    k != l && To(topo, k) == To(topo, l)
  }

  ghost predicate HasClash(topo: Topology, links: set<LinkId>) {
    exists k, l {:trigger Clashes(topo, k, l)} :: k in links && l in links && Clashes(topo, k, l)
  }

  lemma NoClash(topo: Topology, links: set<LinkId>, parent: map<EndpointId, LinkId>)
    requires ParentsOk(topo, links, parent)
    ensures !HasClash(topo, links)
  {
    forall k, l | k in links && l in links
      ensures !Clashes(topo, k, l)
    {
      assert EnteredBy(topo, parent, k) && EnteredBy(topo, parent, l);
    }
  }

  lemma AddsParent(topo: Topology, links: set<LinkId>, parent: map<EndpointId, LinkId>, l: LinkId)
    requires ParentsOk(topo, links, parent) && (To(topo, l) in parent ==> parent[To(topo, l)] == l)
    ensures ParentsOk(topo, links + {l}, parent[To(topo, l) := l])
  {
    var parent' := parent[To(topo, l) := l];
    forall k | k in links + {l}
      ensures EnteredBy(topo, parent', k)
    {
      if k in links { assert EnteredBy(topo, parent, k); }
    }
    forall e | e in parent'.Keys
      ensures Enters(topo, links + {l}, parent', e)
    {
      if e in parent.Keys { assert Enters(topo, links, parent, e); }
    }
  }

  datatype TreeError = NoDestination | UnknownSource | UnknownDestination | NotATree | Disconnected

  /** Add the links of one route, unless one enters an endpoint that another
      link of the tree already enters. */
  method AddRoute(topo: Topology, route: seq<LinkId>, links: set<LinkId>, parent: map<EndpointId, LinkId>)
    returns (ok: bool, links': set<LinkId>, parent': map<EndpointId, LinkId>)
    requires ParentsOk(topo, links, parent) && forall i {:trigger route[i]} | 0 <= i < |route| :: route[i] in topo.links
    ensures ok ==> links' == links + ElementSet(route) && ParentsOk(topo, links', parent')
    ensures !ok ==> HasClash(topo, links + ElementSet(route))
  {
    links', parent', ok := links, parent, true;
    var i := 0;
    while i < |route|
      invariant 0 <= i <= |route| && links' == links + ElementSet(route[..i]) && ParentsOk(topo, links', parent') && ok
    {
      var l := route[i];
      var e := topo.links[l].dst;
      NextElement(route, i);
      if e in parent' && parent'[e] != l {
        assert Enters(topo, links', parent', e) && Clashes(topo, parent'[e], l);
        return false, links', parent';
      }
      AddsParent(topo, links', parent', l);
      parent' := parent'[e := l];
      links' := links' + {l};
      i := i + 1;
    }
    assert route[..i] == route;
  }

  // ----- the tree -----

  /** Every link of the tree starts at the source or where its parent ends. */
  predicate Attached(topo: Topology, tree: Tree, l: LinkId) {
    && l in topo.links && To(topo, l) != tree.source
    && (From(topo, l) != tree.source ==> From(topo, l) in tree.parent)
  }

  ghost predicate BranchesAt(topo: Topology, tree: Tree, p: LinkId) {
    p in tree.children && forall l :: l in tree.children[p] <==> l in tree.links && From(topo, l) != tree.source && From(topo, l) == To(topo, p)
  }

  /** What building promises: one link into every endpoint reached, none into
      the source; roots leave the source and children leave their parent. */
  ghost predicate IsTree(topo: Topology, tree: Tree) {
    && ParentsOk(topo, tree.links, tree.parent)
    && (forall l {:trigger Attached(topo, tree, l)} | l in tree.links :: Attached(topo, tree, l))
    && (forall l {:trigger l in tree.roots} :: l in tree.roots <==> l in tree.links && From(topo, l) == tree.source)
    && tree.children.Keys == tree.links
    && (forall p {:trigger BranchesAt(topo, tree, p)} | p in tree.links :: BranchesAt(topo, tree, p))
  }

  lemma UnionIsAttached(topo: Topology, s: EndpointId, destinations: set<EndpointId>, routes: Routes, ds: seq<EndpointId>, tree: Tree)
    requires ValidRoutes(topo, s, destinations, routes) && tree.source == s && tree.links == Union(routes, ds)
    requires (forall d | d in ds :: d in destinations) && ParentsOk(topo, tree.links, tree.parent)
    ensures forall l {:trigger Attached(topo, tree, l)} | l in tree.links :: Attached(topo, tree, l)
  {
    forall l | l in tree.links
      ensures Attached(topo, tree, l)
    {
      InUnion(routes, ds, l);
      var d :| d in ds && d in routes && l in routes[d];
      assert RouteOk(topo, s, routes, d);
      var i: nat :| i < |routes[d]| && routes[d][i] == l;
      assert StepAt(topo, s, routes[d], i);
      if i > 0 {
        var k := routes[d][i - 1];
        assert k in routes[d];
        InUnion(routes, ds, k);
        assert EnteredBy(topo, tree.parent, k);
      }
    }
  }

  /** `build_multicast_tree`: succeeds exactly when no two links of the routes
      end at one endpoint; then nothing is disconnected. */
  method BuildTree(topo: Topology, source: EndpointId, destinations: set<EndpointId>, routes: Routes)
    returns (r: Result<Tree, TreeError>)
    requires ValidRoutes(topo, source, destinations, routes)
    ensures destinations == {} ==> r == Err(NoDestination)
    ensures destinations != {} && source !in topo.endpoints ==> r == Err(UnknownSource)
    ensures destinations != {} && source in topo.endpoints && !(destinations <= topo.endpoints.Keys) ==> r == Err(UnknownDestination)
    ensures destinations != {} && source in topo.endpoints && destinations <= topo.endpoints.Keys ==>
      var union := Union(routes, InOrder(destinations, Zeroes(destinations)));
      && (r.Err? ==> r.error == NotATree && HasClash(topo, union))
      && (r.Ok? ==> !HasClash(topo, union) && IsTree(topo, r.value) && r.value.links == union)
      && (r.Ok? ==> r.value.source == source && r.value.destinations == destinations)
  {
    if destinations == {} { return Err(NoDestination); }
    if source !in topo.endpoints { return Err(UnknownSource); }
    if !(destinations <= topo.endpoints.Keys) { return Err(UnknownDestination); }
    var ds := InOrder(destinations, Zeroes(destinations));
    var ok, links, parent := JoinRoutes(topo, source, destinations, routes, ds);
    if !ok { return Err(NotATree); }
    NoClash(topo, links, parent);
    var tree := Tree(source, destinations, links, parent, {}, map[]);
    UnionIsAttached(topo, source, destinations, routes, ds, tree);
    var connected := true;
    connected, tree := Attach(topo, tree);
    if !connected {
      assert false;  // no edge of the union is disconnected
    }
    r := Ok(tree);
  }

  /** The union of the routes, one after the other. */
  method JoinRoutes(topo: Topology, source: EndpointId, destinations: set<EndpointId>, routes: Routes, ds: seq<EndpointId>)
    returns (ok: bool, links: set<LinkId>, parent: map<EndpointId, LinkId>)
    requires ValidRoutes(topo, source, destinations, routes) && forall d | d in ds :: d in destinations
    ensures ok ==> links == Union(routes, ds) && ParentsOk(topo, links, parent)
    ensures !ok ==> HasClash(topo, Union(routes, ds))
  {
    links, parent := {}, map[];
    var n := 0;
    while n < |ds|
      invariant 0 <= n <= |ds| && links == Union(routes, ds[..n]) && ParentsOk(topo, links, parent)
    {
      assert ds[n] in ds && ds[..n + 1][..n] == ds[..n];
      assert RouteOk(topo, source, routes, ds[n]);
      PathIsKnown(topo, source, routes[ds[n]], ds[n]);
      var fits, links', parent' := AddRoute(topo, routes[ds[n]], links, parent);
      if !fits {
        ClashStays(topo, routes, ds, n + 1);
        return false, links, parent;
      }
      links, parent := links', parent';
      n := n + 1;
    }
    assert ds[..n] == ds;
    ok := true;
  }

  lemma PathIsKnown(topo: Topology, s: EndpointId, route: seq<LinkId>, d: EndpointId)
    requires IsPath(topo, s, route, d)
    ensures forall i {:trigger route[i]} | 0 <= i < |route| :: route[i] in topo.links
  {
    forall i: nat | i < |route|
      ensures route[i] in topo.links
    {
      assert StepAt(topo, s, route, i);
    }
  }

  lemma ClashStays(topo: Topology, routes: Routes, ds: seq<EndpointId>, n: nat)
    requires n <= |ds| && HasClash(topo, Union(routes, ds[..n]))
    ensures HasClash(topo, Union(routes, ds))
  {
    var k, l :| k in Union(routes, ds[..n]) && l in Union(routes, ds[..n]) && Clashes(topo, k, l);
    forall x | x == k || x == l
      ensures x in Union(routes, ds)
    {
      InUnion(routes, ds[..n], x);
      var d :| d in ds[..n] && d in routes && x in routes[d];
      assert d in ds;
      InUnion(routes, ds, x);
    }
  }

  /** Roots and children. */
  method Attach(topo: Topology, tree: Tree) returns (connected: bool, r: Tree)
    requires ParentsOk(topo, tree.links, tree.parent)
    requires forall l {:trigger Attached(topo, tree, l)} | l in tree.links :: Attached(topo, tree, l)
    ensures connected && IsTree(topo, r) && r == tree.(roots := r.roots, children := r.children)
  {
    var roots: set<LinkId> := {};
    var children: map<LinkId, set<LinkId>> := map l | l in tree.links :: {};
    var todo := tree.links;
    while todo != {}
      invariant todo <= tree.links && children.Keys == tree.links
      invariant forall l {:trigger l in roots} :: l in roots <==> l in tree.links && l !in todo && From(topo, l) == tree.source
      invariant forall p, l {:trigger l in children[p]} | p in tree.links ::
        l in children[p] <==> l in tree.links && l !in todo && From(topo, l) != tree.source && From(topo, l) == To(topo, p)
      decreases todo
    {
      var l :| l in todo;
      assert Attached(topo, tree, l);
      var e := topo.links[l].src;
      if e == tree.source {
        roots := roots + {l};
      } else if e !in tree.parent {
        assert false;
      } else {
        var p := tree.parent[e];
        assert Enters(topo, tree.links, tree.parent, e);
        OneParent(topo, tree, p, e);
        children := children[p := children[p] + {l}];
      }
      todo := todo - {l};
    }
    connected := true;
    r := tree.(roots := roots, children := children);
    forall l | l in r.links
      ensures Attached(topo, r, l) && BranchesAt(topo, r, l)
    {
      assert Attached(topo, tree, l);
    }
  }

  lemma OneParent(topo: Topology, tree: Tree, p: LinkId, e: EndpointId)
    requires ParentsOk(topo, tree.links, tree.parent) && e in tree.parent && tree.parent[e] == p
    ensures p in tree.links && To(topo, p) == e && forall q | q in tree.links && To(topo, q) == e :: q == p
  {
    assert Enters(topo, tree.links, tree.parent, e);
    forall q | q in tree.links && To(topo, q) == e
      ensures q == p
    {
      assert EnteredBy(topo, tree.parent, q);
    }
  }

  // ----- chains -----

  /** q leads from the source to e along links of the tree. */
  predicate Chain(topo: Topology, tree: Tree, q: seq<LinkId>, e: EndpointId) {
    if q == [] then e == tree.source else
    var l := q[|q| - 1];
    l in tree.links && To(topo, l) == e && Chain(topo, tree, q[..|q| - 1], From(topo, l))
  }

  /** There is at most one chain to every endpoint. */
  lemma {:induction false} ChainIsUnique(topo: Topology, tree: Tree, q: seq<LinkId>, r: seq<LinkId>, e: EndpointId)
    requires IsTree(topo, tree) && Chain(topo, tree, q, e) && Chain(topo, tree, r, e)
    ensures q == r
    decreases |q|
  {
    if q != [] {
      var l := q[|q| - 1];
      assert Attached(topo, tree, l) && EnteredBy(topo, tree.parent, l);
      var k := r[|r| - 1];
      assert EnteredBy(topo, tree.parent, k);
      ChainIsUnique(topo, tree, q[..|q| - 1], r[..|r| - 1], From(topo, l));
      assert q == q[..|q| - 1] + [l] && r == r[..|r| - 1] + [l];
    } else {
      assert r != [] ==> Attached(topo, tree, r[|r| - 1]);
    }
  }

  /** The route to a destination is its chain. */
  lemma {:induction false} RouteIsChain(topo: Topology, tree: Tree, route: seq<LinkId>, d: EndpointId, n: nat)
    requires IsPath(topo, tree.source, route, d) && (forall l | l in route :: l in tree.links) && n <= |route|
    ensures Chain(topo, tree, route[..n], if n == 0 then tree.source else To(topo, route[n - 1]))
  {
    if n > 0 {
      RouteIsChain(topo, tree, route, d, n - 1);
      assert StepAt(topo, tree.source, route, n - 1) && route[n - 1] in route;
      assert route[..n][..n - 1] == route[..n - 1];
    }
  }

  /** Every destination is reached by exactly one chain, its own route. */
  lemma DestinationsReached(topo: Topology, tree: Tree, routes: Routes, ds: seq<EndpointId>, d: EndpointId)
    requires IsTree(topo, tree) && ValidRoutes(topo, tree.source, tree.destinations, routes)
    requires tree.links == Union(routes, ds) && d in ds && d in tree.destinations
    ensures d in routes && Chain(topo, tree, routes[d], d)
    ensures forall q {:trigger Chain(topo, tree, q, d)} | Chain(topo, tree, q, d) :: q == routes[d]
  {
    assert RouteOk(topo, tree.source, routes, d);
    forall l | l in routes[d]
      ensures l in tree.links
    {
      InUnion(routes, ds, l);
    }
    RouteIsChain(topo, tree, routes[d], d, |routes[d]|);
    assert routes[d][..|routes[d]|] == routes[d];
    forall q | Chain(topo, tree, q, d)
      ensures q == routes[d]
    {
      ChainIsUnique(topo, tree, q, routes[d], d);
    }
  }

  /** A set of links that holds the roots and is closed under children holds
      every link that some chain uses. */
  lemma {:induction false} ClosedHoldsChain(topo: Topology, tree: Tree, s: set<LinkId>, q: seq<LinkId>, e: EndpointId)
    requires IsTree(topo, tree) && Chain(topo, tree, q, e) && tree.roots <= s
    requires forall p | p in s && p in tree.links :: tree.children[p] <= s
    ensures forall l | l in q :: l in s
    decreases |q|
  {
    if q != [] {
      var rest, l := q[..|q| - 1], q[|q| - 1];
      ClosedHoldsChain(topo, tree, s, rest, From(topo, l));
      if rest == [] {
        assert l in tree.roots;
      } else {
        var p := rest[|rest| - 1];
        assert p in rest && BranchesAt(topo, tree, p) && Attached(topo, tree, p);
        assert l in tree.children[p];
      }
      assert q == rest + [l];
    }
  }

  /** Every link of a tree built from routes is the end of a chain. */
  ghost predicate AllChained(topo: Topology, tree: Tree) {
    forall l {:trigger Attached(topo, tree, l)} | l in tree.links :: exists q :: Chain(topo, tree, q, To(topo, l))
  }

  lemma RoutesChainAll(topo: Topology, tree: Tree, routes: Routes, ds: seq<EndpointId>)
    requires IsTree(topo, tree) && ValidRoutes(topo, tree.source, tree.destinations, routes)
    requires tree.links == Union(routes, ds) && forall d | d in ds :: d in tree.destinations
    ensures AllChained(topo, tree)
  {
    forall l | l in tree.links
      ensures exists q :: Chain(topo, tree, q, To(topo, l))
    {
      InUnion(routes, ds, l);
      var d :| d in ds && d in routes && l in routes[d];
      var i :| 0 <= i < |routes[d]| && routes[d][i] == l;
      forall k | k in routes[d]
        ensures k in tree.links
      {
        InUnion(routes, ds, k);
      }
      assert RouteOk(topo, tree.source, routes, d);
      RouteIsChain(topo, tree, routes[d], d, i + 1);
    }
  }

  /** A closed set that holds the roots is the whole tree. */
  lemma ClosedIsWhole(topo: Topology, tree: Tree, s: set<LinkId>)
    requires IsTree(topo, tree) && AllChained(topo, tree) && tree.roots <= s
    requires forall p | p in s && p in tree.links :: tree.children[p] <= s
    ensures tree.links <= s
  {
    forall l | l in tree.links
      ensures l in s
    {
      assert Attached(topo, tree, l);
      var q :| Chain(topo, tree, q, To(topo, l));
      ClosedHoldsChain(topo, tree, s, q, To(topo, l));
      assert q != [] && q[|q| - 1] in q && EnteredBy(topo, tree.parent, q[|q| - 1]) && EnteredBy(topo, tree.parent, l);
    }
  }
}
