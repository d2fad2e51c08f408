/** Who is admitted: flows get slots in the order of their releases. */
module NetAdmission {
  import opened Basics
  import opened Sums
  import opened FairShare
  import opened NetTopology
  import opened NetModel
  import opened NetCounters
  import opened NetEvents
  import opened NetAdvance
  import opened NetRuns

  /** h was released before f, or with it and has the smaller identifier. */
  predicate Ahead(n: Net, h: FlowId, f: FlowId) {
    && h in n.states && f in n.states
    && (n.states[h].release < n.states[f].release || (n.states[h].release == n.states[f].release && h < f))
  }

  /** h was active before the pass from n to n', or was let in ahead of f. */
  predicate HeldBefore(n: Net, n': Net, f: FlowId, h: FlowId) {
    h in n.active || (h in n'.active && Ahead(n, h, f))
  }

  /** The crossings of l by those flows. */
  function CrossingsAhead(n: Net, n': Net, f: FlowId, l: LinkId): map<FlowId, real> {
    map h | h in n.states.Keys && HeldBefore(n, n', f, h) ::
      Occurrences(n.states[h].flow.route, l) as real
  }

  /** Those leave a slot on l. */
  ghost predicate SlotFor(topo: Topology, n: Net, n': Net, f: FlowId, l: LinkId)
    requires Limited(topo, l)
  {
    Sum(CrossingsAhead(n, n', f, l)) < topo.links[l].maxInflight.value as real
  }

  ghost predicate SlotsFor(topo: Topology, n: Net, n': Net, f: FlowId)
    requires f in n.states
  {
    forall l {:trigger SlotFor(topo, n, n', f, l)} | l in n.states[f].flow.route && Limited(topo, l) :: SlotFor(topo, n, n', f, l)
  }

  // ----- the pass, one part after the other -----

  predicate Known(n: Net, ids: seq<FlowId>) {
    forall f | f in ids :: f in n.states.Keys
  }

  /** A pass over a, then the turn of f, then a pass over b. */
  lemma {:induction false} PassSplits(c: Config, n: Net, a: seq<FlowId>, f: FlowId, b: seq<FlowId>)
    requires Known(n, a) && Known(n, b) && f in n.states && Known(n, a + ([f] + b))
    ensures AdmitAll(c, n, a + ([f] + b)) == AdmitAll(c, Admit(c, AdmitAll(c, n, a), f), b)
    decreases a
  {
    if a == [] {
      assert a + ([f] + b) == [f] + b && ([f] + b)[1..] == b;
    } else {
      assert (a + ([f] + b))[1..] == a[1..] + ([f] + b);
      PassSplits(c, Admit(c, n, a[0]), a[1..], f, b);
    }
  }

  /** n and n' agree on g. */
  predicate Unmoved(n: Net, n': Net, g: FlowId) {
    && g in n.states && g in n'.states && n'.states[g] == n.states[g]
    && (g in n'.active <==> g in n.active) && (g in n'.results <==> g in n.results)
    && (g in n.results ==> n'.results[g] == n.results[g])
  }

  lemma AdmitTouches(c: Config, n: Net, f: FlowId, g: FlowId)
    requires ValidConfig(c) && FlowsOk(c, n) && f in n.states && g in n.states
    ensures var n' := Admit(c, n, f);
      && n'.states[g].flow == n.states[g].flow && n'.states[g].release == n.states[g].release
      && (g in n.active ==> g in n'.active) && (g != f ==> Unmoved(n, n', g))
  {
    assert FlowOk(c, n, f);
  }

  /** A pass moves no flow outside of it, and stops no active one. */
  lemma {:induction false} PassTouches(c: Config, n: Net, ids: seq<FlowId>, g: FlowId)
    requires ValidConfig(c) && FlowsOk(c, n) && Known(n, ids) && g in n.states
    ensures var n' := AdmitAll(c, n, ids);
      && n'.states[g].flow == n.states[g].flow && n'.states[g].release == n.states[g].release
      && (g in n.active ==> g in n'.active) && (g !in ids ==> Unmoved(n, n', g))
    decreases ids
  {
    if ids != [] {
      AdmitTouches(c, n, ids[0], g);
      AdmitKeepsFlows(c, n, ids[0]);
      PassTouches(c, Admit(c, n, ids[0]), ids[1..], g);
    }
  }

  /** In a list in order, those that come before place k are those before it
      in the order. */
  lemma OrderAround(r: seq<FlowId>, at: map<FlowId, real>, k: nat, h: FlowId)
    requires k < |r| && (forall i | 0 <= i < |r| :: r[i] in at)
    requires forall i, j | 0 <= i < j < |r| :: Before(Key(at[r[i]], r[i]), Key(at[r[j]], r[j]))
    ensures h in r[..k] <==> h in r && h in at && Before(Key(at[h], h), Key(at[r[k]], r[k]))
    ensures h in r[k + 1..] ==> h !in r[..k] && h != r[k]
  {
    if h in r {
      var i :| 0 <= i < |r| && r[i] == h;
      if i < k { assert r[..k][i] == h; }
    }
  }

  /** r lists a, then f, then b, and a is what comes before f in the order. */
  ghost predicate IsSplit(r: seq<FlowId>, at: map<FlowId, real>, f: FlowId, a: seq<FlowId>, b: seq<FlowId>)
    requires f in at
  {
    && r == a + ([f] + b) && f !in a && f !in b
    && (forall h :: h in a <==> h in at && Before(Key(at[h], h), Key(at[f], f)))
    && (forall h | h in b :: h !in a)
  }

  lemma SplitAt(r: seq<FlowId>, at: map<FlowId, real>, k: nat)
    requires k < |r| && (forall x :: x in r <==> x in at.Keys) && (forall i | 0 <= i < |r| :: r[i] in at)
    requires forall i, j | 0 <= i < j < |r| :: Before(Key(at[r[i]], r[i]), Key(at[r[j]], r[j]))
    ensures IsSplit(r, at, r[k], r[..k], r[k + 1..])
  {
    var a, b, f := r[..k], r[k + 1..], r[k];
    assert r == a + ([f] + b);
    forall h
      ensures h in a <==> h in at && Before(Key(at[h], h), Key(at[f], f))
    {
      OrderAround(r, at, k, h);
    }
    forall h | h in b
      ensures h !in a && h != f
    {
      OrderAround(r, at, k, h);
    }
  }

  lemma AllIn(r: seq<FlowId>, at: map<FlowId, real>)
    requires forall x :: x in r <==> x in at.Keys
    ensures forall i | 0 <= i < |r| :: r[i] in at
  {
    forall i | 0 <= i < |r|
      ensures r[i] in at
    {
      assert r[i] in r;
    }
  }

  lemma PlaceInOrder(n: Net, f: FlowId) returns (a: seq<FlowId>, b: seq<FlowId>)
    requires f in n.states
    ensures AdmissionOrder(n) == a + ([f] + b) && f !in a && f !in b && Known(n, a) && Known(n, b)
    ensures forall h :: h in a <==> Ahead(n, h, f)
    ensures forall h | h in b :: h !in a
  {
    var r := AdmissionOrder(n);
    var k :| 0 <= k < |r| && r[k] == f;
    AllIn(r, Releases(n));
    SplitAt(r, Releases(n), k);
    a, b := r[..k], r[k + 1..];
    SplitKnown(n, f, a, b);
  }

  lemma SplitKnown(n: Net, f: FlowId, a: seq<FlowId>, b: seq<FlowId>)
    requires f in n.states && IsSplit(AdmissionOrder(n), Releases(n), f, a, b)
    ensures Known(n, a) && Known(n, b) && forall h :: h in a <==> Ahead(n, h, f)
  {
    forall h | h in a || h in b
      ensures h in n.states
    {
      assert h in AdmissionOrder(n);
    }
  }

  /** The network m that f finds when it is its turn, and the pass around it. */
  ghost predicate TurnOf(c: Config, n: Net, f: FlowId, a: seq<FlowId>, b: seq<FlowId>, m: Net) {
    && Known(n, a) && Known(n, b) && f in n.states && f !in a && f !in b && (forall h | h in b :: h !in a)
    && m == AdmitAll(c, n, a) && ActivateDue(c, n) == AdmitAll(c, Admit(c, m, f), b)
  }

  lemma FindTurn(c: Config, n: Net, f: FlowId) returns (a: seq<FlowId>, b: seq<FlowId>, m: Net)
    requires f in n.states
    ensures TurnOf(c, n, f, a, b, m) && forall h :: h in a <==> Ahead(n, h, f)
  {
    a, b := PlaceInOrder(n, f);
    PassSplits(c, n, a, f, b);
    m := AdmitAll(c, n, a);
  }

  lemma TurnKeeps(c: Config, n: Net, f: FlowId, a: seq<FlowId>, b: seq<FlowId>, m: Net)
    requires ValidConfig(c) && FlowsOk(c, n) && CountersOk(c.topo, n) && TurnOf(c, n, f, a, b, m)
    ensures FlowsOk(c, m) && CountersOk(c.topo, m) && FlowsOk(c, Admit(c, m, f)) && m.now == n.now
  {
    AdmitAllKeepsFlows(c, n, a);
    AdmitAllKeepsCounters(c, n, a);
    AdmitKeepsFlows(c, m, f);
  }

  predicate SeenBy(n: Net, n': Net, f: FlowId, m: Net, h: FlowId) {
    h in n.states && h in m.states && m.states[h].flow == n.states[h].flow && (h in m.active <==> HeldBefore(n, n', f, h))
  }

  /** The turn of f as h sees it: h was there before exactly if it was active
      or was let in ahead. */
  lemma TurnOfOther(c: Config, n: Net, f: FlowId, a: seq<FlowId>, b: seq<FlowId>, m: Net, h: FlowId)
    requires ValidConfig(c) && FlowsOk(c, n) && CountersOk(c.topo, n) && TurnOf(c, n, f, a, b, m) && h in n.states
    requires h in a <==> Ahead(n, h, f)
    ensures SeenBy(n, ActivateDue(c, n), f, m, h)
    ensures h == f ==> Unmoved(n, m, f) && Unmoved(Admit(c, m, f), ActivateDue(c, n), f)
  {
    TurnKeeps(c, n, f, a, b, m);
    PassTouches(c, n, a, h);
    AdmitTouches(c, m, f, h);
    PassTouches(c, Admit(c, m, f), b, h);
  }

  lemma SeenCrossings(n: Net, n': Net, f: FlowId, m: Net, l: LinkId)
    requires m.states.Keys == n.states.Keys && forall h {:trigger SeenBy(n, n', f, m, h)} | h in n.states.Keys :: SeenBy(n, n', f, m, h)
    ensures Crossings(m, l) == CrossingsAhead(n, n', f, l)
  {
    var x, y := Crossings(m, l), CrossingsAhead(n, n', f, l);
    forall h | h in n.states.Keys
      ensures (h in x <==> h in y) && (h in x ==> x[h] == y[h])
    {
      assert SeenBy(n, n', f, m, h);
    }
  }

  lemma PassAround(c: Config, n: Net, f: FlowId) returns (m: Net)
    requires ValidConfig(c) && FlowsOk(c, n) && CountersOk(c.topo, n) && f in n.states
    ensures FlowsOk(c, m) && CountersOk(c.topo, m) && m.now == n.now
    ensures Unmoved(n, m, f) && Unmoved(Admit(c, m, f), ActivateDue(c, n), f)
    ensures forall l :: Crossings(m, l) == CrossingsAhead(n, ActivateDue(c, n), f, l)
  {
    var a, b;
    a, b, m := FindTurn(c, n, f);
    TurnKeeps(c, n, f, a, b, m);
    TurnOfOther(c, n, f, a, b, m, f);
    var n' := ActivateDue(c, n);
    forall h | h in n.states.Keys
      ensures SeenBy(n, n', f, m, h)
    {
      TurnOfOther(c, n, f, a, b, m, h);
    }
    forall l
      ensures Crossings(m, l) == CrossingsAhead(n, n', f, l)
    {
      SeenCrossings(n, n', f, m, l);
    }
  }

  lemma BlockedIff(c: Config, m: Net, route: seq<LinkId>)
    requires CountersOk(c.topo, m)
    ensures Blocked(c.topo, m.inflight, route) <==>
      exists l :: l in route && Limited(c.topo, l) && Holding(m, l) >= c.topo.links[l].maxInflight.value as real
  {
    forall l | l in m.inflight.Keys
      ensures m.inflight[l] as real == Holding(m, l)
    {
    }
  }

  /** f is due and has something to transfer. */
  predicate Waits(c: Config, n: Net, f: FlowId) {
    && f in n.states && n.states[f].status.Pending? && n.states[f].release <= n.now + c.epsTime
    && n.states[f].remaining > c.epsBytes && n.states[f].resources != {}
  }

  /** A waiting flow is let in exactly when, after the flows that were active
      and those let in ahead of it, every limited link of its route has a slot
      left. */
  lemma AdmissionIsByRelease(c: Config, n: Net, f: FlowId)
    requires ValidConfig(c) && FlowsOk(c, n) && CountersOk(c.topo, n) && Waits(c, n, f)
    ensures var n' := ActivateDue(c, n);
      f in n'.active <==> SlotsFor(c.topo, n, n', f)
  {
    var m := PassAround(c, n, f);
    var n' := ActivateDue(c, n);
    assert FlowOk(c, n, f);
    BlockedIff(c, m, n.states[f].flow.route);
    forall l | Limited(c.topo, l)
      ensures SlotFor(c.topo, n, n', f, l) <==> Holding(m, l) < c.topo.links[l].maxInflight.value as real
    {
      assert Crossings(m, l) == CrossingsAhead(n, n', f, l);
    }
  }

  /** All other flows: one with nothing to transfer is complete at once, one
      that is not due or not waiting stays as it is. */
  lemma OthersOfThePass(c: Config, n: Net, f: FlowId)
    requires ValidConfig(c) && FlowsOk(c, n) && CountersOk(c.topo, n) && f in n.states && !Waits(c, n, f)
    ensures var n', st := ActivateDue(c, n), n.states[f];
      if st.status.Pending? && st.release <= n.now + c.epsTime
      then f in n'.results && n'.results[f] == (if st.release <= n.now then n.now else st.release) && f !in n'.active
      else n'.states[f] == st && (f in n'.active <==> f in n.active)
  {
    var m := PassAround(c, n, f);
    assert FlowOk(c, n, f);
  }

  /** Nobody overtakes: of two waiting flows, the one released later gets in
      only if the other does, or the other needs a limited link of its own. */
  lemma NoOvertaking(c: Config, n: Net, f: FlowId, g: FlowId)
    requires ValidConfig(c) && FlowsOk(c, n) && CountersOk(c.topo, n) && Waits(c, n, f) && Waits(c, n, g) && Ahead(n, f, g)
    requires forall l | l in n.states[f].flow.route && Limited(c.topo, l) :: l in n.states[g].flow.route
    ensures g in ActivateDue(c, n).active ==> f in ActivateDue(c, n).active
  {
    var n' := ActivateDue(c, n);
    AdmissionIsByRelease(c, n, f);
    AdmissionIsByRelease(c, n, g);
    if g in n'.active {
      forall l | l in n.states[f].flow.route && Limited(c.topo, l)
        ensures SlotFor(c.topo, n, n', f, l)
      {
        assert SlotFor(c.topo, n, n', g, l);
        FewerAhead(n, n', f, g, l);
      }
    }
  }

  lemma FewerAhead(n: Net, n': Net, f: FlowId, g: FlowId, l: LinkId)
    requires Ahead(n, f, g)
    ensures Sum(CrossingsAhead(n, n', f, l)) <= Sum(CrossingsAhead(n, n', g, l))
  {
    var a, b := CrossingsAhead(n, n', f, l), CrossingsAhead(n, n', g, l);
    var more := map h | h in b.Keys && h !in a.Keys :: b[h];
    SumUnion(a, more, b);
    SumNonNegative(more);
  }
}
