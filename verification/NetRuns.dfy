/** One step of the event loop, and what every run of it keeps. */
module NetRuns {
  import opened Basics
  import opened FairShare
  import opened NetTopology
  import opened NetModel
  import opened NetCounters
  import opened NetEvents
  import opened NetAdvance

  // ----- admission, seen from outside -----

  /** A stage that only admits flows, at most eps ahead of their release. */
  ghost predicate OnlyStarts(c: Config, n: Net, n': Net) {
    && Forward(n, n') && FreshResults(n, n', c.epsTime) && n'.now == n.now
    && n'.served == n.served && n'.linkBytes == n.linkBytes
    && (forall f | f in n.active && f in n.states.Keys :: f in n'.active && n'.states[f] == n.states[f])
    && (forall f | f in n'.active && f !in n.active :: n'.states[f].remaining > c.epsBytes)
  }

  lemma OnlyStartsChains(c: Config, n: Net, n1: Net, n2: Net)
    requires OnlyStarts(c, n, n1) && OnlyStarts(c, n1, n2) && n.active <= n.states.Keys
    ensures OnlyStarts(c, n, n2)
  {
  }

  lemma AdmitStarts(c: Config, n: Net, f: FlowId)
    requires c.epsTime >= 0.0 && f in n.states && n.active <= n.states.Keys && n.results.Keys <= n.states.Keys
    requires n.states[f].status.Pending? ==> f !in n.active && f !in n.results
    ensures OnlyStarts(c, n, Admit(c, n, f))
  {
    var n' := Admit(c, n, f);
    assert Due(c, n, f) && Instant(c, n.states[f]) ==> n'.results == n.results[f := Max(n.now, n.states[f].release)];
    assert !(Due(c, n, f) && Instant(c, n.states[f])) ==> n'.results == n.results;
    assert forall g | g in n.states.Keys && g != f :: n'.states[g] == n.states[g];
  }

  lemma {:induction false} AdmitAllStarts(c: Config, n: Net, ids: seq<FlowId>)
    requires ValidConfig(c) && FlowsOk(c, n) && forall f | f in ids :: f in n.states.Keys
    ensures OnlyStarts(c, n, AdmitAll(c, n, ids))
    decreases ids
  {
    if ids != [] {
      assert FlowOk(c, n, ids[0]);
      AdmitStarts(c, n, ids[0]);
      AdmitKeepsFlows(c, n, ids[0]);
      AdmitAllStarts(c, Admit(c, n, ids[0]), ids[1..]);
      OnlyStartsChains(c, n, Admit(c, n, ids[0]), AdmitAll(c, n, ids));
    }
  }

  lemma ActivateDueKeeps(c: Config, n: Net)
    requires ValidConfig(c) && FlowsOk(c, n) && CountersOk(c.topo, n) && Busy(c, n)
    ensures ValidNet(c, ActivateDue(c, n)) && OnlyStarts(c, n, ActivateDue(c, n))
  {
    ActivateDueSettles(c, n);
    AdmitAllKeepsCounters(c, n, AdmissionOrder(n));
    AdmitAllStarts(c, n, AdmissionOrder(n));
  }

  // ----- advancing -----

  /** `advance_to` without its error checks. */
  ghost function Moved(c: Config, n: Net, t: real): (n': Net)
    requires ValidConfig(c) && FlowsOk(c, n)
    ensures n'.states.Keys == n.states.Keys
  {
    RatesAreOk(c, n);
    Transfer(n, RatesOf(c, n), t - n.now)
  }

  ghost function Settle(c: Config, n: Net): Net
    requires n.active <= n.states.Keys
  {
    CompleteDone(c, n, InOrder(n.active, Zeroes(n.active)))
  }

  ghost function Advance(c: Config, n: Net, t: real): Net
    requires ValidConfig(c) && FlowsOk(c, n)
  {
    ActivateDue(c, Settle(c, Moved(c, n, t)))
  }

  lemma MovedFlow(c: Config, n: Net, t: real, f: FlowId)
    requires ValidConfig(c) && FlowsOk(c, n) && f in n.states
    ensures var st, st' := n.states[f], Moved(c, n, t).states[f];
      st'.flow == st.flow && st'.status == st.status && (f !in n.active ==> st' == st)
  {
    RatesAreOk(c, n);
    assert MovesTo(n, RatesOf(c, n), t - n.now, Moved(c, n, t), f);
  }

  lemma MovedKeeps(c: Config, n: Net, t: real)
    requires ValidConfig(c) && FlowsOk(c, n) && CountersOk(c.topo, n) && n.now <= t
    ensures var m := Moved(c, n, t);
      && FlowsOk(c, m) && CountersOk(c.topo, m) && m.now == t
      && m.active == n.active && m.results == n.results && Forward(n, m)
  {
    var R, m := RatesOf(c, n), Moved(c, n, t);
    RatesAreOk(c, n);
    TransferKeepsFlows(c, n, R, t - n.now);
    forall f | f in n.states.Keys
      ensures m.states[f].flow == n.states[f].flow && m.states[f].status == n.states[f].status
      ensures m.states[f].status.Pending? ==> m.states[f] == n.states[f]
    {
      MovedFlow(c, n, t, f);
      assert FlowOk(c, n, f);
    }
    SameCounters(c.topo, n, m);
  }

  lemma SettleKeeps(c: Config, n: Net)
    requires ValidConfig(c) && FlowsOk(c, n) && CountersOk(c.topo, n)
    ensures var n' := Settle(c, n);
      FlowsOk(c, n') && CountersOk(c.topo, n') && OnlyCompletes(n, n') && Busy(c, n')
  {
    var ids := InOrder(n.active, Zeroes(n.active));
    CompleteDoneKeeps(c, n, ids);
    var n' := Settle(c, n);
    forall f | f in n'.active
      ensures n'.states[f].remaining > c.epsBytes
    {
      assert FlowOk(c, n', f);
      if n'.states[f].remaining <= c.epsBytes {
        CompleteDoneCovers(c, n, ids, f);
        assert false;
      }
    }
  }

  lemma ForwardChains(n: Net, n1: Net, n2: Net)
    requires Forward(n, n1) && Forward(n1, n2)
    ensures Forward(n, n2)
  {
  }

  /** The three stages of advancing: all keep the network consistent. */
  lemma AdvanceStages(c: Config, n: Net, t: real) returns (m: Net, k: Net, n': Net)
    requires ValidNet(c, n) && n.now <= t
    ensures m == Moved(c, n, t) && k == Settle(c, m) && n' == Advance(c, n, t)
    ensures m.now == t && m.active == n.active && m.results == n.results && Forward(n, m) && FlowsOk(c, m)
    ensures OnlyCompletes(m, k) && FlowsOk(c, k)
    ensures OnlyStarts(c, k, n') && ValidNet(c, n')
  {
    m := Moved(c, n, t);
    MovedKeeps(c, n, t);
    k := Settle(c, m);
    SettleKeeps(c, m);
    n' := Advance(c, n, t);
    ActivateDueKeeps(c, k);
  }

  lemma FreshChains(n: Net, m: Net, k: Net, n': Net, eps: real)
    requires m.results == n.results && FreshResults(m, k, 0.0) && FreshResults(k, n', eps)
    requires k.now == n'.now && eps >= 0.0 && forall f | f in k.results.Keys :: f in n'.results.Keys && n'.results[f] == k.results[f]
    ensures FreshResults(n, n', eps)
  {
  }

  /** Advancing keeps the network valid, only moves flows forward, and dates
      new results at the target time. */
  lemma AdvanceKeeps(c: Config, n: Net, t: real)
    requires ValidNet(c, n) && n.now <= t
    ensures var n' := Advance(c, n, t);
      ValidNet(c, n') && n'.now == t && Forward(n, n') && FreshResults(n, n', c.epsTime)
  {
    var m, k, n' := AdvanceStages(c, n, t);
    ForwardChains(n, m, k);
    ForwardChains(n, k, n');
    FreshChains(n, m, k, n', c.epsTime);
  }

  // ----- progress -----

  function Undone(n: Net): set<FlowId> {
    set f | f in n.states.Keys && !n.states[f].status.Complete?
  }

  function NotDue(c: Config, n: Net): set<FlowId> {
    set f | f in n.states.Keys && n.states[f].status.Pending? && n.states[f].release > n.now + c.epsTime
  }

  /** Events still to come: every flow is released once and finishes once. */
  function Work(c: Config, n: Net): nat {
    |Undone(n)| + |NotDue(c, n)|
  }

  lemma WorkBound(c: Config, n: Net)
    ensures Work(c, n) <= 2 * |n.states.Keys|
  {
    SmallerSet(Undone(n), n.states.Keys);
    SmallerSet(NotDue(c, n), n.states.Keys);
  }

  lemma ForwardShrinks(c: Config, n: Net, n': Net)
    requires Forward(n, n')
    ensures Undone(n') <= Undone(n) && NotDue(c, n') <= NotDue(c, n)
    ensures Work(c, n') <= Work(c, n)
    ensures (exists f :: f in Undone(n) && f !in Undone(n')) ==> Work(c, n') < Work(c, n)
    ensures (exists f :: f in NotDue(c, n) && f !in NotDue(c, n')) ==> Work(c, n') < Work(c, n)
  {
    SmallerSet(Undone(n'), Undone(n));
    SmallerSet(NotDue(c, n'), NotDue(c, n));
  }

  lemma MovedEmpties(c: Config, n: Net, t: real, f: FlowId)
    requires ValidConfig(c) && FlowsOk(c, n) && n.now <= t && f in n.active && f in RatesOf(c, n)
    requires RatesOf(c, n)[f] > 0.0 && n.states[f].remaining >= 0.0
    requires n.now + n.states[f].remaining / RatesOf(c, n)[f] <= t
    ensures Moved(c, n, t).states[f].remaining == 0.0
  {
    var R := RatesOf(c, n);
    RatesAreOk(c, n);
    assert MovesTo(n, R, t - n.now, Moved(c, n, t), f);
    SentAmounts(n.states[f], R[f], n.now, t - n.now);
  }

  /** A flow whose transfer ends by t completes when the network reaches t. */
  lemma EndsAtEvent(c: Config, n: Net, t: real, f: FlowId)
    requires ValidNet(c, n) && n.now <= t && f in n.active
    requires RatesPositive(RatesOf(c, n)) && n.now + n.states[f].remaining / RatesOf(c, n)[f] <= t
    ensures f in Advance(c, n, t).results
  {
    assert FlowOk(c, n, f);
    MovedEmpties(c, n, t, f);
    var m, k, n' := AdvanceStages(c, n, t);
    CompleteDoneCovers(c, m, InOrder(m.active, Zeroes(m.active)), f);
  }

  /** Every event of the network is the release of a flow or its end, so the
      work left strictly shrinks. */
  lemma EventProgress(c: Config, n: Net)
    requires ValidNet(c, n) && NextEvent(c, n).Some?
    ensures Work(c, Advance(c, n, NextEvent(c, n).value)) < Work(c, n)
  {
    var t, R := NextEvent(c, n).value, RatesOf(c, n);
    NextEventIsLater(c, n);
    var f :| f in n.states.Keys && Candidate(c, n, R, f) == Some(t);
    var n' := Advance(c, n, t);
    AdvanceKeeps(c, n, t);
    ForwardShrinks(c, n, n');
    assert FlowOk(c, n, f);
    if n.states[f].status.Pending? {
      assert f in NotDue(c, n) && f !in NotDue(c, n');
    } else {
      EndsAtEvent(c, n, t, f);
      assert FlowOk(c, n', f);
      assert f in Undone(n) && f !in Undone(n');
    }
  }
}
