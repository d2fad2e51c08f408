/** The event-driven network object, proved against the value model. */
module FluidNetworks {
  import opened Basics
  import opened FairShare
  import opened NetTopology
  import opened NetModel
  import opened NetCounters
  import opened NetEvents
  import opened NetAdvance
  import opened NetRuns
  import opened NetService
  import opened NetLimits
  import opened NetStarts

  datatype NetworkError = DuplicateFlow | StartsBeforeNow | TargetInPast | CrossesEvent

  class FluidNetwork {
    const c: Config
    var now: real
    var states: map<FlowId, FlowState>
    var active: set<FlowId>
    var results: map<FlowId, real>
    var linkBytes: map<LinkId, nat>
    var inflight: map<LinkId, int>
    ghost var served: map<FlowId, real>

    ghost function Snapshot(): Net
      reads this
    {
      Net(now, states, active, results, linkBytes, inflight, served)
    }

    ghost predicate Valid()
      reads this
    {
      ValidNet(c, Snapshot()) && NoOverrun(Snapshot())
    }

    constructor (topo: Topology, epsTime: real, epsBytes: real)
      requires ValidTopology(topo) && epsTime >= 0.0 && epsBytes >= 0.0
      ensures Valid() && c.topo == topo && c.epsTime == epsTime && c.epsBytes == epsBytes
      ensures Snapshot() == EmptyNet(topo)
    {
      var cap := BuildResourceCapacities(topo);
      c := Config(topo, cap, epsTime, epsBytes);
      now := 0.0;
      states, active, results, served := map[], {}, map[], map[];
      linkBytes := map l | l in topo.links.Keys :: 0;
      inflight := map l | l in topo.links.Keys && topo.links[l].maxInflight.Some? :: 0;
      new;
      assert Snapshot() == EmptyNet(topo);
      EmptyIsValid(c);
    }

    /** `_complete`: free the slots the flow held, one link at a time. */
    method Complete(f: FlowId, t: real)
      requires f in states
      requires states[f].status.Active? ==> forall l | l in inflight.Keys :: Occurrences(states[f].flow.route, l) <= inflight[l]
      modifies this
      ensures Snapshot() == CompleteFlow(old(Snapshot()), f, t)
    {
      if f in results { return; }
      var st := states[f];
      active := active - {f};
      if st.status.Active? {
        ReleaseSlots(st.flow.route);
      }
      states := states[f := st.(status := Status.Complete, finish := Some(t),
                                firstService := if st.firstService.None? then Some(t) else st.firstService)];
      results := results[f := t];
    }

    method ReleaseSlots(route: seq<LinkId>)
      requires forall l | l in inflight.Keys :: Occurrences(route, l) <= inflight[l]
      modifies this`inflight
      ensures inflight == Released(old(inflight), route)
    {
      var i := 0;
      while i < |route|
        invariant 0 <= i <= |route|
        invariant inflight.Keys == old(inflight).Keys
        invariant forall l | l in inflight.Keys :: Occurrences(route[i..], l) <= inflight[l]
        invariant forall l | l in inflight.Keys :: inflight[l] - Occurrences(route[i..], l) == old(inflight)[l] - Occurrences(route, l)
      {
        var l := route[i];
        assert route[i..] == [l] + route[i + 1..];
        if l in inflight {
          inflight := inflight[l := inflight[l] - 1];
          if inflight[l] < 0 {
            assert false;  // occupancy is never negative
          }
        }
        i := i + 1;
      }
      assert route[i..] == [];
    }

    method TakeSlots(route: seq<LinkId>)
      modifies this`inflight
      ensures inflight == Occupied(old(inflight), route)
    {
      var i := 0;
      while i < |route|
        invariant 0 <= i <= |route|
        invariant inflight.Keys == old(inflight).Keys
        invariant forall l | l in inflight.Keys :: inflight[l] + Occurrences(route[i..], l) == old(inflight)[l] + Occurrences(route, l)
      {
        var l := route[i];
        assert route[i..] == [l] + route[i + 1..];
        if l in inflight {
          inflight := inflight[l := inflight[l] + 1];
        }
        i := i + 1;
      }
      assert route[i..] == [];
    }

    /** One turn of admission. */
    method AdmitFlow(f: FlowId)
      requires ValidConfig(c) && FlowsOk(c, Snapshot()) && f in states
      modifies this
      ensures Snapshot() == Admit(c, old(Snapshot()), f)
    {
      var st := states[f];
      assert FlowOk(c, Snapshot(), f);
      if st.status.Pending? && st.release <= now + c.epsTime {
        if st.remaining <= c.epsBytes || st.resources == {} {
          Complete(f, Max(now, st.release));
        } else if !Blocked(c.topo, inflight, st.flow.route) {
          states := states[f := st.(status := Active)];
          active := active + {f};
          TakeSlots(st.flow.route);
        }
      }
    }

    /** `_activate_due`. */
    method Activate()
      requires ValidConfig(c) && FlowsOk(c, Snapshot())
      modifies this
      ensures Snapshot() == ActivateDue(c, old(Snapshot()))
    {
      var ordered := InOrder(states.Keys, map f | f in states.Keys :: states[f].release);
      assert ordered == AdmissionOrder(Snapshot());
      var i := 0;
      while i < |ordered|
        invariant 0 <= i <= |ordered|
        invariant states.Keys == old(states).Keys
        invariant FlowsOk(c, Snapshot())
        invariant AdmitAll(c, Snapshot(), ordered[i..]) == ActivateDue(c, old(Snapshot()))
      {
        assert ordered[i..][0] == ordered[i] && ordered[i..][1..] == ordered[i + 1..];
        AdmitKeepsFlows(c, Snapshot(), ordered[i]);
        AdmitFlow(ordered[i]);
        i := i + 1;
      }
      assert ordered[i..] == [];
    }

    /** `_rates` over the flows that are active now. */
    method CurrentRates() returns (rates: Rates)
      requires ValidConfig(c) && FlowsOk(c, Snapshot())
      ensures rates == RatesOf(c, Snapshot()) && RatesPositive(rates)
    {
      UsagesAreValid(c, Snapshot());
      RatesAreOk(c, Snapshot());
      var uses := map f | f in states.Keys && f in active :: states[f].resources;
      assert uses == Usages(Snapshot());
      rates := ProgressiveFilling(uses, c.cap, c.epsBytes);
    }

    /** The earliest event of the flows not in `todo`. */
    ghost predicate EarliestSoFar(rates: Rates, todo: set<FlowId>, next: Option<real>)
      requires RatesPositive(rates)
      reads this
    {
      && (forall f {:trigger Candidate(c, Snapshot(), rates, f)} | f in states.Keys && f !in todo && Candidate(c, Snapshot(), rates, f).Some? ::
           next.Some? && next.value <= Candidate(c, Snapshot(), rates, f).value)
      && (next.Some? ==> exists f {:trigger Candidate(c, Snapshot(), rates, f)} :: f in states.Keys && Candidate(c, Snapshot(), rates, f) == next)
    }

    /** The earliest release still to come, and the earliest end of a transfer. */
    method EarliestEvent(rates: Rates) returns (next: Option<real>)
      requires RatesPositive(rates) && rates.Keys == active && ValidConfig(c) && FlowsOk(c, Snapshot())
      ensures IsNextEvent(c, Snapshot(), rates, next)
    {
      next := None;
      var todo := states.Keys;
      while todo != {}
        invariant todo <= states.Keys && EarliestSoFar(rates, todo, next)
        decreases todo
      {
        var f :| f in todo;
        ghost var before := next;
        var st := states[f];
        if st.status.Pending? && st.release > now + c.epsTime && (next.None? || st.release < next.value) {
          next := Some(st.release);
        }
        if f in active {
          assert FlowOk(c, Snapshot(), f);
          if rates[f] <= 0.0 {
            assert false;  // every active flow has a positive rate
          }
          var finish := now + st.remaining / rates[f];
          if next.None? || finish < next.value {
            next := Some(finish);
          }
        }
        assert FlowOk(c, Snapshot(), f);
        assert next == before || next == Candidate(c, Snapshot(), rates, f);
        todo := todo - {f};
      }
    }

    /** `next_event_time`: admission changes nothing on a settled network. */
    method NextEventTime() returns (next: Option<real>)
      requires Valid()
      modifies this
      ensures Snapshot() == old(Snapshot())
      ensures next == NextEvent(c, Snapshot())
    {
      AdmitAllOfSettled(c, Snapshot(), AdmissionOrder(Snapshot()));
      Activate();
      var rates := CurrentRates();
      next := EarliestEvent(rates);
      NextEventIsUnique(c, Snapshot(), rates, next, NextEvent(c, Snapshot()));
    }

    /** All active flows send at their rates for a duration d. */
    method Transmit(rates: Rates, d: real)
      requires RatesPositive(rates) && rates.Keys == active && active <= states.Keys == served.Keys
      modifies this`now, this`states, this`served
      ensures Snapshot() == Transfer(old(Snapshot()), rates, d)
    {
      ghost var n := Snapshot();
      var next := states;
      ghost var total := served;
      var todo := active;
      while todo != {}
        invariant todo <= active && next.Keys == n.states.Keys && total.Keys == n.served.Keys
        invariant forall f | f in n.states.Keys && f !in active - todo :: next[f] == n.states[f] && total[f] == n.served[f]
        invariant forall f {:trigger HasSent(n, rates, d, f, next[f], total[f])} | f in active - todo ::
          HasSent(n, rates, d, f, next[f], total[f])
        decreases todo
      {
        var f :| f in todo;
        ghost var next0, total0 := next, total;
        next := next[f := Sent(next[f], rates[f], now, d)];
        total := total[f := total[f] + rates[f] * d];
        assert HasSent(n, rates, d, f, next[f], total[f]);
        assert forall g | g in active - todo :: HasSent(n, rates, d, g, next0[g], total0[g]);
        todo := todo - {f};
      }
      states, served, now := next, total, now + d;
      TransferIsUnique(n, rates, d, Snapshot());
    }

    /** Complete the flows that have nothing left, in the order of their ids. */
    method CompleteFinished()
      requires ValidConfig(c) && FlowsOk(c, Snapshot()) && CountersOk(c.topo, Snapshot())
      modifies this
      ensures Snapshot() == Settle(c, old(Snapshot()))
    {
      var ids := InOrder(active, Zeroes(active));
      var i := 0;
      while i < |ids|
        invariant 0 <= i <= |ids|
        invariant states.Keys == old(states).Keys
        invariant FlowsOk(c, Snapshot()) && CountersOk(c.topo, Snapshot())
        invariant forall f | f in ids :: Begun(Snapshot(), f)
        invariant CompleteDone(c, Snapshot(), ids[i..]) == Settle(c, old(Snapshot()))
      {
        assert ids[i..][0] == ids[i] && ids[i..][1..] == ids[i + 1..];
        CompleteTurnKeeps(c, Snapshot(), ids[i]);
        CompleteTurnEffect(c, Snapshot(), ids[i]);
        CompleteIfFinished(ids[i]);
        i := i + 1;
      }
      assert ids[i..] == [];
    }

    method CompleteIfFinished(f: FlowId)
      requires ValidConfig(c) && FlowsOk(c, Snapshot()) && CountersOk(c.topo, Snapshot()) && f in states
      modifies this
      ensures Snapshot() == CompleteTurn(c, old(Snapshot()), f)
    {
      if states[f].remaining <= c.epsBytes {
        HeldSlots(c, Snapshot(), f);
        Complete(f, now);
      }
    }

    /** `advance_to`: reject a target in the past or beyond the next event;
        otherwise transfer, complete and admit, and report what completed. */
    method AdvanceTo(t: real) returns (r: Result<seq<FlowId>, NetworkError>)
      requires Valid()
      modifies this
      ensures t < old(now) ==> r == Err(TargetInPast)
      ensures t >= old(now) && Crosses(c, old(Snapshot()), t) ==> r == Err(CrossesEvent)
      ensures t >= old(now) && !Crosses(c, old(Snapshot()), t) ==> r.Ok?
      ensures r.Err? ==> Snapshot() == old(Snapshot())
      ensures r.Ok? ==> Snapshot() == Advance(c, old(Snapshot()), t) && ValidNet(c, Snapshot())
      ensures r.Ok? ==> forall f :: f in r.value <==> f in results && f !in old(results)
      ensures r.Ok? && StopsAtEvent(c, old(Snapshot()), t) ==> Valid()
    {
      ghost var n := Snapshot();
      if t < now { return Err(TargetInPast); }
      var next := NextEventTime();
      if next.Some? && t > next.value + c.epsTime { return Err(CrossesEvent); }
      var before := results.Keys;
      MoveTo(t);
      AdvanceKeeps(c, n, t);
      if StopsAtEvent(c, n, t) { AdvanceNoOverrun(c, n, t); }
      r := Ok(InOrder(results.Keys - before, Zeroes(results.Keys)));
    }

    /** Transfer, complete and admit. */
    method MoveTo(t: real)
      requires ValidNet(c, Snapshot()) && now <= t
      modifies this
      ensures Snapshot() == Advance(c, old(Snapshot()), t)
    {
      ghost var n := Snapshot();
      var rates := CurrentRates();
      Transmit(rates, t - now);
      assert Snapshot() == Moved(c, n, t);
      MovedKeeps(c, n, t);
      CompleteFinished();
      SettleKeeps(c, Moved(c, n, t));
      Activate();
    }

    /** `add_flow`. */
    method Add(flow: Flow) returns (error: Option<NetworkError>)
      requires Valid() && ValidFlow(c.topo, flow)
      modifies this
      ensures Valid()
      ensures error == Some(DuplicateFlow) <==> flow.id in old(states)
      ensures error == Some(StartsBeforeNow) <==> flow.id !in old(states) && flow.earliest < old(now) - c.epsTime
      ensures error.Some? ==> (error.value == DuplicateFlow || error.value == StartsBeforeNow) && Snapshot() == old(Snapshot())
      ensures error.None? ==> Snapshot() == AddFlow(c, old(Snapshot()), flow)
    {
      if flow.id in states { return Some(DuplicateFlow); }
      if flow.earliest < now - c.epsTime { return Some(StartsBeforeNow); }
      ghost var n := Snapshot();
      states := states[flow.id := NewState(c.topo, flow)];
      served := served[flow.id := 0.0];
      CountBytes(flow.route, flow.nbytes);
      assert Snapshot() == Joined(c.topo, n, flow);
      JoinKeepsFlows(c, n, flow);
      Activate();
      AddFlowKeeps(c, n, flow);
      error := None;
    }

    method CountBytes(route: seq<LinkId>, nbytes: nat)
      requires forall l | l in route :: l in linkBytes.Keys
      modifies this`linkBytes
      ensures linkBytes == WithBytes(old(linkBytes), route, nbytes)
    {
      var i := 0;
      while i < |route|
        invariant 0 <= i <= |route|
        invariant linkBytes.Keys == old(linkBytes).Keys
        invariant WithBytes(linkBytes, route[i..], nbytes) == WithBytes(old(linkBytes), route, nbytes)
      {
        assert route[i..][0] == route[i] && route[i..][1..] == route[i + 1..];
        linkBytes := linkBytes[route[i] := linkBytes[route[i]] + nbytes];
        i := i + 1;
      }
      assert route[i..] == [];
    }

    /** `run`: the deadlock error is unreachable, every flow finishes, the loop
        takes at most two events per flow, and no link goes over its limit. */
    method Run() returns (events: nat)
      requires Valid()
      modifies this
      ensures Valid() && states.Keys == old(states).Keys
      ensures results.Keys == states.Keys
      ensures forall f | f in states.Keys :: states[f].flow == old(states)[f].flow
      ensures events <= 2 * |states.Keys|
      ensures old(LimitsKept(c.topo, Snapshot())) ==> LimitsKept(c.topo, Snapshot())
    {
      events := 0;
      WorkBound(c, Snapshot());
      while results.Keys != states.Keys
        invariant Valid() && Forward(old(Snapshot()), Snapshot())
        invariant old(LimitsKept(c.topo, Snapshot())) ==> LimitsKept(c.topo, Snapshot())
        invariant events + Work(c, Snapshot()) <= 2 * |states.Keys|
        decreases Work(c, Snapshot())
      {
        ghost var n := Snapshot();
        RunEvent();
        ForwardChains(old(Snapshot()), n, Snapshot());
        events := events + 1;
      }
    }

    /** One turn of `run`: advance to the next event, which exists. */
    method RunEvent()
      requires Valid() && results.Keys != states.Keys
      modifies this
      ensures Valid() && Forward(old(Snapshot()), Snapshot())
      ensures Work(c, Snapshot()) < Work(c, old(Snapshot()))
      ensures old(LimitsKept(c.topo, Snapshot())) ==> LimitsKept(c.topo, Snapshot())
    {
      ghost var n := Snapshot();
      ghost var t := RunStep(c, n);
      var next := NextEventTime();
      if next.None? {
        assert false;  // no deadlock
      }
      var completed := AdvanceTo(next.value);
      RunStepWork(c, n, t, Snapshot());
    }
  }

  /** The target lies beyond the next event by more than the tolerance. */
  ghost predicate Crosses(c: Config, n: Net, t: real)
    requires ValidConfig(c) && FlowsOk(c, n)
  {
    NextEvent(c, n).Some? && t > NextEvent(c, n).value + c.epsTime
  }

  ghost predicate HasSent(n: Net, R: Rates, d: real, f: FlowId, st: FlowState, served: real)
    requires RatesPositive(R) && f in R && f in n.states && f in n.served
  {
    st == Sent(n.states[f], R[f], n.now, d) && served == n.served[f] + R[f] * d
  }

  lemma TransferIsUnique(n: Net, R: Rates, d: real, n': Net)
    requires RatesPositive(R) && n.states.Keys == n.served.Keys
    requires n' == n.(now := n.now + d, states := n'.states, served := n'.served)
    requires n'.states.Keys == n.states.Keys && n'.served.Keys == n.served.Keys
    requires forall f | f in n.states.Keys && f !in R.Keys :: n'.states[f] == n.states[f] && n'.served[f] == n.served[f]
    requires forall f {:trigger HasSent(n, R, d, f, n'.states[f], n'.served[f])} | f in n.states.Keys && f in R.Keys ::
      HasSent(n, R, d, f, n'.states[f], n'.served[f])
    ensures n' == Transfer(n, R, d)
  {
    var m := Transfer(n, R, d);
    forall f | f in n.states.Keys
      ensures m.states[f] == n'.states[f] && m.served[f] == n'.served[f]
    {
      assert MovesTo(n, R, d, m, f);
      assert f in R.Keys ==> HasSent(n, R, d, f, n'.states[f], n'.served[f]);
    }
  }

  /** An active flow is counted in every slot it holds. */
  lemma HeldSlots(c: Config, n: Net, f: FlowId)
    requires ValidConfig(c) && FlowsOk(c, n) && CountersOk(c.topo, n) && f in n.states
    ensures n.states[f].status.Active? ==> forall l | l in n.inflight.Keys :: Occurrences(n.states[f].flow.route, l) <= n.inflight[l]
  {
    assert FlowOk(c, n, f);
    if n.states[f].status.Active? {
      forall l | l in n.inflight.Keys
        ensures Occurrences(n.states[f].flow.route, l) <= n.inflight[l]
      {
        OccupancyCoversFlow(c.topo, n, f, l);
      }
    }
  }

  /** While flows are unfinished there is an event to go to. */
  lemma RunStep(c: Config, n: Net) returns (t: real)
    requires ValidNet(c, n) && n.results.Keys != n.states.Keys
    ensures NextEvent(c, n) == Some(t) && StopsAtEvent(c, n, t)
  {
    var f := SomeUnfinished(c, n);
    NoDeadlock(c, n, f);
    t := NextEvent(c, n).value;
    NextEventIsLater(c, n);
  }

  lemma RunStepWork(c: Config, n: Net, t: real, n': Net)
    requires ValidNet(c, n) && NextEvent(c, n) == Some(t) && n' == Advance(c, n, t)
    ensures Forward(n, n') && Work(c, n') < Work(c, n)
    ensures LimitsKept(c.topo, n) ==> LimitsKept(c.topo, n')
  {
    NextEventIsLater(c, n);
    AdvanceKeeps(c, n, t);
    EventProgress(c, n);
    if LimitsKept(c.topo, n) { AdvanceKeepsLimits(c, n, t); }
  }

  lemma SomeUnfinished(c: Config, n: Net) returns (f: FlowId)
    requires ValidNet(c, n) && n.results.Keys != n.states.Keys
    ensures Unfinished(n, f)
  {
    f :| f in n.states.Keys && f !in n.results.Keys;
    assert FlowOk(c, n, f);
  }
}
