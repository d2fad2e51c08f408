/** The reference network: a flow reserves its whole path. */
module SerialPaths {
  import opened Basics
  import opened Sums
  import opened NetTopology
  import opened NetService

  datatype Reservation = Reservation(flow: Flow, start: real, finish: real)

  predicate Shares(a: Reservation, b: Reservation) {
    exists l :: l in a.flow.route && l in b.flow.route
  }

  /** Reservation k lasts as long as the flow takes alone, and starts as soon as
      it may: when released, or when a flow it shares a link with ends. */
  ghost predicate ReservedOk(topo: Topology, log: seq<Reservation>, k: nat) {
    && ValidTopology(topo) && k < |log| && ValidFlow(topo, log[k].flow)
    && log[k].finish == log[k].start + RouteLatency(topo, log[k].flow.route) + Unloaded(topo, log[k].flow)
    && log[k].start >= log[k].flow.earliest
    && (log[k].start == log[k].flow.earliest || exists j :: 0 <= j < k && Shares(log[j], log[k]) && log[j].finish == log[k].start)
  }

  /** Of two flows on one link, the later one starts when the earlier is over. */
  predicate Serial(log: seq<Reservation>, j: nat, k: nat) {
    j < |log| && k < |log| && (Shares(log[j], log[k]) ==> log[j].finish <= log[k].start)
  }

  ghost predicate LogOk(topo: Topology, log: seq<Reservation>) {
    && (forall k: nat {:trigger ReservedOk(topo, log, k)} | k < |log| :: ReservedOk(topo, log, k))
    && (forall j: nat, k: nat {:trigger Serial(log, j, k)} | j < k < |log| :: Serial(log, j, k))
  }

  /** Link l is free from t on. */
  ghost predicate FreeFrom(log: seq<Reservation>, l: LinkId, t: real) {
    && t >= 0.0
    && (forall k | 0 <= k < |log| && l in log[k].flow.route :: log[k].finish <= t)
    && (t == 0.0 || exists k :: 0 <= k < |log| && l in log[k].flow.route && log[k].finish == t)
  }

  ghost function BytesOn(log: seq<Reservation>, l: LinkId): real {
    if log == [] then 0.0
    else
      var flow := log[|log| - 1].flow;
      BytesOn(log[..|log| - 1], l) + Repeated(Occurrences(flow.route, l), flow.nbytes as real)
  }

  ghost predicate ReadyOk(log: seq<Reservation>, ready: map<LinkId, real>, l: LinkId) {
    l in ready && FreeFrom(log, l, ready[l])
  }

  ghost predicate BytesOk(log: seq<Reservation>, bytes: map<LinkId, nat>, l: LinkId) {
    l in bytes && bytes[l] as real == BytesOn(log, l)
  }

  ghost predicate TablesOk(topo: Topology, log: seq<Reservation>, ready: map<LinkId, real>, bytes: map<LinkId, nat>) {
    && ready.Keys == topo.links.Keys == bytes.Keys
    && (forall l {:trigger ReadyOk(log, ready, l)} | l in topo.links.Keys :: ReadyOk(log, ready, l))
    && (forall l {:trigger BytesOk(log, bytes, l)} | l in topo.links.Keys :: BytesOk(log, bytes, l))
  }

  /** The first moment all links of the route are free. */
  ghost predicate IsReady(ready: map<LinkId, real>, flow: Flow, t: real) {
    && t >= flow.earliest && (forall l | l in flow.route :: l in ready && ready[l] <= t)
    && (t == flow.earliest || exists l :: l in flow.route && l in ready && ready[l] == t)
  }

  lemma FirstStartIsSerial(topo: Topology, log: seq<Reservation>, ready: map<LinkId, real>, bytes: map<LinkId, nat>, r: Reservation)
    requires LogOk(topo, log) && TablesOk(topo, log, ready, bytes) && ValidTopology(topo) && ValidFlow(topo, r.flow)
    requires IsReady(ready, r.flow, r.start)
    requires r.finish == r.start + RouteLatency(topo, r.flow.route) + Unloaded(topo, r.flow)
    ensures LogOk(topo, log + [r])
  {
    var now, n := log + [r], |log|;
    forall k: nat | k < |now|
      ensures ReservedOk(topo, now, k)
    {
      if k < n {
        EarlierReserved(topo, log, r, k);
      } else if r.start != r.flow.earliest {
        var l :| l in r.flow.route && l in ready && ready[l] == r.start;
        assert ReadyOk(log, ready, l);
        var j :| 0 <= j < |log| && l in log[j].flow.route && log[j].finish == r.start;
        assert now[j] == log[j] && now[n] == r && Shares(now[j], now[n]);
      }
    }
    forall j: nat, k: nat | j < k < |now|
      ensures Serial(now, j, k)
    {
      if k < n {
        assert Serial(log, j, k);
      } else if Shares(now[j], now[k]) {
        var l :| l in now[j].flow.route && l in now[k].flow.route;
        assert ReadyOk(log, ready, l);
        assert log[j].finish <= ready[l];
      }
    }
  }

  lemma EarlierReserved(topo: Topology, log: seq<Reservation>, r: Reservation, k: nat)
    requires LogOk(topo, log) && k < |log|
    ensures ReservedOk(topo, log + [r], k)
  {
    var now := log + [r];
    assert ReservedOk(topo, log, k) && now[k] == log[k];
    if log[k].start != log[k].flow.earliest {
      var j :| 0 <= j < k && Shares(log[j], log[k]) && log[j].finish == log[k].start;
      assert now[j] == log[j] && Shares(now[j], now[k]);
    }
  }

  lemma NextFree(log: seq<Reservation>, l: LinkId, t: real, r: Reservation)
    requires FreeFrom(log, l, t)
    ensures l !in r.flow.route ==> FreeFrom(log + [r], l, t)
    ensures l in r.flow.route && t <= r.finish ==> FreeFrom(log + [r], l, r.finish)
  {
    var now := log + [r];
    assert now[|log|] == r;
    if k :| 0 <= k < |log| && l in log[k].flow.route && log[k].finish == t {
      assert now[k] == log[k];
    }
  }

  /** The times after reserving r. */
  predicate IsTaken(ready: map<LinkId, real>, r: Reservation, ready': map<LinkId, real>) {
    ready'.Keys == ready.Keys && forall l | l in ready.Keys :: ready'[l] == if l in r.flow.route then r.finish else ready[l]
  }

  function WithFinish(ready: map<LinkId, real>, route: seq<LinkId>, t: real): (m: map<LinkId, real>)
    requires forall l | l in route :: l in ready.Keys
    ensures m.Keys == ready.Keys
    decreases route
  {
    if route == [] then ready else WithFinish(ready[route[0] := t], route[1..], t)
  }

  lemma {:induction false} FinishSet(ready: map<LinkId, real>, r: Reservation, route: seq<LinkId>)
    requires r.flow.route == route && forall l | l in route :: l in ready.Keys
    ensures IsTaken(ready, r, WithFinish(ready, route, r.finish))
    decreases route
  {
    if route != [] {
      FinishSet(ready[route[0] := r.finish], r.(flow := r.flow.(route := route[1..])), route[1..]);
    }
  }

  lemma ReadyNext(log: seq<Reservation>, ready: map<LinkId, real>, r: Reservation, ready': map<LinkId, real>, l: LinkId)
    requires ReadyOk(log, ready, l) && IsReady(ready, r.flow, r.start) && r.start <= r.finish && IsTaken(ready, r, ready')
    ensures ReadyOk(log + [r], ready', l)
  {
    NextFree(log, l, ready[l], r);
  }

  lemma BytesNext(log: seq<Reservation>, bytes: map<LinkId, nat>, r: Reservation, l: LinkId)
    requires BytesOk(log, bytes, l) && forall k | k in r.flow.route :: k in bytes
    ensures BytesOk(log + [r], WithBytes(bytes, r.flow.route, r.flow.nbytes), l)
  {
    assert (log + [r])[..|log|] == log;
    BytesAdded(bytes, r.flow.route, r.flow.nbytes, l);
  }

  lemma TablesNext(topo: Topology, log: seq<Reservation>, ready: map<LinkId, real>, bytes: map<LinkId, nat>, r: Reservation, ready': map<LinkId, real>)
    requires TablesOk(topo, log, ready, bytes) && ValidFlow(topo, r.flow) && IsReady(ready, r.flow, r.start) && r.start <= r.finish
    requires IsTaken(ready, r, ready')
    ensures TablesOk(topo, log + [r], ready', WithBytes(bytes, r.flow.route, r.flow.nbytes))
  {
    var bytes' := WithBytes(bytes, r.flow.route, r.flow.nbytes);
    forall l | l in topo.links.Keys
      ensures ReadyOk(log + [r], ready', l)
    {
      assert ReadyOk(log, ready, l);
      ReadyNext(log, ready, r, ready', l);
    }
    forall l | l in topo.links.Keys
      ensures BytesOk(log + [r], bytes', l)
    {
      assert BytesOk(log, bytes, l);
      BytesNext(log, bytes, r, l);
    }
  }

  class SerializedPathScheduler {
    const topo: Topology
    var linkReady: map<LinkId, real>
    var linkBytes: map<LinkId, nat>
    /** Every reservation so far; not part of the program's state. */
    ghost var log: seq<Reservation>

    ghost predicate Valid()
      reads this
    {
      ValidTopology(topo) && LogOk(topo, log) && TablesOk(topo, log, linkReady, linkBytes)
    }

    constructor (topo: Topology)
      requires ValidTopology(topo)
      ensures Valid() && this.topo == topo && log == []
    {
      this.topo := topo;
      linkReady := map l | l in topo.links.Keys :: 0.0;
      linkBytes := map l | l in topo.links.Keys :: 0;
      log := [];
    }

    /** When the flow can have its whole path. */
    method ReadyTime(flow: Flow) returns (t: real)
      requires Valid() && ValidFlow(topo, flow)
      ensures IsReady(linkReady, flow, t)
    {
      t := flow.earliest;
      for i := 0 to |flow.route|
        invariant t >= flow.earliest && forall k | 0 <= k < i :: linkReady[flow.route[k]] <= t
        invariant t == flow.earliest || exists l :: l in flow.route && l in linkReady && linkReady[l] == t
      {
        t := Max(t, linkReady[flow.route[i]]);
      }
    }

    /** Every link of the route is taken until the end, and carries the bytes. */
    method Reserve(r: Reservation)
      requires forall l | l in r.flow.route :: l in linkReady && l in linkBytes
      modifies this`linkReady, this`linkBytes
      ensures IsTaken(old(linkReady), r, linkReady) && linkBytes == WithBytes(old(linkBytes), r.flow.route, r.flow.nbytes)
    {
      var route := r.flow.route;
      for i := 0 to |route|
        invariant linkReady.Keys == old(linkReady).Keys && linkBytes.Keys == old(linkBytes).Keys
        invariant WithFinish(linkReady, route[i..], r.finish) == WithFinish(old(linkReady), route, r.finish)
        invariant WithBytes(linkBytes, route[i..], r.flow.nbytes) == WithBytes(old(linkBytes), route, r.flow.nbytes)
      {
        assert route[i..][0] == route[i] && route[i..][1..] == route[i + 1..];
        linkReady := linkReady[route[i] := r.finish];
        linkBytes := linkBytes[route[i] := linkBytes[route[i]] + r.flow.nbytes];
      }
      assert route[|route|..] == [];
      FinishSet(old(linkReady), r, route);
    }

    /** `schedule`: the flow starts as soon as its whole path is free, and takes
        as long as on an idle path, so the wait is all that is added to the
        unloaded estimate. */
    method Schedule(flow: Flow) returns (r: Reservation)
      requires Valid() && ValidFlow(topo, flow)
      modifies this
      ensures Valid() && r.flow == flow && log == old(log) + [r]
      ensures r.finish == IdealFinish(topo, flow) + (r.start - flow.earliest) && r.finish >= IdealFinish(topo, flow)
      ensures IsReady(old(linkReady), flow, r.start)
    {
      var start := ReadyTime(flow);
      var finish := start + RouteLatency(topo, flow.route) + Unloaded(topo, flow);
      r := Reservation(flow, start, finish);
      ghost var before := linkReady;
      ghost var bytes := linkBytes;
      Reserve(r);
      FirstStartIsSerial(topo, log, before, bytes, r);
      TablesNext(topo, log, before, bytes, r, linkReady);
      log := log + [r];
    }
  }

  /** At no moment do two flows use one link. */
  lemma LinkIsExclusive(topo: Topology, log: seq<Reservation>, j: nat, k: nat, l: LinkId, t: real)
    requires LogOk(topo, log) && j < |log| && k < |log| && j != k && l in log[j].flow.route && l in log[k].flow.route
    ensures !(log[j].start < t < log[j].finish && log[k].start < t < log[k].finish)
  {
    assert Shares(log[j], log[k]) && Shares(log[k], log[j]);
    if j < k { assert Serial(log, j, k); } else { assert Serial(log, k, j); }
  }
}
