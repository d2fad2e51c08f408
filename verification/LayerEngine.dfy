/** The coupled network and compute event loop of one layer. */
module LayerEngines {
  import opened Basics
  import opened FairShare
  import opened NetTopology
  import opened NetModel
  import opened NetEvents
  import opened NetRuns
  import opened NetService
  import opened FluidNetworks
  import opened Layers
  import opened LayerArrivals
  import opened LayerModel
  import opened LayerSchedule
  import opened LayerInvariant
  import opened LayerCore

  class LayerEngine {
    const L: Layer
    const net: FluidNetwork
    var seen: set<FlowId>
    var arrived: Arrivals
    var ready: Queues
    var running: set<ChipId>
    var heap: set<Key>
    var executions: Executions
    var combined: map<AssignmentId, real>
    var combineReady: CombineReady
    var launched: set<nat>
    ghost var log: Log

    ghost function State(): Engine
      reads this
    {
      Engine(seen, arrived, ready, running, heap, executions, combined, combineReady, launched, log)
    }

    ghost predicate Consistent()
      reads this, net
    {
      Sound(net.c, net.Snapshot(), L, State())
    }

    /** Everything executed so far arrived before the present moment. */
    ghost predicate Caught()
      reads this, net
    {
      ArrivedBefore(executions, net.now + net.c.epsTime)
    }

    constructor (topo: Topology, epsTime: real, epsBytes: real, layer: Layer)
      requires ValidTopology(topo) && epsTime >= 0.0 && epsBytes >= 0.0 && ValidLayer(topo, layer)
      ensures fresh(net) && L == layer && net.c.topo == topo && net.c.epsTime == epsTime && net.c.epsBytes == epsBytes
      ensures Resting()
      ensures Left() <= 2 * |L.outward.groups| + 2 * |L.inward.groups| + |Replicas(L)|
    {
      L := layer;
      net := new FluidNetwork(topo, epsTime, epsBytes);
      seen, running, heap, launched := {}, {}, {}, {};
      arrived := map r | r in Replicas(layer) :: map[];
      ready := map chip | chip in Chips(layer) :: [];
      log := map chip | chip in Chips(layer) :: [];
      executions, combined, combineReady := map[], map[], NoneReady(layer);
      new;
      Begin();
    }

    /** Send all dispatch flows and start what is there at once. */
    method Begin()
      requires net.Valid() && net.states == map[] && net.results == map[] && net.now == 0.0
      requires ValidLayer(net.c.topo, L) && IsFresh(L, State())
      modifies this, net
      ensures Resting() && Left() <= 2 * |L.outward.groups| + 2 * |L.inward.groups| + |Replicas(L)|
    {
      SendDispatch(net, L);
      FreshIsSound(net.c, net.Snapshot(), L, State());
      FreshIsHandled(net.c, L, State());
      WorkBound(net.c, net.Snapshot());
      StartLeft(net.Snapshot(), L, State());
      AcceptAll();
      ScheduleReady();
    }

    // ----- accepting network results -----

    method RecordArrivals(xs: seq<AssignmentId>, t: real)
      requires Known(L, arrived, xs)
      modifies this`arrived
      ensures arrived == ArriveAll(L, old(arrived), xs, t)
    {
      var i := 0;
      while i < |xs|
        invariant 0 <= i <= |xs|
        invariant Known(L, arrived, xs[i..])
        invariant ArriveAll(L, arrived, xs[i..], t) == ArriveAll(L, old(arrived), xs, t)
      {
        assert xs[i..][0] == xs[i] && xs[i..][1..] == xs[i + 1..];
        var r := ReplicaOf(L, xs[i]);
        arrived := arrived[r := arrived[r][xs[i] := t]];
        i := i + 1;
      }
      assert xs[i..] == [];
    }

    /** Queue the touched batches that are now complete. */
    method EnqueueTouched(rs: seq<ReplicaId>)
      requires forall i {:trigger rs[i]} | 0 <= i < |rs| :: Placed(L, ready.Keys, rs[i])
      requires forall r | r in Replicas(L) :: r in arrived && arrived[r].Keys <= Members(L, r)
      modifies this`ready
      ensures ready == EnqueueAll(L, arrived, old(ready), rs)
    {
      var i := 0;
      while i < |rs|
        invariant 0 <= i <= |rs|
        invariant ready.Keys == old(ready).Keys
        invariant EnqueueAll(L, arrived, ready, rs[i..]) == EnqueueAll(L, arrived, old(ready), rs)
      {
        assert rs[i..][0] == rs[i] && rs[i..][1..] == rs[i + 1..];
        var r := rs[i];
        assert Placed(L, ready.Keys, r);
        SameSize(arrived[r].Keys, Members(L, r));
        if |arrived[r].Keys| == |Members(L, r)| {
          MembersNonEmpty(L, r);
          var arrival := MaxValue(arrived[r]);
          ready := ready[L.chipOf[r] := InsertKey(ready[L.chipOf[r]], Key(arrival, r))];
        }
        i := i + 1;
      }
      assert rs[i..] == [];
    }

    /** Record the arrivals a dispatch flow brings, then queue what is complete. */
    method RecordDispatch(g: nat, t: real)
      requires ValidLayer(net.c.topo, L) && g < |L.outward.groups| && ready.Keys == Chips(L)
      requires ArrivalsOk(L, net.results, seen, arrived)
      requires OutId(g) !in seen && OutId(g) in net.results && net.results[OutId(g)] == t
      modifies this`arrived, this`ready
      ensures Accepts(L, g, t, old(arrived), old(ready), arrived, ready)
    {
      var xs := L.outward.groups[g];
      GroupKnown(net.c.topo, L, g);
      AcceptArrivals(net.c.topo, L, g, t, net.results, seen, arrived);
      RecordArrivals(xs, t);
      var touched := set a | a in xs :: ReplicaOf(L, a);
      assert touched == Touched(L, xs);
      EnqueueTouched(InOrder(touched, Zeroes(touched)));
    }

    method AcceptDispatch(g: nat)
      requires Consistent() && Caught() && g < |L.outward.groups| && OutId(g) in net.results && OutId(g) !in seen
      modifies this`seen, this`arrived, this`ready
      ensures Consistent() && seen == old(seen) + {OutId(g)}
    {
      ghost var e, n := State(), net.Snapshot();
      SoundArrivals(net.c, n, L, e);
      RecordDispatch(g, net.results[OutId(g)]);
      SoundDispatch(net.c, n, L, e, g, arrived, ready);
      seen := seen + {OutId(g)};
      assert net.Snapshot() == n;
      assert State() == e.(seen := e.seen + {OutId(g)}, arrived := arrived, ready := ready);
    }

    method RecordCombines(xs: seq<AssignmentId>, t: real)
      modifies this`combined
      ensures combined == CombineAll(old(combined), xs, t)
    {
      var i := 0;
      while i < |xs|
        invariant 0 <= i <= |xs|
        invariant CombineAll(combined, xs[i..], t) == CombineAll(old(combined), xs, t)
      {
        assert xs[i..][0] == xs[i] && xs[i..][1..] == xs[i + 1..];
        combined := combined[xs[i] := t];
        i := i + 1;
      }
      assert xs[i..] == [];
    }

    method AcceptCombineFlow(h: nat)
      requires Consistent() && h < |L.inward.groups| && BackId(L, h) in net.results && BackId(L, h) !in seen
      modifies this`seen, this`combined
      ensures Consistent() && seen == old(seen) + {BackId(L, h)}
    {
      SoundCombine(net.c, net.Snapshot(), L, State(), h);
      RecordCombines(L.inward.groups[h], net.results[BackId(L, h)]);
      seen := seen + {BackId(L, h)};
    }

    /** `accept_network_results`: take note of each finished flow once. */
    method Accept(fs: seq<FlowId>)
      requires Consistent() && Caught() && forall f | f in fs :: f in net.results
      modifies this`seen, this`arrived, this`ready, this`combined
      ensures Consistent() && forall f :: f in seen <==> f in old(seen) || f in fs
    {
      var i := 0;
      while i < |fs|
        invariant 0 <= i <= |fs| && Consistent()
        invariant forall f :: f in seen <==> f in old(seen) || f in fs[..i]
      {
        assert fs[..i + 1] == fs[..i] + [fs[i]];
        AcceptOne(fs[i]);
        i := i + 1;
      }
      assert fs[..i] == fs;
    }

    method AcceptOne(f: FlowId)
      requires Consistent() && Caught() && f in net.results
      modifies this`seen, this`arrived, this`ready, this`combined
      ensures Consistent() && seen == old(seen) + {f}
    {
      if f !in seen {
        if f < |L.outward.groups| {
          AcceptDispatch(f);
        } else {
          assert Core(net.c, net.Snapshot(), L, State());
          LaunchedFlow(net.c, net.Snapshot(), L, State(), f);
          AcceptCombineFlow(f - |L.outward.groups|);
        }
      }
    }

    method AcceptAll()
      requires Consistent() && Caught()
      modifies this`seen, this`arrived, this`ready, this`combined
      ensures Consistent() && seen == net.results.Keys
    {
      assert Core(net.c, net.Snapshot(), L, State());
      var fs := InOrder(net.results.Keys, Zeroes(net.results.Keys));
      Accept(fs);
    }

    // ----- batches end and combine flows start -----

    /** Take the earliest batch off the heap and free its chip. */
    method PopEarliest(k: Key)
      requires Consistent() && k in heap && k.time <= net.now + net.c.epsTime
      modifies this`heap, this`running
      ensures Consistent() && heap == old(heap) - {k}
      ensures k.id in executions && k.id in Replicas(L) && net.now <= executions[k.id].finish
      ensures !Computed(executions, old(heap), k.id)
      ensures forall r :: Computed(executions, heap, r) <==> Computed(executions, old(heap), r) || r == k.id
      ensures |Uncomputed(L, executions, heap)| == |Uncomputed(L, executions, old(heap))| - 1
    {
      SoundPop(net.c, net.Snapshot(), L, State(), k);
      heap := heap - {k};
      running := running - {executions[k.id].chip};
    }

    /** `done` was popped since the heap was `heap0`. */
    ghost predicate Popped(heap0: set<Key>, done: set<ReplicaId>)
      reads this, net
    {
      && (forall r | r in done :: r in executions && net.now <= executions[r].finish && !Computed(executions, heap0, r))
      && (forall r :: Computed(executions, heap, r) <==> Computed(executions, heap0, r) || r in done)
      && |Uncomputed(L, executions, heap)| <= |Uncomputed(L, executions, heap0)|
      && (heap != heap0 ==> |Uncomputed(L, executions, heap)| < |Uncomputed(L, executions, heap0)|)
    }

    /** Take the batches off the heap that are over by now. */
    method PopDue() returns (done: set<ReplicaId>)
      requires Consistent()
      modifies this`heap, this`running
      ensures Consistent() && Popped(old(heap), done)
      ensures heap <= old(heap) && forall k | k in heap :: net.now + net.c.epsTime < k.time
    {
      done := {};
      while heap != {}
        invariant Consistent() && heap <= old(heap) && Popped(old(heap), done)
        decreases heap
      {
        var k := Least(heap);
        if k.time > net.now + net.c.epsTime { break; }
        PopEarliest(k);
        done := done + {k.id};
      }
    }

    /** Combine flows still to start, and network events still to come. */
    ghost function ToSend(): nat
      reads this, net
    {
      Work(net.c, net.Snapshot()) + 2 * |Unlaunched(L, launched)|
    }

    method LaunchCombine(h: nat, release: real)
      requires Consistent() && h < |L.inward.groups| && h !in launched
      requires ReleaseOf(L, executions, h, release) && net.now <= release
      modifies this`launched, net
      ensures Consistent() && launched == old(launched) + {h} && net.now == old(net.now)
      ensures ToSend() <= old(ToSend())
    {
      ghost var n, e := net.Snapshot(), State();
      SoundLaunch(net.c, n, L, e, h, release);
      Send(net, BackFlow(L, h, release));
      launched := launched + {h};
      assert State() == e.(launched := e.launched + {h});
    }

    /** Send one member of a finished batch back on its own. */
    method LaunchMember(a: AssignmentId, ghost sent: set<AssignmentId>)
      requires Consistent() && ValidLayer(net.c.topo, L) && !L.reduceChip && a < |L.bindings| && a !in sent
      requires ReplicaOf(L, a) in executions && net.now <= executions[ReplicaOf(L, a)].finish && LaunchedOk(L, sent, launched)
      modifies this`launched, net
      ensures Consistent() && LaunchedOk(L, sent + {a}, launched)
      ensures net.now == old(net.now) && ToSend() <= old(ToSend())
    {
      RestOfLaunch(L, sent, launched, a);
      LoneRelease(L, executions, L.inward.of[a], a);
      LaunchCombine(L.inward.of[a], executions[ReplicaOf(L, a)].finish);
    }

    /** Without chip-level reduction every member of a batch is sent back. */
    method LaunchBatch(r: ReplicaId, ghost done: set<AssignmentId>)
      requires Consistent() && ValidLayer(net.c.topo, L) && !L.reduceChip
      requires r in executions && net.now <= executions[r].finish
      requires LaunchedOk(L, done, launched) && Members(L, r) !! done
      modifies this`launched, net
      ensures Consistent() && LaunchedOk(L, done + Members(L, r), launched)
      ensures net.now == old(net.now) && ToSend() <= old(ToSend())
    {
      var xs := InOrder(Members(L, r), Zeroes(Members(L, r)));
      ghost var sent := done;
      var i := 0;
      while i < |xs|
        invariant 0 <= i <= |xs| && Consistent() && LaunchedOk(L, sent, launched)
        invariant sent == done + ElementSet(xs[..i])
        invariant net.now == old(net.now) && ToSend() <= old(ToSend())
      {
        MemberToSend(L, r, xs, i, done);
        LaunchMember(xs[i], sent);
        sent := sent + {xs[i]};
        i := i + 1;
      }
      AllSent(L, r, xs, done);
    }

    /** With chip-level reduction the finish of each member is noted. */
    method RecordBatch(r: ReplicaId, ghost done: set<AssignmentId>)
      requires ValidLayer(net.c.topo, L) && r in executions && RecordedOk(L, executions, done, combineReady)
      modifies this`combineReady
      ensures RecordedOk(L, executions, done + Members(L, r), combineReady)
    {
      var xs := InOrder(Members(L, r), Zeroes(Members(L, r)));
      ghost var noted := done;
      var i := 0;
      while i < |xs|
        invariant 0 <= i <= |xs| && RecordedOk(L, executions, noted, combineReady)
        invariant noted == done + ElementSet(xs[..i])
      {
        NextElement(xs, i);
        RecordKeeps(net.c.topo, L, executions, noted, combineReady, xs[i]);
        var h := L.inward.of[xs[i]];
        combineReady := combineReady[h := combineReady[h][xs[i] := executions[r].finish]];
        noted := noted + {xs[i]};
        i := i + 1;
      }
      assert xs[..i] == xs && ElementSet(xs) == Members(L, r);
    }

    /** Launch the combine flow of a group once all its members are noted. */
    method LaunchGroup(h: nat, ghost before: set<AssignmentId>, ghost done: set<AssignmentId>)
      requires Consistent() && ValidLayer(net.c.topo, L) && L.reduceChip && h < |L.inward.groups|
      requires RecordedOk(L, executions, done, combineReady) && LaunchedAt(L, before, launched, h) && before <= done
      requires forall a | a in done && a !in before && a < |L.bindings| && ReplicaOf(L, a) in executions ::
        net.now <= executions[ReplicaOf(L, a)].finish
      modifies this`launched, net
      ensures Consistent() && LaunchedAt(L, done, launched, h)
      ensures forall k | k != h :: k in launched <==> k in old(launched)
      ensures net.now == old(net.now) && ToSend() <= old(ToSend())
    {
      GroupNoted(net.c.topo, L, executions, done, combineReady, h);
      AllRecorded(net.c.topo, L, executions, done, combineReady, h);
      if h !in launched && |combineReady[h].Keys| == |L.inward.groups[h]| {
        GroupRelease(net.c, net.Snapshot(), L, State(), before, done, h);
        var latest := MaxValue(combineReady[h]);
        LaunchCombine(h, latest + L.reduceLatency);
      }
    }

    /** The batches just computed, and the assignments done before and after. */
    ghost predicate JustDone(batches: set<ReplicaId>, before: set<AssignmentId>, done: set<AssignmentId>)
      reads this, net
    {
      && (forall r | r in batches :: r in executions && net.now <= executions[r].finish)
      && (forall a {:trigger a in done} | a in done :: a in before || (a < |L.bindings| && ReplicaOf(L, a) in batches))
      && before <= done && (forall r | r in batches :: Members(L, r) <= done && Members(L, r) !! before)
    }

    lemma WholeBatch(batches: set<ReplicaId>, rs: seq<ReplicaId>, before: set<AssignmentId>, done: set<AssignmentId>)
      requires JustDone(batches, before, done) && forall r :: r in rs <==> r in batches
      ensures before + Batch(L, rs) == done
    {
      forall a | a in Batch(L, rs)
        ensures a in done
      {
        assert a in Members(L, ReplicaOf(L, a));
      }
    }

    method LaunchBatches(batches: set<ReplicaId>, ghost before: set<AssignmentId>, ghost done: set<AssignmentId>)
      requires Consistent() && ValidLayer(net.c.topo, L) && !L.reduceChip
      requires JustDone(batches, before, done) && LaunchedOk(L, before, launched)
      modifies this`launched, net
      ensures Consistent() && LaunchedOk(L, done, launched)
      ensures net.now == old(net.now) && ToSend() <= old(ToSend())
    {
      var rs := InOrder(batches, Zeroes(batches));
      ghost var sent := before;
      var i := 0;
      while i < |rs|
        invariant 0 <= i <= |rs| && Consistent() && LaunchedOk(L, sent, launched)
        invariant sent == before + Batch(L, rs[..i])
        invariant net.now == old(net.now) && ToSend() <= old(ToSend())
      {
        NextBatch(L, rs, i);
        LaunchBatch(rs[i], sent);
        sent := sent + Members(L, rs[i]);
        i := i + 1;
      }
      assert rs[..i] == rs;
      WholeBatch(batches, rs, before, done);
    }

    method RecordBatches(batches: set<ReplicaId>, ghost before: set<AssignmentId>, ghost done: set<AssignmentId>)
      requires ValidLayer(net.c.topo, L) && JustDone(batches, before, done)
      requires RecordedOk(L, executions, before, combineReady)
      modifies this`combineReady
      ensures RecordedOk(L, executions, done, combineReady)
    {
      var rs := InOrder(batches, Zeroes(batches));
      ghost var noted := before;
      var i := 0;
      while i < |rs|
        invariant 0 <= i <= |rs| && RecordedOk(L, executions, noted, combineReady)
        invariant noted == before + Batch(L, rs[..i])
      {
        NextBatch(L, rs, i);
        RecordBatch(rs[i], noted);
        noted := noted + Members(L, rs[i]);
        i := i + 1;
      }
      assert rs[..i] == rs;
      WholeBatch(batches, rs, before, done);
    }

    method LaunchGroups(batches: set<ReplicaId>, ghost before: set<AssignmentId>, ghost done: set<AssignmentId>)
      requires Consistent() && ValidLayer(net.c.topo, L) && L.reduceChip && JustDone(batches, before, done)
      requires LaunchedOk(L, before, launched) && RecordedOk(L, executions, done, combineReady)
      modifies this`launched, net
      ensures Consistent() && LaunchedOk(L, done, launched)
      ensures net.now == old(net.now) && ToSend() <= old(ToSend())
    {
      var h := 0;
      while h < |L.inward.groups|
        invariant 0 <= h <= |L.inward.groups| && Consistent()
        invariant forall k: nat {:trigger LaunchedAt(L, done, launched, k)} | k < h :: LaunchedAt(L, done, launched, k)
        invariant forall k: nat {:trigger LaunchedAt(L, before, launched, k)} | h <= k < |L.inward.groups| :: LaunchedAt(L, before, launched, k)
        invariant net.now == old(net.now) && ToSend() <= old(ToSend())
      {
        ghost var launched0 := launched;
        assert LaunchedAt(L, before, launched, h);
        LaunchGroup(h, before, done);
        assert forall k: nat | k < h :: LaunchedAt(L, done, launched0, k) ==> LaunchedAt(L, done, launched, k);
        assert forall k: nat | h < k < |L.inward.groups| :: LaunchedAt(L, before, launched0, k) ==> LaunchedAt(L, before, launched, k);
        h := h + 1;
      }
    }

    /** Send back what has just been computed. */
    method LaunchCombines(batches: set<ReplicaId>, ghost before: set<AssignmentId>, ghost done: set<AssignmentId>)
      requires Consistent() && ValidLayer(net.c.topo, L)
      requires JustDone(batches, before, done) && Handled(L, State(), before)
      modifies this`launched, this`combineReady, net
      ensures Consistent() && Handled(L, State(), done)
      ensures net.now == old(net.now) && ToSend() <= old(ToSend())
    {
      if L.reduceChip {
        RecordBatches(batches, before, done);
        SoundNote(net.c, net.Snapshot(), L, old(State()), combineReady);
        LaunchGroups(batches, before, done);
      } else {
        LaunchBatches(batches, before, done);
      }
    }

    // ----- starting batches -----

    method StartBatch(chip: ChipId)
      requires chip in ready && chip in log && ready[chip] != [] && ready[chip][0].id in L.duration
      modifies this`ready, this`running, this`heap, this`executions, this`log
      ensures State() == Started(L, old(State()), chip, net.now)
    {
      var k := ready[chip][0];
      ready := ready[chip := ready[chip][1..]];
      var start := Max(net.now, k.time);
      var finish := start + L.duration[k.id];
      executions := executions[k.id := Execution(chip, |Members(L, k.id)|, k.time, start, finish)];
      running := running + {chip};
      heap := heap + {Key(finish, k.id)};
      log := log[chip := log[chip] + [k.id]];
    }

    /** Start the batch at the head of the queue if the chip is idle. */
    method StartOn(chip: ChipId)
      requires Consistent() && chip in ready
      modifies this`ready, this`running, this`heap, this`executions, this`log
      ensures Consistent() && StartsOnly(L, old(State()), State(), net.now, net.c.epsTime)
      ensures ready[chip] == [] || chip in running
    {
      if chip in running || ready[chip] == [] { return; }
      SoundStart(net.c, net.Snapshot(), L, State(), chip);
      if ready[chip][0].time > net.now + net.c.epsTime {
        assert false;  // no queued batch is still to arrive
      }
      StartBatch(chip);
    }

    /** Go over the chips in order. */
    method StartAll()
      requires Consistent()
      modifies this`ready, this`running, this`heap, this`executions, this`log
      ensures Consistent() && NoIdleWait(running, ready)
      ensures StartsOnly(L, old(State()), State(), net.now, net.c.epsTime)
    {
      var chips := InOrder(ready.Keys, Zeroes(ready.Keys));
      var i := 0;
      while i < |chips|
        invariant 0 <= i <= |chips| && Consistent()
        invariant StartsOnly(L, old(State()), State(), net.now, net.c.epsTime)
        invariant Visited(State(), chips[..i])
      {
        ghost var e := State();
        assert chips[i] in chips;
        StartOn(chips[i]);
        StartsOnlyChains(L, old(State()), e, State(), net.now, net.c.epsTime);
        VisitedStays(L, e, State(), net.now, net.c.epsTime, chips, i);
        i := i + 1;
      }
      assert chips[..i] == chips;
      AllVisited(State(), chips);
    }

    /** `schedule_ready`. */
    method ScheduleReady()
      requires Consistent() && seen == net.results.Keys && Handled(L, State(), ComputedSet(L, executions, heap))
      requires ArrivedBy(executions, net.now + net.c.epsTime) && LaterThan(heap, net.now)
      modifies this`ready, this`running, this`heap, this`executions, this`log
      ensures AtRest(net.c, net.Snapshot(), L, State())
      ensures StartsOnly(L, old(State()), State(), net.now, net.c.epsTime)
    {
      ghost var e := State();
      StartAll();
      StartsKeepHandled(L, e, State(), net.now, net.c.epsTime);
    }

    // ----- the event loop -----

    ghost predicate Resting()
      reads this, net
    {
      AtRest(net.c, net.Snapshot(), L, State())
    }

    /** Network events, combine flows and batches still to come. */
    ghost function Left(): nat
      reads this, net
    {
      ToSend() + |Uncomputed(L, executions, heap)|
    }

    method NextMoment() returns (t: real)
      requires Resting() && |combined| < |L.bindings|
      modifies net
      ensures net.Snapshot() == old(net.Snapshot()) && net.Valid()
      ensures IsNextMoment(net.c, net.Snapshot(), heap, t)
    {
      NeverStuck(net.c, net.Snapshot(), L, State());
      NextEventIsLater(net.c, net.Snapshot());
      var next := None;
      if net.results.Keys != net.states.Keys {
        ghost var t0 := RunStep(net.c, net.Snapshot());
        next := net.NextEventTime();
      } else {
        QuietNetwork(net.c, net.Snapshot());
      }
      if heap != {} {
        var k := Least(heap);
        t := if next.Some? && next.value <= k.time then next.value else k.time;
      } else if next.Some? {
        t := next.value;
      } else {
        assert false;  // no deadlock before all combines completed
      }
    }

    /** Advance the network to the next moment. */
    method MoveToNext() returns (done: seq<FlowId>)
      requires Resting() && |combined| < |L.bindings|
      modifies net
      ensures Consistent() && Caught() && (forall f | f in done :: f in net.results) && ToSend() <= old(ToSend())
      ensures ToSend() < old(ToSend()) || exists k | k in heap :: k.time <= net.now + net.c.epsTime
    {
      var t := NextMoment();
      MomentProgress(net.c, net.Snapshot(), L, State(), t);
      done := AdvanceNet(net, t);
    }

    lemma PoppedIsDone(heap0: set<Key>, batches: set<ReplicaId>)
      requires Popped(heap0, batches)
      ensures JustDone(batches, ComputedSet(L, executions, heap0), ComputedSet(L, executions, heap))
    {
    }

    /** What is over is computed and sent back; idle chips start what waits. */
    method Process()
      requires Consistent() && Caught() && Handled(L, State(), ComputedSet(L, executions, heap))
      modifies this, net
      ensures Resting() && Left() <= old(Left())
      ensures old(exists k | k in heap :: k.time <= net.now + net.c.epsTime) ==> Left() < old(Left())
    {
      ghost var heap0 := heap;
      var batches := PopDue();
      SoundIsValid(net.c, net.Snapshot(), L, State());
      PoppedIsDone(heap0, batches);
      LaunchCombines(batches, ComputedSet(L, executions, heap0), ComputedSet(L, executions, heap));
      AcceptAll();
      ScheduleReady();
    }

    /** One turn of the loop. */
    method Step()
      requires Resting() && |combined| < |L.bindings|
      modifies this, net
      ensures Resting() && Left() < old(Left())
    {
      var done := MoveToNext();
      Accept(done);
      Process();
    }

    /** `run`: the deadlock error is unreachable, every assignment is combined
        and every batch executed, in a bounded number of turns. */
    method Run() returns (turns: nat)
      requires Resting()
      modifies this, net
      ensures Resting() && turns <= old(Left())
      ensures forall a: nat :: a in combined <==> a < |L.bindings|
      ensures executions.Keys == Replicas(L)
      ensures forall a: nat {:trigger Journey(net.c, L, State(), a)} | a < |L.bindings| :: Journey(net.c, L, State(), a)
      ensures forall a: nat {:trigger Delivered(net.Snapshot(), L, State(), a)} | a < |L.bindings| :: Delivered(net.Snapshot(), L, State(), a)
    {
      turns := 0;
      while |combined| < |L.bindings|
        invariant Resting() && turns + Left() <= old(Left())
        decreases Left()
      {
        Step();
        turns := turns + 1;
      }
      AllDone(net.c, net.Snapshot(), L, State());
      assert combined.Keys == FirstNats(|L.bindings|);
      if |executions.Keys| != |Replicas(L)| || |combined.Keys| != |L.bindings| {
        assert false;  // no lost batch, no lost combine
      }
      forall a: nat | a < |L.bindings|
        ensures Journey(net.c, L, State(), a)
      {
        CombinedJourney(net.c, net.Snapshot(), L, State(), a);
      }
      forall a: nat | a < |L.bindings|
        ensures Delivered(net.Snapshot(), L, State(), a)
      {
        CombinedWasDelivered(net.c, net.Snapshot(), L, State(), a);
      }
    }
  }

  /** Both errors of `add_flow` are unreachable for a new flow from now on. */
  method Send(net: FluidNetwork, flow: Flow)
    requires net.Valid() && ValidFlow(net.c.topo, flow) && flow.id !in net.states && net.now <= flow.earliest
    modifies net
    ensures net.Snapshot() == AddFlow(net.c, old(net.Snapshot()), flow)
  {
    var error := net.Add(flow);
    if error.Some? {
      assert false;
    }
  }

  /** Both errors of `advance_to` are unreachable up to the next event. */
  method AdvanceNet(net: FluidNetwork, t: real) returns (done: seq<FlowId>)
    requires net.Valid() && StopsAtEvent(net.c, net.Snapshot(), t)
    modifies net
    ensures net.Snapshot() == Advance(net.c, old(net.Snapshot()), t)
    ensures forall f | f in done :: f in net.results
  {
    var r := net.AdvanceTo(t);
    if r.Err? {
      assert false;
    }
    done := r.value;
  }

  /** Add all dispatch flows. */
  method SendDispatch(net: FluidNetwork, L: Layer)
    requires net.Valid() && net.states == map[] && net.results == map[] && net.now == 0.0 && ValidLayer(net.c.topo, L)
    modifies net
    ensures net.Valid() && Dispatched(net.c, net.Snapshot(), L, |L.outward.groups|)
  {
    var g := 0;
    assert forall f: FlowId :: f !in net.Snapshot().states.Keys && f !in net.Snapshot().results.Keys;
    while g < |L.outward.groups|
      invariant 0 <= g <= |L.outward.groups| && net.Valid() && Dispatched(net.c, net.Snapshot(), L, g)
    {
      DispatchAdded(net.c, net.Snapshot(), L, g);
      AddFlowKeeps(net.c, net.Snapshot(), OutFlow(L, g));
      Send(net, OutFlow(L, g));
      g := g + 1;
    }
  }

  lemma StartLeft(n: Net, L: Layer, e: Engine)
    requires IsFresh(L, e) && forall f: nat :: f in n.states.Keys <==> f < |L.outward.groups|
    ensures |n.states.Keys| == |L.outward.groups|
    ensures |Unlaunched(L, e.launched)| <= |L.inward.groups|
    ensures |Uncomputed(L, e.execs, e.heap)| <= |Replicas(L)|
  {
    assert n.states.Keys == FirstNats(|L.outward.groups|);
    SmallerSet(Unlaunched(L, e.launched), FirstNats(|L.inward.groups|));
    SmallerSet(Uncomputed(L, e.execs, e.heap), Replicas(L));
  }

  lemma SameSize(s: set<nat>, t: set<nat>)
    requires s <= t
    ensures |s| == |t| <==> s == t
  {
    SmallerSet(s, t);
  }

  /** The assignments of all the batches. */
  function Batch(L: Layer, rs: seq<ReplicaId>): set<AssignmentId> {
    set a: nat | 0 <= a < |L.bindings| && ReplicaOf(L, a) in rs
  }

  lemma NextBatch(L: Layer, rs: seq<ReplicaId>, i: nat)
    requires i < |rs| && forall j, k | 0 <= j < k < |rs| :: rs[j] != rs[k]
    ensures rs[i] in rs && Members(L, rs[i]) !! Batch(L, rs[..i])
    ensures Batch(L, rs[..i + 1]) == Batch(L, rs[..i]) + Members(L, rs[i])
  {
    assert rs[..i + 1] == rs[..i] + [rs[i]];
  }

  lemma MemberToSend(L: Layer, r: ReplicaId, xs: seq<AssignmentId>, i: nat, done: set<AssignmentId>)
    requires i < |xs| && (forall a :: a in xs <==> a in Members(L, r)) && forall j, k | 0 <= j < k < |xs| :: xs[j] != xs[k]
    requires Members(L, r) !! done
    ensures xs[i] < |L.bindings| && ReplicaOf(L, xs[i]) == r && xs[i] !in done + ElementSet(xs[..i])
    ensures done + ElementSet(xs[..i + 1]) == done + ElementSet(xs[..i]) + {xs[i]}
  {
    NextElement(xs, i);
    assert xs[i] in xs;
  }

  lemma AllSent(L: Layer, r: ReplicaId, xs: seq<AssignmentId>, done: set<AssignmentId>)
    requires forall a :: a in xs <==> a in Members(L, r)
    ensures done + ElementSet(xs[..|xs|]) == done + Members(L, r)
  {
    assert xs[..|xs|] == xs;
  }

  lemma SoundNote(c: Config, n: Net, L: Layer, e: Engine, combineReady: CombineReady)
    requires Sound(c, n, L, e)
    ensures Sound(c, n, L, e.(combineReady := combineReady))
  {
    assert Core(c, n, L, e);
  }

  /** No chip of q idles while a batch waits for it. */
  ghost predicate Visited(e: Engine, q: seq<ChipId>) {
    forall chip {:trigger IdleWaits(e, chip)} | chip in q :: !IdleWaits(e, chip)
  }

  predicate IdleWaits(e: Engine, chip: ChipId) {
    chip in e.ready && e.ready[chip] != [] && chip !in e.running
  }

  lemma VisitedStays(L: Layer, e: Engine, e': Engine, now: real, eps: real, q: seq<ChipId>, i: nat)
    requires StartsOnly(L, e, e', now, eps) && i < |q| && Visited(e, q[..i]) && !IdleWaits(e', q[i])
    ensures Visited(e', q[..i + 1])
  {
    forall chip | chip in q[..i + 1]
      ensures !IdleWaits(e', chip)
    {
      assert !IdleWaits(e, chip) || chip == q[i];
    }
  }

  lemma AllVisited(e: Engine, q: seq<ChipId>)
    requires Visited(e, q) && forall chip | chip in e.ready.Keys :: chip in q
    ensures NoIdleWait(e.running, e.ready)
  {
    assert forall chip | chip in e.ready.Keys :: !IdleWaits(e, chip);
  }

  lemma GroupNoted(topo: Topology, L: Layer, execs: Executions, done: set<AssignmentId>, combineReady: CombineReady, h: nat)
    requires ValidLayer(topo, L) && RecordedOk(L, execs, done, combineReady) && h < |L.inward.groups|
    ensures h in combineReady
  {
    assert ValidGroup(L.inward, h);
    assert L.inward.groups[h][0] in L.inward.groups[h];
    assert RecordedAt(L, execs, done, combineReady, L.inward.groups[h][0]);
  }
}
