# FlowGPU: a verified model of the simulator core

FlowGPU simulates expert dispatch for mixture-of-experts models. This project
models the parts of it whose correctness is not visible from any single
function, and proves what they promise:

- **The fluid network** (`FairShare`, `Topology`, `Net*`, `FluidNetwork`,
  `LoneFlow`, `SerialPaths`): flows share link, half-duplex-group and endpoint capacities
  max-min fairly; admission respects limits on the flows in flight; time
  advances from event to event. `FluidNetwork` is a class with the program's
  fields, proved step by step against the value model `Net`.
- **The layer engine** (`Layer*`): dispatch flows, one compute queue per chip,
  combine flows, with or without chip-level dispatch deduplication and combine
  reduction. `LayerEngine` owns a `FluidNetwork` and drives both.
- **The fast engine** (`FastEngine`, `FastBound`, `Screening`,
  `ScreeningBound`, `LoneWindow`): the contention-free recurrence over the
  dispatcher's plan, and when it is a lower bound on the layer engine that runs
  the same plan.
- **The planners** (`ConvexAllocation`, `Eplb`, `ReplicaPlans`, `Rebalancing`,
  `RebalanceRuns`, `Rebalancer`, `LoadBalance`, `LoadShares`, `Enumeration`,
  `OraclePlans`, `Oracle`): how many
  copies each expert gets, where they go, and the exhaustive search that judges
  the result.
- **The dispatcher** (`Kernel`, `Communication`, `DispatchModel`,
  `DispatchRuns`, `Dispatcher`, `DispatchLaws`, `DispatchReach`): replica selection on top of
  measured or analytic kernel times.
- **Multicast** (`MulticastTree`, `MulticastReplay`, `Multicast`): the union of
  routes as a tree, and its replay on the fluid network.
- **Serving** (`Serving*`, `Server`):
  continuous batching with chunked prefill, decode, pool clocks and a cache
  budget. `ServingTurns` says what a run is, as a relation between consecutive
  moments; `Server` is proved to be one.
- **Accounting** (`Energy`, `EnergyAccount`, `Executor`, `ExecutorTotals`): merged busy time, the
  energy of a window, and cost attribution in the analytic executor.

The files ending in `Example` hold literal inputs on which a promise fails.

Times, rates, bytes in transit and loads are real numbers. The program's
floating-point tolerances (1e-15 seconds and 1e-9 bytes in the network, 1e-12
in the planners and in energy accounting) are parameters that only have to be
non-negative, so results hold for the program's values, with the slack that the
tolerances allow. The exceptions are the results whose row says zero tolerance,
or without a tolerance: uniqueness, exact equalities and equivalences, each
beside a result for any tolerance; and the literal inputs, which have zero
tolerance unless their row says otherwise. Where the program mutates an object, the model
is a class whose methods are proved against functions or predicates of its
abstract state; loops are loops. Facts about whole runs are lemmas about that
state (`Sound`, `ValidNet`, `SchedulerOk`).

Eight promises do not hold of the code as written. Each has a literal input
that shows it, and the exact condition where it does hold:

- **Limits on flows in flight.** Admission looks for one free slot per link.
  Flows that take a route can push a network within its limits over one exactly
  when the route crosses a limited link twice (`RouteIsSafeIff`). Mandatory
  waypoints can make a route double back: `DoublingBackExceedsLimit` adds such a
  flow to an empty network.
- **The capacity check of the copy allocation** counts all experts, not the
  covered ones, so a budget can pass it and still not be placeable
  (`CheckIsNotEnough`); `Allocate` states exactly when that happens.
- **A multicast with an empty payload** is not passed on by a link without
  delay, where the transfer completes on launch, and ends in the error for
  unreached destinations (`EmptyPayloadReachesNobody`). A replay reaches every
  destination if each link has something to send or more delay than the
  tolerance, counting the start of the multicast for links that leave the
  source; it does not if some link has nothing to send and no delay. Without a
  tolerance in time this covers every case, so it is an equivalence (`Replay`,
  `PassesOrSwallows`).
- **Output lengths below two.** A request ends after a decode, so it never gets
  fewer than two tokens (`OneTokenBecomesTwo`): the tokens generated are the
  output length exactly when that is at least two (`EverythingFinished`). A
  request with an empty prompt is never served at all, which is why servable
  requests are those with a prompt that fit the cache alone
  (`FinishedIffServable`).
- **The estimate of a dispatch** is not always the time of the flow that is sent
  for it. It is zero for a home-resident chip on the ingress endpoint, although
  the flow comes from the home (`SkippedEstimateIsTooShort`); and bridged over
  the home it adds two serializations, although one flow is sent over both legs
  (`BridgedEstimateIsTooLong`). It agrees exactly outside these two cases
  (`EstimateAgreesIff`).
- **Remote GPU replicas** are said not to be selected, and have an infinite
  cost; but under load sharing and brain-first the load or the brain flag is
  compared before any cost (`RemoteGpuIsChosen`). The chosen replica is within
  reach exactly when one within reach is not led by one out of reach
  (`ChoiceReachesIff`, `BindingReachesIff`). Under the policies that do not
  compare loads this depends on the assignment and the placement alone
  (`FixedReachesIff`). Sharing the load with one ingress, the assignments of an
  expert all stay within reach exactly when all its replicas are within reach or
  there are no more assignments than replicas within reach
  (`OneIngressReachesIff`).
- **The fast engine as a lower bound.** Over the routes the estimates assume, it
  is late at most by what the tolerances of the network let flows and batches be
  early, while no estimate serializes twice and no expert's kernel model is
  slower than that of its chip (`ScreeningIsBound`); so in particular for
  home-resident dispatch with kernels per expert (`HomeResidentIsBound`). With
  zero tolerance it is exactly never late (`ScreeningIsExact`,
  `HomeResidentIsExact`). Bridged over the home it can be late by a whole
  serialization, whatever the tolerances (`BridgedScreeningIsLate`). For a window
  of one assignment with kernels per expert and nothing that throttles its
  transfer, some run is over before it is screened to be if the estimate
  serializes twice, and none by more than the tolerances if it does not
  (`AloneIsBound`; with zero tolerance an equivalence, `AloneIsBoundIff`).
  `LoneBound` and `LoneBoundIff` have the condition for any estimate and any
  latencies.
- **Side-by-side merging and pipelining** report a breakdown of time that adds
  up only when one side took no time, or when nothing was overlapped
  (`MergeAddsUp`, `SideBySideIsCountedTwice`, `PipelineAttribution`,
  `PipelineIsCountedTwice`).

`dafny verify dfyconfig.toml` checks the whole project.

## Model

| member | source | states |
|---|---|---|
| NetTopology.BuildResourceCapacities | flowgpu/sim_v2/detailed_network.py:98-120 | the table holds exactly one capacity for each link or half-duplex group and for each limited port |
| NetTopology.TableCovers | flowgpu/sim_v2/detailed_network.py:133-150 | every resource a flow uses is in the capacity table |
| NetTopology.LatencyIsSum | flowgpu/sim_v2/topology.py:101-103 | the latency of a route is that of all its links together |
| NetRates.RatesAreMaxMin | flowgpu/sim_v2/detailed_network.py:98-286 | in terms of links and ports: no full-duplex link, half-duplex group, injection or receive port carries more than its bandwidth, and every active flow is held back by one of them that is full and on which none is faster |
| NetRates.ActiveFlowAdvances | flowgpu/sim_v2/detailed_network.py:328-361 | by the target time an active flow has sent its rate times the time; it completes then exactly when no more than the tolerance is left, and otherwise keeps what is left; service begins when it first sends |
| FairShare.ProgressiveFilling | flowgpu/sim_v2/detailed_network.py:238-286 | the filling loop terminates and yields the allocation the laws below speak about |
| FairShare.MaxMinIsFair | flowgpu/sim_v2/detailed_network.py:238-286 | no resource is overfull, and every flow crosses a resource filled to within the tolerance on which no flow is faster |
| FairShare.MaxMinIsPositive | flowgpu/sim_v2/detailed_network.py:238-286 | every active flow gets a positive rate |
| FairShare.NoGainWithoutLoss | flowgpu/sim_v2/detailed_network.py:238-286 | any feasible allocation that raises a flow by more than the slack lowers a flow that was no faster |
| FairShare.MaxMinFairIsUnique | flowgpu/sim_v2/detailed_network.py:238-286 | with zero tolerance there is one max-min fair allocation |
| NetModel.ActivateDueIsIdempotent | flowgpu/sim_v2/detailed_network.py:209-236 | a second activation pass at the same time changes nothing |
| NetAdmission.AdmissionIsByRelease | flowgpu/sim_v2/detailed_network.py:209-236 | a due flow with something to transfer is let in exactly when every limited link of its route has a slot left after the flows that were active and those let in with an earlier release, ties by id |
| NetAdmission.OthersOfThePass | flowgpu/sim_v2/detailed_network.py:209-236 | a due flow with nothing to transfer is complete at the later of now and its release, and all others stay as they are |
| NetAdmission.NoOvertaking | flowgpu/sim_v2/detailed_network.py:209-236 | of two waiting flows the one released later gets in only if the other does, or the other needs a limited link that it does not |
| NetCounters.OccupancyIsNonNegative | flowgpu/sim_v2/detailed_network.py:173-207 | counters equal a recount over active flows, so the negative-occupancy error is unreachable |
| NetLimits.RouteIsSafeIff | flowgpu/sim_v2/detailed_network.py:209-236 | flows that follow a route can take a consistent network within its limits over one, advancing to its next event, exactly when the route crosses a limited link twice |
| NetExamples.DoublingBackExceedsLimit | flowgpu/sim_v2/detailed_network.py:152-236 | adding one flow that doubles back to an empty network leaves it consistent with two crossings of a link that has one slot |
| NetLimits.AdvanceKeepsLimits | flowgpu/sim_v2/detailed_network.py:318-367 | advancing keeps every link within its limit |
| NetLimits.AddKeepsLimits | flowgpu/sim_v2/detailed_network.py:152-171 | adding a flow keeps every link within its limit unless its route crosses a limited link twice |
| NetEvents.NextEventIsLater | flowgpu/sim_v2/detailed_network.py:288-316 | the next event is never in the past, and strictly later while nothing due is waiting to start |
| NetEvents.NoDeadlock | flowgpu/sim_v2/detailed_network.py:369-375 | while a flow is unfinished there is a next event, even with limits on flows in flight |
| NetRuns.AdvanceKeeps | flowgpu/sim_v2/detailed_network.py:318-367 | advancing keeps the network consistent, undoes no result, and dates new results at the target time |
| NetRuns.EventProgress | flowgpu/sim_v2/detailed_network.py:288-367 | every event is the release or the end of a flow: the work left strictly shrinks |
| NetRuns.WorkBound | flowgpu/sim_v2/detailed_network.py:369-375 | the work left is at most two events per flow |
| NetService.AddAdmitsOne | flowgpu/sim_v2/detailed_network.py:152-236 | adding a flow to a settled network can admit that flow and no other |
| NetService.AdvanceNoOverrun | flowgpu/sim_v2/detailed_network.py:328-367 | stopping at every event, no flow is ever sent more than its bytes |
| NetService.CompletedIsServed | flowgpu/sim_v2/detailed_network.py:173-207 | the rate integrated over time of a completed flow is its byte count, within the byte tolerance |
| NetService.NoEarlyFinish | flowgpu/sim_v2/network_model.py:81-100 | no flow finishes before its unloaded estimate, beyond the tolerances |
| NetService.FinishDecomposes | flowgpu/sim_v2/detailed_network.py:46-60 | with zero tolerance the finish is the unloaded estimate plus a non-negative contention delay |
| LoneFlows.SendingEnds | flowgpu/sim_v2/network_model.py:81-100 | for any tolerances: alone, unthrottled by ports or shared media, a flow takes exactly its bytes over the bottleneck bandwidth once it is sent |
| FluidNetworks.FluidNetwork.Add | flowgpu/sim_v2/detailed_network.py:152-171 | rejects exactly duplicates and starts in the past; otherwise the flow joins, its bytes are counted once per crossing, and due flows are admitted |
| FluidNetworks.FluidNetwork.NextEventTime | flowgpu/sim_v2/detailed_network.py:288-316 | the earliest release or end of transfer, or none |
| FluidNetworks.FluidNetwork.AdvanceTo | flowgpu/sim_v2/detailed_network.py:318-367 | rejects targets in the past or beyond the next event; otherwise transfers, completes and admits (in order of release, by the rows on admission), and returns exactly the flows that completed |
| FluidNetworks.FluidNetwork.Run | flowgpu/sim_v2/detailed_network.py:369-375 | every flow finishes after at most two events per flow, the deadlock error is unreachable, and limits stay kept |
| SerialPaths.SerializedPathScheduler.Schedule | flowgpu/sim_v2/network_model.py:125-149 | the flow starts at the first moment its whole path is free, finishes at its unloaded estimate plus that wait, and the tables stay a recount of the reservations |
| SerialPaths.LinkIsExclusive | flowgpu/sim_v2/network_model.py:103-149 | at no moment do two flows use one link |
| LayerGroups.MakeGroups | flowgpu/sim_v2/layer_engine.py:365-386 | the groups partition the assignments: two are together exactly when their keys agree, in order of arrival |
| LayerGroups.AloneGroups | flowgpu/sim_v2/layer_engine.py:406-418 | without the capability every group is one assignment |
| LayerGroups.SharedGroups | flowgpu/sim_v2/layer_engine.py:365-377 | with the capability two assignments are in one group exactly when they are the same token for the same chip |
| LayerCore.DispatchAccepted | flowgpu/sim_v2/layer_engine.py:517-534 | accepting a dispatch flow keeps arrivals, queues and schedules consistent |
| LayerCore.BatchStarted | flowgpu/sim_v2/layer_engine.py:540-572 | starting the head of a queue keeps the invariant and starts nothing else |
| LayerCore.CombineLaunched | flowgpu/sim_v2/layer_engine.py:640-693 | a combine flow is released when the last batch of its group is over, plus the reduction delay |
| LayerCore.ScheduleIsRecurrence | flowgpu/sim_v2/layer_engine.py:540-572 | on each chip a batch starts at the later of its last arrival and the end of the batch before, in arrival order with ties by replica, and lasts its kernel time |
| LayerCore.NeverStuck | flowgpu/sim_v2/layer_engine.py:575-587 | until everything is combined the network or a chip has an event to come |
| LayerCore.FlowsCarry | flowgpu/sim_v2/layer_engine.py:120-160 | every flow of the network runs from source to destination over the route of its group's first member with the hidden bytes: out on the outbound path from the start, back on the inbound path when the last batch of the group and its reduction are over |
| LayerCore.CombinedWasDelivered | flowgpu/sim_v2/layer_engine.py:516-537 | the arrival noted for an assignment is when its dispatch flow was delivered, and it is combined when its combine flow was |
| LayerCore.CombinedJourney | flowgpu/sim_v2/layer_engine.py:477-639 | a combined assignment arrived no earlier than the latency of its group's outbound path plus hidden bytes over its slowest link, was computed after that for its kernel time, and came back no earlier than the end of its group's batches and reduction plus the same for the inbound path, up to the tolerances |
| LayerCore.AllDone | flowgpu/sim_v2/layer_engine.py:714-717 | once as many are combined as were dispatched, every assignment is combined and exactly the assigned replicas have executed |
| LayerEngines.LayerEngine.Step | flowgpu/sim_v2/layer_engine.py:575-695 | one turn keeps the invariant and strictly lowers the work left |
| LayerEngines.LayerEngine.Run | flowgpu/sim_v2/layer_engine.py:574-717 | the deadlock, lost-batch and lost-combine errors are unreachable; every assignment is combined, after such a journey and when its flow was delivered, and every batch executed, within a bounded number of turns |
| Screenings.Screen | flowgpu/sim_v2/fast_engine.py:76-155 | succeeds exactly on a non-empty window of one layer that the dispatcher can plan with a kernel for each expert; then every batch of the plan runs once on its chip and every assignment returns after its batch, at possibly infinite times |
| FastEngines.RunPlan | flowgpu/sim_v2/fast_engine.py:97-130 | each chip runs its batches once, by arrival, each from the later of arrival and previous finish, for the latency of the expert's kernel; infinite estimates come last and stay infinite |
| FastEngines.OrderIsByArrival | flowgpu/sim_v2/fast_engine.py:97-104 | the batches of a chip are in the order of arrival, ties by replica, infinite arrivals last |
| FastBound.ScreenedNeverLater | flowgpu/sim_v2/fast_engine.py:97-120 | the recurrence ends no later than any non-overlapping schedule of the same batches that starts none before it could arrive, in whatever order |
| FastBound.FastNeverLater | flowgpu/sim_v2/fast_engine.py:97-130 | from time 0, without shared dispatch flows, with estimates no longer than the dispatch flows take when idle and latencies no longer than the layer engine's: no batch is screened to end after the last batch of its chip in the layer engine, up to the tolerances, unless one of its estimates is infinite, and then it is screened to end never |
| FastBound.FastIsLowerBound | flowgpu/sim_v2/fast_engine.py:97-130 | under the same conditions with zero tolerance: exactly never later, whatever the contention |
| ScreeningBounds.EstimateFitsIff | flowgpu/sim_v2/dispatcher.py:119-239 | over the routes it assumes, a finite estimate is no longer than its dispatch flow takes when idle, exactly when it does not serialize twice |
| ScreeningBounds.ScreeningIsBound | flowgpu/sim_v2/fast_engine.py:87-130 | one dispatch plan, screened and run over the same routes: for any tolerances, no batch is screened to end after the last batch of its chip by more than the slack of the flows and the time tolerance per batch, if no finite estimate serializes twice and no expert's kernel model is slower than its chip's |
| ScreeningBounds.ScreeningIsExact | flowgpu/sim_v2/fast_engine.py:87-130 | the same with zero tolerance: exactly never later |
| ScreeningBounds.HomeResidentIsBound | flowgpu/sim_v2/fast_engine.py:87-130 | home-resident with kernels per expert, for any tolerances: every batch is screened to end at a finite time and late at most by the slack and the time tolerance per batch, including where the estimate leaves out the home leg |
| ScreeningBounds.HomeResidentIsExact | flowgpu/sim_v2/fast_engine.py:87-130 | the same with zero tolerance: exactly never later |
| LoneWindows.LoneArrives | flowgpu/sim_v2/layer_engine.py:477-534 | for any tolerances: in a window of one assignment that nothing throttles there is a run in which the dispatch flow is delivered at its unloaded estimate, or earlier where the time tolerance covers a positive route latency |
| LoneWindows.LoneBound | flowgpu/sim_v2/fast_engine.py:87-130 | for such a window and any tolerances: if the estimate plus the screened latency is at most the idle transfer plus the layer engine's latency, no run beats screening by more than the slack; if it is more, some run beats it by any less than the difference |
| LoneWindows.LoneBoundIff | flowgpu/sim_v2/fast_engine.py:87-130 | the same with zero tolerance: over all runs, screening is never late exactly when the estimate plus the screened latency is at most the idle transfer plus the layer engine's latency |
| ScreeningExamples.AloneIsBound | flowgpu/sim_v2/fast_engine.py:87-130 | for such a window of a dispatch plan with kernels per expert and any tolerances: no run beats screening by more than the slack unless the estimate serializes twice, and then some run does |
| ScreeningExamples.AloneIsBoundIff | flowgpu/sim_v2/fast_engine.py:87-130 | the same with zero tolerance: screening is never late exactly when the estimate does not serialize twice |
| ScreeningExamples.BridgedScreeningIsLate | flowgpu/sim_v2/fast_engine.py:87-130 | a literal plan bridged over the home, for any time tolerance and any byte tolerance below its one byte: screened to end at two seconds plus the latency, run in one second plus the latency |
| ConvexAllocation.GrantKeepsLevel | flowgpu/sim_v2/eplb.py:184-201 | granting the copy that helps most keeps a threshold between what was granted and what was not |
| ConvexAllocation.LevelledIsOptimal | flowgpu/sim_v2/eplb.py:184-203 | an allocation with such a threshold is optimal among all with the same total, for every separable convex cost |
| Eplb.PeakIsGreatest | flowgpu/sim_v2/eplb.py:141-150 | the peak is the load of the busiest step, and is zero only if the expert was never used |
| Eplb.Coverage | flowgpu/sim_v2/eplb.py:172-179 | the whole part of the budget without its redundant share, at least one and at most the experts and the budget |
| Eplb.InTurnIsUnique | flowgpu/sim_v2/eplb.py:184-203 | there is one way to spend a budget so that each copy lowered the load per copy most when it was given, ties by expert |
| Eplb.Spend | flowgpu/sim_v2/eplb.py:172-203 | the greedy loop spends the budget exactly, each copy in its turn, and minimises the sum of peak load per copy; it fails exactly when experts times cap is below the budget |
| Eplb.Allocate | flowgpu/sim_v2/eplb.py:122-203 | every rejection with its condition; otherwise the most loaded experts are covered, ties by peak and id, and share the budget optimally and in turn by their busiest step, or the covered experts times the cap are too few |
| Eplb.CheckIsNotEnough | flowgpu/sim_v2/eplb.py:160-192 | a budget that passes the capacity check and cannot be placed |
| ReplicaPlans.MakePlan | flowgpu/sim_v2/replicas.py:33-138 | the constructor accepts exactly the valid placements |
| Rebalancing.MoveIsValid | flowgpu/sim_v2/eplb.py:425-457 | a move that passes the incremental checks is a valid plan again |
| Rebalancing.SwapIsValid | flowgpu/sim_v2/eplb.py:513-559 | a swap that passes the incremental checks is a valid plan again |
| Rebalancing.MoveAllowedIff | flowgpu/sim_v2/eplb.py:425-457 | between two chips the incremental checks of a move pass exactly when the plan after it is valid |
| Rebalancing.SwapAllowedIff | flowgpu/sim_v2/eplb.py:513-559 | between two chips the checks of a swap of different experts pass exactly when the plan after it is valid |
| RebalanceRuns.RunGains | flowgpu/sim_v2/eplb.py:404-597 | a run never raises the score, lowers it by more than the tolerance if a pass is allowed and an open move or swap of the given placement gains, and otherwise leaves it as it is |
| RebalanceRuns.RunIsUnique | flowgpu/sim_v2/eplb.py:404-597 | best moves and then best swaps lead from a placement to one other |
| Rebalancers.Rebalancer.BestMove | flowgpu/sim_v2/eplb.py:421-474 | an eligible move of least rank, the earliest replica of equal ones, or none is eligible |
| Rebalancers.Rebalancer.BestSwap | flowgpu/sim_v2/eplb.py:506-573 | an eligible swap of least rank, the earliest replicas of equal ones, or none is eligible |
| Rebalancers.Rebalancer.ApplyMove | flowgpu/sim_v2/eplb.py:475-487 | the incremental tables equal a recount after the move |
| Rebalancers.Rebalance | flowgpu/sim_v2/eplb.py:349-604 | for every measure: the result is reached by at most the allowed number of best moves and then of best swaps, each gaining more than the tolerance, and fewer only if no eligible one gains; it is a valid plan of the same ids, experts and primary flags, replicas elsewhere unmoved, score no higher |
| LoadBalance.RatioAtLeastOne | flowgpu/sim_v2/eplb.py:43-48 | the imbalance is at least one, and one exactly when nothing is routed or all loads are equal |
| LoadBalance.ScoreAtLeastEven | flowgpu/sim_v2/eplb.py:43-103 | no placement scores better than perfectly even loads on all nodes and chips |
| LoadBalance.LoadIsConserved | flowgpu/sim_v2/eplb.py:71-93 | summed over chips, and over nodes, the load is the number of assignments routed to experts with a copy |
| LoadShares.ZoneLoadIsShares | flowgpu/sim_v2/eplb.py:74-93 | the load of a node or chip is, for every expert, as many equal shares of its assignments as it has copies there |
| LoadShares.AggregateIsSum | flowgpu/sim_v2/eplb.py:607-626 | the load the planner compares chips by is the sum of those loads over the steps |
| LoadShares.ImbalanceIs | flowgpu/sim_v2/eplb.py:43-103 | the measure is the mean over the steps of the greatest load over the mean load, of the nodes and of the chips of the brain, counting replicas on brain chips alone; one without steps |
| LoadBalance.PlacementLoadBalance | flowgpu/sim_v2/eplb.py:51-103 | the loops over experts and copies compute the mean imbalance over nodes and chips |
| LoadBalance.RebalanceBrain | flowgpu/sim_v2/eplb.py:349-604 | on a trace: best moves and then best swaps until none gains or the passes are spent; the same replicas in a valid plan, with an imbalance no higher than that of the given plan, and lower by more than the tolerance if an open move or swap of it gains and a pass is allowed |
| Enumeration.CombinationsComplete | flowgpu/sim_v2/oracle.py:175-181 | every ascending selection of a size is enumerated, and nothing else |
| Enumeration.SubsetsComplete | flowgpu/sim_v2/oracle.py:172-181 | every selection of one to the limited number of chips is enumerated, and nothing else |
| Enumeration.ProductComplete | flowgpu/sim_v2/oracle.py:193-196 | every choice of one selection per expert is enumerated, and nothing else |
| Enumeration.ProductSize | flowgpu/sim_v2/oracle.py:182-187 | the announced search bound is the number of candidates |
| Enumeration.ProductDistinct | flowgpu/sim_v2/oracle.py:193-196 | no choice is enumerated twice |
| OraclePlans.SelectionWithinBudget | flowgpu/sim_v2/oracle.py:172-196 | the limit on subset sizes loses nothing |
| OraclePlans.RebuiltIsValid | flowgpu/sim_v2/oracle.py:198-221 | every valid plan has a candidate in the same places that is accepted |
| Oracles.SmallOracle | flowgpu/sim_v2/oracle.py:159-240 | refused as below; otherwise a feasible candidate of least rank, or none is feasible, with the numbers of candidates and of feasible ones and the bound as counts of sets |
| Oracles.RefusedWhen | flowgpu/sim_v2/oracle.py:161-187 | every refusal with its condition, in order; the search is too large exactly when the number of ways to give each expert at most one chip more than the extra copies exceeds the limit |
| Oracles.TiesByPlace | flowgpu/sim_v2/oracle.py:226-233 | of candidates with equal objectives the one whose experts and chips come first is found |
| Oracles.OracleIsMinimum | flowgpu/sim_v2/oracle.py:172-233 | no valid plan within the extra-copy budget beats the oracle on an objective of locations |
| Oracles.OracleFindsSome | flowgpu/sim_v2/oracle.py:172-233 | a feasible candidate is found whenever a valid plan within the budget exists |
| Oracles.Audit | flowgpu/sim_v2/oracle.py:57-137 | refusals are passed on as stated; otherwise the report gives the gap to the best plan, nothing within the tolerance, and its ratio where the best value is not within the tolerance; for an objective of locations the below-oracle error is unreachable, and the heuristic is called optimal exactly when no plan beats it by more than the tolerance |
| Kernels.MakeCurve | flowgpu/sim_v2/kernel_model.py:49-82 | accepts exactly sample sets with distinct sizes and non-decreasing latency, and keeps every sample |
| Kernels.ExactAtSamples | flowgpu/sim_v2/kernel_model.py:84-92 | the prediction at a sample is the sample, and is not flagged |
| Kernels.PredictionRises | flowgpu/sim_v2/kernel_model.py:84-138 | a larger batch never takes less time: in a bracket, across brackets, beyond both ends and under the floor |
| Kernels.PredictionIsLinear | flowgpu/sim_v2/kernel_model.py:109-124 | from the first sample on, the prediction lies on the straight line through two neighbouring samples, beyond the last through the last two |
| Kernels.PredictionBelow | flowgpu/sim_v2/kernel_model.py:108-124 | below the first of several samples it is on the line through the first two, but no less than a tenth of the first |
| Kernels.SingleSample | flowgpu/sim_v2/kernel_model.py:93-107 | a single sample predicts every size |
| Kernels.ComputeRises | flowgpu/sim_v2/kernel_model.py:176-189 | the analytic compute time is positive and non-decreasing in the batch size, through saturation |
| Kernels.AnalyticTakesLonger | flowgpu/sim_v2/kernel_model.py:176-188 | an analytic kernel takes its overhead plus the longer of computing, at least a batch of the saturation size at the efficient rate, and loading the weights |
| Kernels.KernelRises | flowgpu/sim_v2/kernel_model.py:84-197 | every kernel takes positive time, and no less for a larger batch |
| Kernels.Predict | flowgpu/sim_v2/kernel_model.py:84-138 | fails exactly for sizes below one; otherwise the kernel's latency, positive; flagged exactly outside the measured range or without measurements |
| Communications.EstimateVersusFlow | flowgpu/sim_v2/dispatcher.py:119-239 | a finite estimate is the idle time of the one flow sent along the dispatch path, and of the reverse path for the combine, except that it is zero where the home leg is skipped and longer where two legs are serialized |
| Communications.EstimateAgreesIff | flowgpu/sim_v2/dispatcher.py:119-239 | estimate and flow agree exactly unless a home-resident dispatch skips its home leg or a bridged one has two legs |
| Communications.IngressTakesTurns | flowgpu/sim_v2/dispatcher.py:214-220 | requests take the GPU ingress endpoints in turn; without any, all have the one ingress endpoint |
| Communications.BridgedEstimateIsTooLong | flowgpu/sim_v2/dispatcher.py:189-213 | a literal bridge over the home: estimated at two seconds, the one flow takes one |
| Communications.SkippedEstimateIsTooShort | flowgpu/sim_v2/dispatcher.py:142-146 | a literal home-resident chip on the ingress endpoint: estimated at nothing, the flow from the home takes a second |
| DispatchModel.BestIsUnique | flowgpu/sim_v2/dispatcher.py:282-330 | the score order leaves one best candidate |
| Dispatchers.Plan | flowgpu/sim_v2/dispatcher.py:241-374 | succeeds exactly when no id repeats and every replica of every assigned expert can be scored; each assignment goes to its best candidate in binding order, and the batches are those of the bindings |
| DispatchLaws.PolicyIsKept | flowgpu/sim_v2/dispatcher.py:282-330 | binding k against every replica of its expert, from the bindings before it alone: there and back, the number bound, the ready time, and when one more than those would be done and back, counting the greatest dispatch among them; by the policy's criteria in turn no replica is better |
| DispatchLaws.ChoiceReachesIff | flowgpu/sim_v2/dispatcher.py:130-141 | the chosen replica has a finite cost exactly when some replica within reach is not led, by load, readiness or the brain flag, by one out of reach |
| DispatchLaws.BindingReachesIff | flowgpu/sim_v2/dispatcher.py:130-141 | over a whole plan: a binding has a finite cost exactly when that held at the moment it was bound |
| DispatchReach.FixedReachesIff | flowgpu/sim_v2/dispatcher.py:282-330 | under nearest, earliest-finish and brain-first, over a whole plan: a binding has a finite cost exactly when its expert has a replica within reach, which under brain-first is on a brain chip unless no replica out of reach is |
| DispatchReach.SharedReachesIff | flowgpu/sim_v2/dispatcher.py:282-330 | sharing the load, with equal ready times under least-loaded and one set of replicas within reach of all: the expert's assignments all have finite costs exactly when that set is all its replicas or there are no more assignments than the set has replicas |
| DispatchReach.OneIngressReachesIff | flowgpu/sim_v2/dispatcher.py:130-230 | the same for a dispatcher with at most one ingress endpoint, where every assignment reaches the same replicas |
| DispatchExamples.RemoteGpuIsChosen | flowgpu/sim_v2/dispatcher.py:130-141 | a literal plan under load sharing whose second assignment goes to a remote GPU although a replica is within reach |
| DispatchLaws.PlanIgnoresOrder | flowgpu/sim_v2/dispatcher.py:246-262 | the plan does not depend on the input order of the assignments |
| DispatchLaws.BindingOrder | flowgpu/sim_v2/dispatcher.py:256-261 | assignments are bound by step, then layer, token and id |
| DispatchLaws.PlanBindsEach | flowgpu/sim_v2/dispatcher.py:331-374 | every assignment is bound once, to a replica of its own expert, at the cost of reaching it |
| DispatchLaws.PlanPartitions | flowgpu/sim_v2/dispatcher.py:331-363 | the batches partition the assignments: each is once in exactly one batch, of its own expert |
| DispatchLaws.PlanBalances | flowgpu/sim_v2/dispatcher.py:282-330 | under split and least-loaded two replicas of one expert differ by at most one assignment |
| DispatchLaws.ScoreIsLowerBound | flowgpu/sim_v2/dispatcher.py:263-371 | the finish foreseen when an assignment is bound never exceeds its final predicted finish |
| DispatchLaws.BatchTimes | flowgpu/sim_v2/dispatcher.py:334-371 | a batch starts when its replica is ready and its last activation is there, lasts its kernel time, and its members finish a combine later |
| MulticastTree.BuildTree | flowgpu/sim_v2/multicast.py:35-90 | succeeds exactly when no two links of the routes enter one endpoint; the disconnected error is unreachable |
| MulticastTree.ChainIsUnique | flowgpu/sim_v2/multicast.py:52-90 | at most one chain of tree links leads to an endpoint |
| MulticastTree.DestinationsReached | flowgpu/sim_v2/multicast.py:52-90 | every destination is reached by exactly one chain, its own route |
| MulticastTree.ClosedIsWhole | flowgpu/sim_v2/multicast.py:69-90 | whatever holds the roots and passes on to children covers the whole tree |
| MulticastReplays.PayloadBytes | flowgpu/sim_v2/multicast.py:122-137 | each launched link has carried the payload once, every other link nothing |
| MulticastReplays.PayloadFlow | flowgpu/sim_v2/multicast.py:122-137 | a launched link carries the whole payload from its source to its destination |
| Multicasts.Replay | flowgpu/sim_v2/multicast.py:122-162 | for any payload, empty or not: launched links carry it once, each as soon as the link before has delivered, and destinations are noted with the finish of the link entering them; the deadlock error is unreachable; all destinations are reached if every link passes the payload on and not if one swallows it, so without a tolerance in time exactly if every link passes it on |
| MulticastReplays.PassesOrSwallows | flowgpu/sim_v2/multicast.py:122-153 | without a tolerance in time, every link passes the payload on exactly if none swallows it |
| MulticastReplays.SwallowedIsLost | flowgpu/sim_v2/multicast.py:139-156 | a link with nothing to send and no delay keeps the payload from some destination |
| Multicasts.Simulate | flowgpu/sim_v2/multicast.py:93-162 | tree building and replay together: if the routes form a tree, every destination has its own chain of links and the replay ends as stated |
| MulticastExamples.EmptyPayloadReachesNobody | flowgpu/sim_v2/multicast.py:139-156 | a literal run with an empty payload over one link without delay ends without its destination |
| Servers.CacheIsReserved | flowgpu/sim/serving.py:465-549 | reserved cache is the total of prompt and output of the running requests and never exceeds the capacity |
| Servers.FirstComeFirstServed | flowgpu/sim/serving.py:407-427 | in admission order: full requests, at most one partial, untouched ones; first tokens come in that order, none before arrival |
| Servers.PoolsAreExclusive | flowgpu/sim/serving.py:499-549 | no two iterations that share a pool or a stage overlap |
| ServingSteps.PlannedShape | flowgpu/sim/serving.py:407-427 | takes are positive, sum to at most the chunk budget, and all but the last complete their request |
| Servers.SomethingToDo | flowgpu/sim/serving.py:407-440 | while a request runs some iteration can be planned |
| Servers.NobodyLeftOut | flowgpu/sim/serving.py:475-488 | with nothing running, only a request that has not arrived can be waiting |
| Servers.EverythingFinished | flowgpu/sim/serving.py:519-549 | with nothing left, every request is finished, with exactly its output length in tokens if and only if that is at least two |
| ServingExamples.OneTokenBecomesTwo | flowgpu/sim/serving.py:442-549 | a run of one request for one token ends with two |
| Servers.FinishedIffServable | flowgpu/sim/serving.py:462-549 | all requests finish only if each has a prompt and fits the cache alone, and have finished once nothing is pending or running |
| Servers.Server.Admit | flowgpu/sim/serving.py:465-474 | requests are admitted in order until the next has not arrived or does not fit |
| Servers.Server.Run | flowgpu/sim/serving.py:442-549 | the record of the run is one in which every turn admits, plans, chooses and serves as the loop does, and every request has the token times, first token and finish that the record gives; with positive limits and enough iterations every request is finished exactly when every request has a prompt and fits the cache alone |
| Servers.TimesAreEnds | flowgpu/sim/serving.py:512-549 | the token times of a request are the ends of the iterations that gave it one, its first token the first of them, its finish the last |
| ServingTurns.TokensAreEnds | flowgpu/sim/serving.py:499-549 | in any run, an iteration starts at the greatest of now, its stage's and its pools' clocks, ends after the jittered cost of its batch size, longest context and largest take, and exactly those that complete a prompt or decode a request add their end to its token times |
| ServingChoices.PrefillIsUnique | flowgpu/sim/serving.py:407-427 | the budget, the room and the order of requests leave one prefill batch |
| ServingChoices.OfferIsUnique | flowgpu/sim/serving.py:407-440 | at every moment there is at most one prefill and one decode to run, at one cost and one start |
| ServingChoices.EarlierIsChosen | flowgpu/sim/serving.py:499-511 | of the two the one that can start first runs, prefill on ties |
| Energies.UnionIsUnique | flowgpu/sim_v2/energy.py:54-66 | a set of moments has one form as separated intervals |
| Energies.DurationIsUnique | flowgpu/sim_v2/energy.py:54-66 | the busy time depends on the covered moments alone, not on order or overlap |
| Energies.DurationWithin | flowgpu/sim_v2/energy.py:54-66 | busy time is at most the window its intervals lie in |
| Energies.MergedDuration | flowgpu/sim_v2/energy.py:54-66 | the merge returns the length of the union, at most the lengths together |
| EnergyAccounts.AccountSystemEnergy | flowgpu/sim_v2/energy.py:69-174 | accepts exactly the inputs the checks allow, and else gives the error of the first check that fails, of the first layer run and execution that does not fit; charges each chip's union once, idle power for the whole window on every chip, and the network |
| EnergyAccounts.AccountIs | flowgpu/sim_v2/energy.py:135-149 | chip by chip: dynamic power for the duration of its busy moments, idle power on every chip for the window; total and share per token |
| EnergyAccounts.OnChipIs | flowgpu/sim_v2/energy.py:107-131 | a chip is busy at a moment exactly when one of its executions lasts over it |
| EnergyAccounts.NetworkIsSum | flowgpu/sim_v2/energy.py:148 | the network is charged what all layer runs spent on it |
| EnergyAccounts.UseWithinWindow | flowgpu/sim_v2/energy.py:107-148 | busy time and dynamic energy are at most those of all chips computing throughout the window, within the tolerance |
| EnergyAccounts.UseIgnoresOverlap | flowgpu/sim_v2/energy.py:107-148 | runs that keep every chip busy at the same moments cost the same |
| Executors.WalkAddsUp | flowgpu/sim/executor.py:140-219 | time is the sum by bound, and the sums by pool and by role plus bridge time; energy is the sum by source |
| Executors.ChargedWhereDue | flowgpu/sim/executor.py:140-219 | every pool is charged exactly the time of the operations that landed on it, every role its own, and every change of pool is one crossing |
| ExecutorTotals.GraphCosts | flowgpu/sim/executor.py:140-219 | time and energy of a graph are those of its operations, collectives without their hidden part and energy for all shards, plus the bridge for every change of pool at the bytes of the operation before; so are bytes, flops, collective time, and the parts of each pool, bound and source |
| Executors.Execute | flowgpu/sim/executor.py:122-219 | the loop prices the operations in order, charging a bridge whenever the pool changes |
| Executors.MergeAddsUp | flowgpu/sim/executor.py:61-79 | a serial merge adds up; side by side it does exactly when one result took no time |
| Executors.MergedIsSum | flowgpu/sim/executor.py:61-79 | merging adds everything key by key; only the time is the longer one side by side |
| ExecutorExamples.SideBySideIsCountedTwice | flowgpu/sim/executor.py:61-79 | a second on each of two pools, side by side: one second in total, two in the breakdown |
| Executors.PeriodFits | flowgpu/sim/executor.py:263-268 | the pipeline period is between every pool's share and the micro-batch time |
| Executors.PipelineBounds | flowgpu/sim/executor.py:263-279 | fill plus m periods lies between one and m micro-batch times, and saves nothing exactly when one pool is busy all the time |
| Executors.ExecutePipelined | flowgpu/sim/executor.py:225-291 | when the serial run is reported and when the pipelined one |
| Executors.PipelinedTime | flowgpu/sim/executor.py:263-291 | any pipelined time is at most m micro-batch times, and at least one unless it is the serial run |
| Executors.PipelineAttribution | flowgpu/sim/executor.py:279-291 | energy by source adds up; time by bound adds up exactly when nothing was overlapped |
| Executors.PipelinedIsManyfold | flowgpu/sim/executor.py:279-291 | all but time and fill of a pipelined result is that of one micro-batch, times their number |
| ExecutorExamples.PipelineIsCountedTwice | flowgpu/sim/executor.py:263-291 | two micro-batches over two pools of a second each: three seconds in total, five in the breakdown |

## Left out

- Identifiers are natural numbers instead of strings, ordered by their value where the program orders strings; the executor keeps strings.
- Floating-point rounding: numbers are reals, so the branch that bumps a flow's finish to the next representable time is not part of the model.
- Path search in the topology: routes are given, as contiguous known links; for multicast they do not return to the source.
- Node-level dispatch deduplication, node-level combine reduction and multicast inside the layer engine; there physical bytes may exceed logical bytes.
- The fields of result records that only repeat or format what was computed (critical path, byte totals, hop counts, the energy of a flow, provenance, warnings).
- Input validation of a layer window (one layer, one home per token, finite start), and the plan that the layer engine obtains from the dispatcher: the engine starts from any valid binding.
- The numbering of flow groups by the text of their keys: groups are numbered in order of first appearance.
- NetService.FinishDecomposes: stated for zero tolerance, because a tolerance lets a flow finish that much early; NoEarlyFinish bounds it.
- FastBound.FastNeverLater: compares the last compute finish of each chip, not completion times, which the fast engine does not bound; shared dispatch flows are excluded because the fast engine rejects the capabilities that share them. It asks for estimates and latencies that do not exceed the layer engine's, which the code does not guarantee.
- ScreeningBounds.ScreeningIsBound: the layer engine uses the routes the estimates assume, that is, its routing metric is latency; for another metric FastNeverLater applies where each estimate is no longer than the route taken.
- LoneWindows.LoneBound: for transfers that no port or shared medium slows below the slowest link of the route; where one does, the condition is sufficient. LoneBoundIff is for zero tolerance, because a tolerance lets a run be early by as much.
- Screenings.Screen: completion, locality and byte totals of the result are left out, and so are kernel warnings.
- LayerEngines.LayerEngine.Run: bounds the number of turns by twice the flows plus the batches, not by the time simulated.
- Rebalancers.Rebalance: for any measure and any chip load, so it does not use what the measure means; RebalanceBrain instantiates both. Repeated chip ids in the list of movable chips are counted once per listing in the mean load.
- The `counts` table of the rebalancer, which the program fills and never reads.
- Choosing chips for newly allocated copies (`build_eplb_plan`), and `execution_load_balance`.
- Oracles.SmallOracle: candidates carry generated ids, so an objective that reads ids is only minimised over candidates.
- Requests of the server are entries of a table instead of objects; step costs and jitter are arbitrary non-negative functions; latency percentiles, goodput and the memory plan are derived from what is modelled.
- Servers.Server.Run: requires a positive batch limit, because a limit of zero makes decode slice an empty batch; monotone token times are claimed for first tokens only, since pools of prefill and decode may be disjoint.
- Multicasts.Replay: with a tolerance in time, an empty payload over links whose delay is positive but within the tolerance is left open; whether they pass it on depends on when the link before completes within the tolerance.
- Kernels.KernelRises: p95 times, repetitions, shapes and provenance of samples are not modelled.
- Dispatchers.Plan: the time of one activation between two endpoints is a given function, the same for dispatch and combine, instead of a route search.
- EnergyAccounts.AccountSystemEnergy: requires that no execution ends before it starts, as the layer engine guarantees; provenance counting is left out.
- Executors.Execute: op costs, collective costs and bridge costs are given, non-negative in time; a device's energy is the sum of its sources. Warnings, traces and the scaling of a graph to a micro-batch are left out.
- Device cost heuristics, hardware registry, energy calibration, units, command line, plots, reports and file formats.
