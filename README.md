# BeeAdHocSimulation relay protocol in Dafny

A verified model of the core of BeeAdHocSimulation. In that agent simulation,
a swarm of relay drones carries data packages between a start drone and an end drone.

- **Scouts** (`scout_agent.py`) explore a route hop by hop. Each hop goes to a
  drone in the safest non-empty distance band. The scout pays energy for every
  hop, then walks back to the start and measures each hop's distance.
- **The route table** (`path_utils.py`) admits a scouted route as a `Path`:
  - A route close to disconnection is refused.
  - A route sharing no directed hop with a usable route is admitted.
  - A route sharing hops with exactly one usable route replaces it when it is
    not slower.
  - A route sharing hops with two or more usable routes is refused.
  - Measured distances refresh a path and may retire it.
- **Workers** (`worker_agent.py`) carry one package along a path. They hold a
  busy flag on each directed hop while crossing it. At the end drone they turn
  round and collect the distances on the way back.
- **Data** (`data_utils.py`) is split into packages whose states are 0 waiting,
  1 being sent, 2 delivered and -1 lost. The data controller lists waiting
  packages and says when everything is delivered or lost.
- **The parameter check** (`params_utils.py`) and **the drone lookup and
  Euclidean distance** (`distance_utils.py`) complete the core.

The project has one module per source file, plus `Basics` (option type,
distinctness, index lookup) and `Thresholds` (the `[stable, close, radius]`
triple and the per-hop cost shared by scouts and workers). How each part is modelled:

- **Objects the source updates in place** are classes: `Path`, `PathsController`,
  `Worker`, `Scout`, `Package`, `Data` and `DataController`. Each method is proved
  against a pure specification function of the old state:
  - `AdmitInto` and `Refreshed` for the route table, over a value view
    `map<int, PathView>`.
  - `Forward` and `Back` for workers and for scouts.
  - `NotSent` and `AllNotSent` for data, over snapshots of package states.
- **Properties of the protocol** are lemmas about those functions:
  - the admission policy and the invariant that usable routes never share a hop;
  - how the busy flags are released and claimed;
  - the phase invariants of scouts and workers;
  - exactness and order of the waiting-package lists;
  - the guard order of the parameter check.
- **The `distance` function** is a parameter. `IsEuclidean` pins it down as the
  non-negative square root of the exact integer squared distance.
- **The scout's random choice** is a nondeterministic pick from the pool.
  `MoveForward` reports the pick as a ghost out-parameter.

## Model

| member | source | states |
|---|---|---|
| DistanceUtils.FindById | distance_utils.py:1-4 | The lookup as a value. A drone it returns belongs to the list and carries the requested id. |
| DistanceUtils.FindAgentById | distance_utils.py:1-4 | The scan returns exactly `FindById`: the first drone carrying the id, or `None` when there is none. |
| DistanceUtils.FindByIdIsFirstMatch | distance_utils.py:1-4 | `None` exactly when no drone has the id. Otherwise the answer is a drone of the list with that id, and no earlier drone has it. |
| DistanceUtils.FoundHasId | distance_utils.py:1-4 | A drone found by id carries that id and belongs to the list. |
| DistanceUtils.FindByIdScenarios | utils_unit_tests.py:32-44 | With ten drones of ids 0..9, id 7 finds the eighth drone and id 11 finds nothing. |
| DistanceUtils.EuclideanIsMetric | distance_utils.py:6-7 | A distance that is the non-negative root of the squared distance is non-negative and symmetric. |
| DistanceUtils.SquareRootUnique | distance_utils.py:6-7 | Two non-negative reals with the same square are equal, so the root is determined. |
| DistanceUtils.SquaredDistanceSymmetric | distance_utils.py:6-7 | The radicand does not depend on the order of the points. |
| DistanceUtils.EuclideanExamples | utils_unit_tests.py:16-30 | The distance between the test points is 5, for both positive and negative coordinates. |
| ParamsUtils.CheckParams | params_utils.py:1-39 | Accepted exactly when the message is the all-correct one. Acceptance implies `stable < close < radius`, radius positive, at least two drones and every count, period and dimension positive. |
| ParamsUtils.CheckParamsMatchesGuardTable | params_utils.py:1-39 | Acceptance holds exactly when none of the twelve guards fails. A rejection reports the message of the first failing guard in source order. |
| Thresholds.HopCost | scout_agent.py:85-88 | The per-hop cost is at least 1. It is 1 within the stable distance and `d - stable + 1` beyond it (the worker's delay at worker_agent.py:69-72 is the same value). |
| Thresholds.HopCostMonotone | scout_agent.py:85-88 | A longer hop never costs less, and beyond the stable distance it costs strictly more. |
| PathUtils.HopScore | path_utils.py:22-26 | A hop's score lies in (0, 1] and is the reciprocal of the hop cost. |
| PathUtils.ScoreSum | path_utils.py:21-26 | The summed score lies between 0 and the number of hops, and is positive for a non-empty route. |
| PathUtils.Speed | path_utils.py:21-28 | A route's speed, the mean hop score, lies in (0, 1]. |
| PathUtils.ScoreSumUpdate | path_utils.py:21-26 | Changing one distance changes the sum by the difference of the two hop scores. |
| PathUtils.HopScoreDecreasing | path_utils.py:23-26 | Beyond the stable distance a longer hop scores strictly less. |
| PathUtils.DivideMonotone | path_utils.py:28 | Dividing by the positive hop count keeps strict order. |
| PathUtils.SpeedStrictlyDecreasing | path_utils.py:21-28 | Lengthening any hop that is at or beyond the stable distance strictly lowers the speed. |
| PathUtils.ScoreTotal | path_utils.py:21-26 | The accumulation loop computes `ScoreSum` of the distances. |
| PathUtils.EdgesAreHops | path_utils.py:17-19 | The busy-flag keys are exactly the directed hops `(hops[i], hops[i+1])`. |
| PathUtils.Intersects | path_utils.py:32-36 | Two routes conflict when they share a directed hop. Only routes of at least two drones can conflict. |
| PathUtils.IntersectsSymmetric | path_utils.py:32-36 | Sharing a directed hop is symmetric. |
| PathUtils.IntersectsItself | path_utils.py:32-36 | A route of at least two drones intersects itself. |
| PathUtils.IntersectsExamples | path_utils.py:32-36 | Reversed hops do not intersect. A shared directed hop does. Shared drones without a shared hop do not. |
| PathUtils.CloseToDisconnect | path_utils.py:38-43 | A route is close to disconnection when some distance reaches the close threshold. An empty distance list never is, and neither is a list whose distances are all below the threshold. |
| PathUtils.MaxDistanceIsMax | path_utils.py:38-43 | `MaxDistance` bounds every distance and is one of them. |
| PathUtils.CloseToDisconnectIffMax | path_utils.py:38-43 | A route is close to disconnection exactly when its longest hop reaches the close distance. |
| PathUtils.CloseToDisconnectOrderFree | path_utils.py:38-43 | The disconnect test does not depend on the order of the distances. |
| PathUtils.NextMap | path_utils.py:7-9 | `next_drones` as a value, built left to right so a later entry overwrites. For a route of at least two drones, the second-to-last drone maps to the last. |
| PathUtils.BackMap | path_utils.py:11-13 | `back_drones` as a value, built left to right so a later entry overwrites. For a route of at least two drones, the last drone maps to the second-to-last. |
| PathUtils.NextMapIsSuccessor | path_utils.py:7-9 | The forward map has exactly the non-last drones as keys. Each entry is a directed hop of the route. On a route without repeats it maps each drone to its successor. |
| PathUtils.BackMapIsPredecessor | path_utils.py:11-13 | The backward map has exactly the non-first drones as keys. Each entry is a directed hop. On a route without repeats it maps each drone to its predecessor. |
| PathUtils.NextBackInverse | path_utils.py:7-13 | On a route without repeats the forward and backward maps are inverse to each other. |
| PathUtils.NeighboursOf | path_utils.py:7-13 | For the drone at position i: its predecessor and successor in the maps, whether it is first or last, and that its incoming and outgoing hops differ. |
| PathUtils.NextIsHop | path_utils.py:7-9 | Every forward-map entry is a directed hop of the route. |
| PathUtils.BackIsHop | path_utils.py:11-13 | Every backward-map entry is a directed hop of the route. |
| PathUtils.LastHopHasNoNext | path_utils.py:7-13 | A route drone with no successor is the last drone and has a predecessor. One with no predecessor is the first and has a successor. |
| PathUtils.BuildNextDrones | path_utils.py:7-9 | The construction loop builds exactly the forward map `NextMap`. |
| PathUtils.BuildBackDrones | path_utils.py:11-13 | The construction loop builds exactly the backward map `BackMap`. |
| PathUtils.BuildConnectionBusiness | path_utils.py:17-19 | The construction loop marks every directed hop, and only those, as free. |
| PathUtils.AllFree | path_utils.py:17-19 | Keys are the route's directed hops and no flag is set. |
| PathUtils.Built | path_utils.py:3-30 | The path a constructor call leaves: the given hops and distances, usable, one free flag per directed hop, and a speed in (0, 1]. |
| PathUtils.Path.constructor | path_utils.py:3-30 | A new path has the given id, hops and distances, the forward and backward maps, all hops free, speed `Speed(distances)` and the usable flag set. |
| PathUtils.Path.IsIntersect | path_utils.py:32-36 | True exactly when the two routes share a directed hop. |
| PathUtils.Path.IsPathCloseToDisconnect | path_utils.py:38-43 | True exactly when some distance is at least the close distance. |
| PathUtils.UsableIds | path_utils.py:85-91 | Lists exactly the usable paths of the table. |
| PathUtils.UsableIdsIncreasing | path_utils.py:85-91 | The usable paths come in id order, which is the table's insertion order. |
| PathUtils.IntersectingIds | path_utils.py:57-61 | Keeps exactly the listed paths that share a hop with the new route. |
| PathUtils.IntersectingIdsIncreasing | path_utils.py:57-61 | Filtering keeps id order. |
| PathUtils.Hits | path_utils.py:57-61 | The conflicts are exactly the usable paths sharing a directed hop with the new route. |
| PathUtils.HitsIncreasing | path_utils.py:57-61 | The conflicts come in id order. |
| PathUtils.HitsShape | path_utils.py:63-76 | The conflict count is read off through membership: none, one named conflict, or two distinct ones. |
| PathUtils.Overlapping | path_utils.py:59-61 | The filtered list is no longer than its input, and each path in it shares a hop with the new route. |
| PathUtils.ScanConflicts | path_utils.py:58-61 | The scan over the usable paths keeps exactly `Overlapping`, in order. |
| PathUtils.PathsController.OverlappingListed | path_utils.py:57-61 | Scanning the usable paths of the table yields exactly the paths that the conflict ids name. |
| PathUtils.AdmissionOf | path_utils.py:52-76 | An eviction names a usable, already-issued path. |
| PathUtils.AdmitInto | path_utils.py:52-76 | The next id advances by one exactly when the route is not refused, and a refusal leaves the table unchanged. An admitted route is stored under the old next id as a freshly built path. Every other entry keeps its hops and can only lose its usable flag. |
| PathUtils.Refreshed | path_utils.py:78-83 | The table keeps its ids, and only the refreshed entry changes. That entry keeps its hops, takes the new distances with every flag free, and is usable exactly when not close to disconnection. |
| PathUtils.AdmissionCases | path_utils.py:52-76 | Five outcomes. Close to disconnection: refused, table unchanged. No conflict: stored under the next id. One slower-than-new conflict: retired and the new path stored. One faster conflict: refused. Two or more: refused. |
| PathUtils.DisjointPathIsAdmitted | path_utils.py:63-66 | A route not close to disconnection and sharing no hop with any usable path is admitted under a fresh id. |
| PathUtils.ClosePathIsRejected | path_utils.py:53-55 | A route whose longest hop reaches the close distance is refused and nothing changes. |
| PathUtils.SingleConflictPolicy | path_utils.py:67-74 | With exactly one conflicting usable path: a strictly slower new route is refused; otherwise the old path is retired and the new one stored. |
| PathUtils.ManyConflictsRejected | path_utils.py:75-76 | Two distinct conflicting usable paths make the route refused and leave the table unchanged. |
| PathUtils.AdmissionKeepsUsableDisjoint | path_utils.py:52-76 | Admission preserves the table invariant that no two usable paths share a directed hop. |
| PathUtils.NoConflictKeepsDisjoint | path_utils.py:63-66 | Storing a conflict-free route keeps usable paths pairwise disjoint. |
| PathUtils.OneConflictKeepsDisjoint | path_utils.py:67-74 | Retiring the single conflict and storing the new route keeps usable paths pairwise disjoint. |
| PathUtils.UsableDisjointRetire | path_utils.py:71 | Retiring a path keeps usable paths pairwise disjoint. |
| PathUtils.UsableDisjointAddFresh | path_utils.py:72 | Adding a route disjoint from every usable path under a fresh id keeps the invariant. |
| PathUtils.AddSameTwice | path_utils.py:67-74 | The tie case of the single-conflict rule: adding the same route with the same distances twice stores both under consecutive ids and retires the first, because an equal speed is not slower. |
| PathUtils.RefreshCanReviveRetiredPath | path_utils.py:78-83 | A refresh sets usability only from the new distances, so it can make a retired path usable again while it overlaps a usable path. The invariant does not survive `update_path_distances`. |
| PathUtils.PathsController.constructor | path_utils.py:47-50 | An empty table whose next id is 0, with the given thresholds. |
| PathUtils.PathsController.GetPathsCanBeUsed | path_utils.py:85-91 | Returns exactly the usable path objects, in id order. |
| PathUtils.PathsController.CollectConflicts | path_utils.py:57-61 | Returns exactly the usable path objects that share a hop with the new route, in id order. |
| PathUtils.PathsController.TryAddPath | path_utils.py:52-76 | The table and next id become `AdmitInto` of the old ones. The answer is true exactly when the policy does not refuse. The table stays well formed. |
| PathUtils.PathsController.Admit | path_utils.py:63-76 | For a route not close to disconnection, with its conflicts listed, the table follows `AdmitInto`. |
| PathUtils.PathsController.Contest | path_utils.py:67-74 | With exactly one conflict: refuse when slower, otherwise retire it and store the new path, as `AdmitInto` says. |
| PathUtils.PathsController.Supersede | path_utils.py:71-73 | The conflicting path's usable flag is cleared and the new path is stored under the next id. |
| PathUtils.PathsController.Store | path_utils.py:64-65 | The path is stored under the next id, which advances by one. Nothing else changes. |
| PathUtils.PathsController.Retire | path_utils.py:71 | Only the usable flag of that one path changes. |
| PathUtils.PathsController.UpdatePathDistances | path_utils.py:78-83 | The entry becomes a fresh path on the same hops with the new distances, free hops and recomputed speed. It is usable exactly when not close to disconnection. Other entries are unchanged. |
| PathUtils.PathsController.Replace | path_utils.py:83 | Only the entry under the path's id changes. |
| WorkerAgent.Forward | worker_agent.py:43-73 | A forward move keeps the set of hop flags and leaves the collected distances alone. |
| WorkerAgent.Back | worker_agent.py:75-92 | A successful backward move prepends the measured distance. A failed one changes neither the distances nor the position. |
| WorkerAgent.ForwardOutcomes | worker_agent.py:43-73 | The code is 0, -1 or -2. It is -1 exactly when a next drone exists out of radio range, and the worker is then stuck. -2 leaves the worker as it was. 0 schedules a later tick, keeping the phase or turning round. |
| WorkerAgent.ForwardAtEndDrone | worker_agent.py:44-49 | At the end drone the worker turns round, frees the hop it arrived by, waits one tick and returns 0. |
| WorkerAgent.ForwardReleasesIncoming | worker_agent.py:56-58 | The hop the worker arrived by is free after any forward move. Flags other than the incoming and outgoing hops never change. |
| WorkerAgent.ForwardClaimsAhead | worker_agent.py:64-68 | -2 means the hop ahead was busy. 0 means it was free, is now held, and the worker stands on the next drone. |
| WorkerAgent.ForwardDelayIsHopCost | worker_agent.py:69-72 | A successful hop schedules the next move after the hop cost. |
| WorkerAgent.BackOutcomes | worker_agent.py:75-92 | -3 exactly at the start drone (sending ends). -4 exactly for an unreachable predecessor (stuck). Otherwise the worker steps back, prepends the distance and waits one tick. |
| WorkerAgent.ForwardKeepsOnPath | worker_agent.py:43-73 | Going out, a worker stays on the route with no distances collected. |
| WorkerAgent.BackKeepsOnPath | worker_agent.py:75-92 | Going back, the collected distances plus the worker's position add up to the hop count, and every distance is in range. |
| WorkerAgent.SendingEndedHasOneDistancePerHop | worker_agent.py:76-78 | When sending ends, exactly one distance per hop has been collected, as `update_path_distances` needs. |
| WorkerAgent.WorkerScenarios | agent_unit_tests.py:104-176 | On route 0-1-2: a worker moves on, turns round at the end, gets stuck out of range, gets -2 on a busy hop, steps back, and ends at the start. |
| WorkerAgent.Worker.constructor | worker_agent.py:24-34 | A new worker is sending to the end from its drone, with the given tick and no distances. |
| WorkerAgent.Worker.MoveForward | worker_agent.py:43-73 | The worker state, the path's flags and the code are exactly `Forward` of the old state with the measured distance. The path stays well formed and its usable flag is untouched. |
| WorkerAgent.Worker.Advance | worker_agent.py:56-73 | For a drone with a successor, the release, range check, busy check, claim and delay follow `Forward`. |
| WorkerAgent.Worker.MoveBack | worker_agent.py:75-92 | The worker state and code are exactly `Back` of the old state with the measured distance. |
| WorkerAgent.Worker.Send | worker_agent.py:95-102 | Dispatches on the phase: `Forward` when sending to the end, `Back` when going back, and -5 with nothing changed otherwise. Only the busy flags of the worker's path change in the table. |
| ScoutAgent.Clustered | scout_agent.py:47-67 | `cluster_drones_by_location` as a value: the three bands together hold no more drones than the list. |
| ScoutAgent.Pool | scout_agent.py:73-78 | The pool is one of the three bands, and it is empty exactly when all three are. |
| ScoutAgent.Forward | scout_agent.py:69-99 | A forward move never touches the collected distances. It succeeds exactly when there was a pick and energy is left. Success appends the pick and advances the index. Failure leaves the route and index and sets the phase to stuck. |
| ScoutAgent.Previous | scout_agent.py:103 | `path[index - 1]` with Python's wrap-round at index 0; always a drone of the route. |
| ScoutAgent.Back | scout_agent.py:101-116 | A backward move keeps the route and the energy and adds at most one distance. Success steps the index back one place and keeps the phase. Failure keeps the index and leaves the scout stuck or done. |
| ScoutAgent.Initial | scout_agent.py:35-40 | The scout stands on its start drone, on a route without repeats, searching, with no distances and the given energy. |
| ScoutAgent.ClusteredSnoc | scout_agent.py:50-65 | One more drone lands in the band of its distance, unless it is already on the route. |
| ScoutAgent.ClusteredBands | scout_agent.py:47-67 | A drone is in the safe, close or danger band exactly when it is off the route and its distance falls in that band. |
| ScoutAgent.PoolIsSafestBand | scout_agent.py:73-78 | Any drone of the pool is off the route, within radio range, and in a band at least as safe as that of every other candidate. |
| ScoutAgent.PoolEmptyIffNoCandidate | scout_agent.py:73-81 | The pool is empty exactly when every drone off the route is out of radio range. |
| ScoutAgent.InitialIsConsistent | scout_agent.py:28-32 | A new or reset scout satisfies the scout invariant. |
| ScoutAgent.ForwardOutcomes | scout_agent.py:83-99 | Energy drops by the hop cost, at least 1. The move fails, with only the phase set to stuck, exactly when energy runs out. Otherwise it appends the pick, advances the index and turns round exactly at the end drone. |
| ScoutAgent.EmptyPoolSticks | scout_agent.py:79-81 | An empty pool makes the scout stuck and returns false. |
| ScoutAgent.ForwardKeepsConsistent | scout_agent.py:69-99 | A forward move with any pick from the pool keeps the route free of repeats and the invariant intact. |
| ScoutAgent.BackOutcomes | scout_agent.py:101-116 | An unreachable predecessor sticks the scout. Otherwise the distance is prepended, and the scout stops next to the start (scouting ended) or steps back one drone. |
| ScoutAgent.BackKeepsConsistent | scout_agent.py:101-116 | A backward move keeps the scout invariant. |
| ScoutAgent.ScoutingEndedYieldsRoute | scout_agent.py:110-113 | A finished scout holds a route from start to end drone without repeats, with one distance per hop, as `try_add_path` needs. |
| ScoutAgent.HeightAboveOrigin | utils_unit_tests.py:16-22 | The Euclidean distance from (0, y) to the origin is y. |
| ScoutAgent.ColumnFromOrigin | scout_agent.py:47-67 | For two drones above the start drone, the pool is the safest band of their heights. |
| ScoutAgent.ScoutPoolScenarios | agent_unit_tests.py:19-49 | With the thresholds 5, 10, 15: the pool is the safe drone when a close drone is also in range. It is the close drone when a danger drone is also in range. It is the danger drone when the other drone is out of range. It is empty when every drone is out of range. |
| ScoutAgent.ScoutMoveScenarios | agent_unit_tests.py:51-100 | Zero energy sticks the scout. Reaching the end drone turns it round. Stepping back works, an unreachable predecessor sticks it, and reaching the start ends scouting. |
| ScoutAgent.Scout.constructor | scout_agent.py:23-33 | A new scout stands at its start drone, searching, with the given energy. |
| ScoutAgent.Scout.Reset | scout_agent.py:35-40 | The scout returns to the initial state with the new energy. |
| ScoutAgent.Scout.ClusterDronesByLocation | scout_agent.py:47-67 | The one-pass loop builds exactly the bands `Clustered` describes. |
| ScoutAgent.Scout.MoveForward | scout_agent.py:69-99 | The pick is drawn from the pool, and none is drawn exactly when the pool is empty. The new state and answer are `Forward` with that pick and its measured distance. |
| ScoutAgent.Scout.MoveBack | scout_agent.py:101-116 | The new state and answer are `Back` with the measured distance to the previous route drone. |
| ScoutAgent.Scout.Explore | scout_agent.py:118-124 | Dispatches on the phase: forward when searching, back when returning, and false with nothing changed when ended or stuck. |
| DataUtils.FreshRecords | data_utils.py:13-15 | A new unit of size n has packages 0..n-1 in order, all waiting. |
| DataUtils.NotSent | data_utils.py:17-23 | The waiting list of one unit holds only waiting packages, and no more than the unit has. |
| DataUtils.AllNotSent | data_utils.py:36-42 | The controller's listing holds only waiting packages. |
| DataUtils.AllDeliveredOrLost | data_utils.py:44-50 | Every package of every unit is neither waiting nor being sent. With no data at all the answer is true. |
| DataUtils.NotSentExactly | data_utils.py:17-23 | The waiting list holds exactly the waiting packages, and no more than there are. |
| DataUtils.NotSentKeepsOrder | data_utils.py:17-23 | The waiting list keeps id order. |
| DataUtils.AllWaitingListed | utils_unit_tests.py:101-108 | When every package is waiting, all of them are listed. |
| DataUtils.AllNotSentExactly | data_utils.py:36-42 | A (data id, package) pair is listed exactly when that unit has that package waiting. |
| DataUtils.AllNotSentOrdered | data_utils.py:36-42 | The listing is ordered by data id and then by package id. |
| DataUtils.NoneWaiting | data_utils.py:17-23 | A unit without a waiting package contributes nothing. |
| DataUtils.NothingWaitingNothingListed | data_utils.py:36-42 | With no waiting package anywhere, the listing is empty. |
| DataUtils.DoneMeansNothingToSend | data_utils.py:36-50 | Once everything is delivered or lost, nothing is listed for sending. |
| DataUtils.PendingMeansNotDone | data_utils.py:44-50 | A waiting or in-flight package keeps the controller from being done. |
| DataUtils.MarkingEmptiesList | utils_unit_tests.py:110-121 | Handing out every waiting package empties the listing. |
| DataUtils.MarkingSettles | utils_unit_tests.py:132-143 | Setting every waiting package to delivered or lost, with none in flight, settles everything. |
| DataUtils.AddedDataJoinsTheList | data_utils.py:31-42 | A new unit's packages join the end of the listing, all of them, in id order. |
| DataUtils.DataScenarios | utils_unit_tests.py:101-143 | Two units of eight packages list sixteen and are not done. After handing all out nothing is listed. After delivering all, everything is settled. |
| DataUtils.Package.constructor | data_utils.py:3-5 | A new package carries its id and is waiting. |
| DataUtils.WaitingAmongRecords | data_utils.py:17-23 | Filtering the package objects agrees with filtering their snapshot, and keeps only stored objects. |
| DataUtils.Tag | data_utils.py:39-40 | Pairs every element, a package record or a package object, with the data id, keeping length and order. |
| DataUtils.ListedTag | data_utils.py:39-40 | Appending one unit's packages under its id appends their tagged snapshots. |
| DataUtils.Data.constructor | data_utils.py:9-15 | A new unit has packages under keys 0..size-1, each fresh, carrying its key as id, and waiting. |
| DataUtils.Data.Ordered | data_utils.py:13-15 | The packages in key order are exactly the stored objects. |
| DataUtils.Data.GetNotSentPackages | data_utils.py:17-23 | The loop returns exactly the stored waiting package objects, in key order. |
| DataUtils.Data.NotSentPackages | data_utils.py:17-23 | The returned objects are stored packages of the unit, and their snapshot is `NotSent` of the unit's snapshot. |
| DataUtils.SnapshotOf | data_utils.py:38 | The snapshot lists units 0..n-1 in id order. |
| DataUtils.SnapshotExtend | data_utils.py:32 | Storing a unit under the next id appends its snapshot. |
| DataUtils.AllNotSentStep | data_utils.py:38-40 | One more unit appends its waiting packages under its id. |
| DataUtils.OuterStep | data_utils.py:38-40 | One round of the outer loop extends the listing by one unit, and every pair still names a stored package. |
| DataUtils.DataController.constructor | data_utils.py:27-29 | No data yet, and the next id is 0. |
| DataUtils.DataController.AddData | data_utils.py:31-34 | A fresh unit of fresh waiting packages is stored under the next id and returned. The id advances, and the snapshot gains that unit at the end. |
| DataUtils.DataController.Register | data_utils.py:32-33 | The unit goes under the next id, which advances. The snapshot gains it at the end. |
| DataUtils.DataController.GetNotSentPackages | data_utils.py:36-42 | The pairs are exactly `AllNotSent` of the snapshot. Each names a package object stored in its unit. |
| DataUtils.DataController.IsAllPackagesDeliveredOrLost | data_utils.py:44-50 | True exactly when no package of any unit is waiting or being sent. |
| Basics.IndexOfDistinct | worker_agent.py:43-92 | In a list without repeats, the index of the element at position i is i. |
| Basics.DistinctAppend | scout_agent.py:93 | Appending a drone that is not on the route keeps the route free of repeats. |

## Left out

- Randomness: `random.choice` in `move_forward` is a nondeterministic pick from the pool. The draw itself is not modelled.
- The square root in `distance` is not computed. The distance is a function parameter, and `IsEuclidean` characterises it exactly.
- Floating point: distances, speeds, ticks and energy are exact reals. The source mixes ints and floats: `next_tick_to_move` becomes fractional, and the scout's integer energy limit becomes a float.
- bee_ad_hoc.py (the simulation loop, logging, drone movement), agent_utils.py (agent restore), drone_agent.py and total_log.py are not part of this model. They are the callers and the I/O around the core.
- The repast4py glue (`core.Agent` bases, `save`, `get_location_point`, the context) is left out. Drones appear as values (`Drone(id, pt)`) passed in as a list.
- The package state changes to 1, 2 and -1 happen in the simulation loop (bee_ad_hoc.py:117, 170, 182, 190). They are covered only as the bulk step `MarkWaiting` in lemmas.
- DataUtils.DataController.GetNotSentPackages: the inner loop over one unit's waiting packages is one concatenation of those (data id, package) pairs. The outer loop over the units is kept.
- PathUtils.Path.constructor: requires `|distances| == |drones_path| - 1 >= 1`. With no distances the source divides by zero. With fewer distances than hops it silently builds a path with fewer busy flags than forward hops. Neither case arises from a finished scout (`ScoutAgent.ScoutingEndedYieldsRoute`).
- PathUtils.PathsController.TryAddPath: inherits that requirement on the scouted route and distances.
- PathUtils.PathsController.UpdatePathDistances: requires as many non-empty distances as the path has hops, which `WorkerAgent.SendingEndedHasOneDistancePerHop` guarantees for a finished worker.
- PathUtils.BuildNextDrones and PathUtils.BuildBackDrones: require a non-empty hop list, as every path built by the constructor has.
- PathUtils.Path.IsIntersect: the source returns `None` rather than `False` when no hop is shared. Only truthiness is used, so the model returns `false`.
- WorkerAgent.Worker.MoveForward, WorkerAgent.Worker.MoveBack, WorkerAgent.Worker.Send, ScoutAgent.Scout.MoveForward, ScoutAgent.Scout.MoveBack and ScoutAgent.Scout.Explore require the drones they measure to be present in the drone list, the worker's drone to be on its path, and the scout's index to lie within its route (the source only ever moves it between 0 and the last position). On a missing drone or key the source raises (`None.pt` or a `KeyError`). Those crashes are not modelled.
- WorkerAgent.Worker.Send: also requires the worker's path id to be in the table, as the source's dictionary lookup does.
- ScoutAgent.Scout.MoveBack: at index 0 the source reads `path[-1]`, Python's last element. `Previous` models that wrap-round. A consistent scout never goes back from index 0.
- The parameter check has twelve guards in the code. The message of the fifth guard is kept verbatim, including its missing word.
- PathUtils.RefreshCanReviveRetiredPath: `update_path_distances` sets usability from the new distances only. It can revive a retired path that overlaps a usable one, so no lemma claims that refreshes preserve the disjointness invariant.
