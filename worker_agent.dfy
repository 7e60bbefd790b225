/**
 * The relay worker (worker_agent.py): one package travelling along a stored
 * path, hop by hop towards the end drone and then back to the start, claiming
 * the busy flag of each directed hop it crosses and releasing the one behind
 * it. Each move answers an integer outcome code:
 *    0  moved (or turned round at the end drone)
 *   -1  the next drone is out of radio range (STUCK)
 *   -2  the next hop is held by another worker
 *   -3  back at the start (SENDING_ENDED)
 *   -4  the previous drone is out of radio range (STUCK)
 *   -5  nothing to do in a terminal phase
 *
 * The moves are specified by `Forward` and `Back` on values; the methods of
 * `Worker` are proved to do exactly what those functions say.
 */
module WorkerAgent {
  import opened Basics
  import opened Thresholds
  import opened DistanceUtils
  import opened PathUtils

  /** `SendingPhase`. */
  datatype SendingPhase = SendingToEnd | GoingBackToStart | SendingEnded | Stuck

  /** The fields of a worker that its moves change. */
  datatype RelayState = RelayState(phase: SendingPhase, current: int, nextTick: real, wayBack: seq<real>)

  /** A forward move: the new worker state, the path's busy flags, and the outcome code. */
  datatype Step = Step(state: RelayState, busy: map<(int, int), bool>, code: int)

  /** A backward move: the new worker state and the outcome code (busy flags are not touched). */
  datatype Outcome = Outcome(state: RelayState, code: int)

  // ---------------------------------------------------------------------------
  // Specification of the moves
  // ---------------------------------------------------------------------------

  /**
   * `move_forward` on a path with hop list `hops` and flags `busy`, where `d`
   * is the measured distance to the next drone (read only when there is one).
   * At the end drone the worker turns round and frees the hop it arrived by.
   * Elsewhere it frees the hop it arrived by first, and only then looks at the
   * range and at the flag of the hop ahead.
   */
  function Forward(r: RelayState, hops: seq<int>, busy: map<(int, int), bool>, d: real, now: int, sd: SpeedDistances): (s: Step)
    requires |hops| >= 2 && r.current in hops && busy.Keys == Edges(hops)
    ensures s.busy.Keys == busy.Keys
    ensures s.state.wayBack == r.wayBack
  {
    var next, back := NextMap(hops), BackMap(hops);
    NextMapIsSuccessor(hops);
    BackMapIsPredecessor(hops);
    LastHopHasNoNext(hops, r.current);
    if r.current !in next then
      Step(r.(phase := GoingBackToStart, nextTick := now as real + 1.0),
           busy[(back[r.current], r.current) := false], 0)
    else
      var ahead := next[r.current];
      var released := if r.current in back then busy[(back[r.current], r.current) := false] else busy;
      if d > sd.radius then
        Step(r.(phase := Stuck), released, -1)
      else if released[(r.current, ahead)] then
        Step(r, released, -2)
      else
        var delay := if d > sd.stable then d - sd.stable + 1.0 else 1.0;
        Step(r.(current := ahead, nextTick := now as real + delay), released[(r.current, ahead) := true], 0)
  }

  /**
   * `move_back`, where `d` is the measured distance to the previous drone
   * (read only when there is one): the start drone ends the journey, an
   * unreachable predecessor sticks the worker, otherwise it steps back one
   * hop and records the distance at the front of `wayBack`.
   */
  function Back(r: RelayState, hops: seq<int>, d: real, now: int, sd: SpeedDistances): (o: Outcome)
    requires |hops| >= 2
    ensures o.code == 0 ==> o.state.wayBack == [d] + r.wayBack
    ensures o.code != 0 ==> o.state.wayBack == r.wayBack && o.state.current == r.current
  {
    var back := BackMap(hops);
    if r.current !in back then
      Outcome(r.(phase := SendingEnded), -3)
    else if d > sd.radius then
      Outcome(r.(phase := Stuck), -4)
    else
      Outcome(r.(wayBack := [d] + r.wayBack, current := back[r.current], nextTick := now as real + 1.0), 0)
  }

  /** The distance `move_forward` measures: from the current drone to the next one. */
  function ForwardDistance(drones: seq<Drone>, distance: DistanceFunction, hops: seq<int>, current: int): real
    requires current in NextMap(hops) ==> Located(drones, current) && Located(drones, NextMap(hops)[current])
  {
    if current in NextMap(hops) then distance(PointOf(drones, current), PointOf(drones, NextMap(hops)[current])) else 0.0
  }

  /** The distance `move_back` measures: from the current drone to the previous one. */
  function BackDistance(drones: seq<Drone>, distance: DistanceFunction, hops: seq<int>, current: int): real
    requires current in BackMap(hops) ==> Located(drones, current) && Located(drones, BackMap(hops)[current])
  {
    if current in BackMap(hops) then distance(PointOf(drones, current), PointOf(drones, BackMap(hops)[current])) else 0.0
  }

  /**
   * Where a worker can be on a path without repeated drones: on the path;
   * with no distance collected while going out; going back, one collected
   * distance per hop already walked back (so the collected distances and the
   * position of the current drone add up to the number of hops); done, one
   * per hop. Every collected distance is within radio range.
   */
  predicate OnPath(r: RelayState, hops: seq<int>, sd: SpeedDistances)
  {
    && r.current in hops
    && (forall k :: 0 <= k < |r.wayBack| ==> r.wayBack[k] <= sd.radius)
    && (r.phase == SendingToEnd ==> r.wayBack == [])
    && (r.phase == GoingBackToStart ==> |r.wayBack| + IndexOf(hops, r.current) == |hops| - 1)
    && (r.phase == SendingEnded ==> |r.wayBack| == |hops| - 1)
  }

  // ---------------------------------------------------------------------------
  // Properties of the moves
  // ---------------------------------------------------------------------------

  /**
   * The outcomes of a forward move: 0, -1 or -2. The worker stays put unless
   * the code is 0; -1 is exactly an out-of-range next drone; -2 changes
   * nothing of the worker; a move or a turn always schedules a later tick.
   */
  lemma ForwardOutcomes(r: RelayState, hops: seq<int>, busy: map<(int, int), bool>, d: real, now: int, sd: SpeedDistances)
    requires |hops| >= 2 && r.current in hops && busy.Keys == Edges(hops)
    ensures var s := Forward(r, hops, busy, d, now, sd);
      && (s.code == 0 || s.code == -1 || s.code == -2)
      && (s.code == -1 <==> r.current in NextMap(hops) && d > sd.radius)
      && (s.code == -1 ==> s.state == r.(phase := Stuck))
      && (s.code == -2 ==> s.state == r)
      && (s.code == 0 ==> s.state.nextTick > now as real && s.state.phase in {r.phase, GoingBackToStart})
  {
  }

  /**
   * At the end drone the worker turns round in place: phase GOING_BACK, next
   * tick one later, code 0, and the hop it arrived by is freed.
   */
  lemma ForwardAtEndDrone(r: RelayState, hops: seq<int>, busy: map<(int, int), bool>, d: real, now: int, sd: SpeedDistances)
    requires |hops| >= 2 && busy.Keys == Edges(hops) && Distinct(hops)
    requires r.current == hops[|hops| - 1]
    ensures var s := Forward(r, hops, busy, d, now, sd);
      && s.code == 0 && s.state == r.(phase := GoingBackToStart, nextTick := now as real + 1.0)
      && s.busy == busy[(hops[|hops| - 2], r.current) := false]
  {
    NeighboursOf(hops, |hops| - 1);
  }

  /**
   * Whatever the outcome of a forward move, even -1 or -2, the hop the worker
   * arrived by is freed; and no flag changes but that one and the one ahead.
   */
  lemma ForwardReleasesIncoming(r: RelayState, hops: seq<int>, busy: map<(int, int), bool>, d: real, now: int, sd: SpeedDistances, i: int)
    requires |hops| >= 2 && busy.Keys == Edges(hops) && Distinct(hops)
    requires 0 <= i < |hops| && r.current == hops[i]
    ensures var s := Forward(r, hops, busy, d, now, sd);
      && (i > 0 ==> Hop(hops, i - 1) in s.busy && !s.busy[Hop(hops, i - 1)])
      && (forall e :: e in busy && (i == 0 || e != Hop(hops, i - 1)) && (i == |hops| - 1 || e != Hop(hops, i)) ==>
            s.busy[e] == busy[e])
  {
    NeighboursOf(hops, i);
    var s := Forward(r, hops, busy, d, now, sd);
    var released := if i > 0 then busy[Hop(hops, i - 1) := false] else busy;
    if i == |hops| - 1 {
      assert s.busy == released;
    } else {
      assert s.busy == released || s.busy == released[Hop(hops, i) := true];
    }
  }

  /**
   * The flag of the hop ahead is a lease: -2 means another worker holds it;
   * a successful step finds it free and claims it, moving on to the next drone.
   */
  lemma ForwardClaimsAhead(r: RelayState, hops: seq<int>, busy: map<(int, int), bool>, d: real, now: int, sd: SpeedDistances, i: int)
    requires |hops| >= 2 && busy.Keys == Edges(hops) && Distinct(hops)
    requires 0 <= i < |hops| - 1 && r.current == hops[i]
    ensures var s := Forward(r, hops, busy, d, now, sd);
      && Hop(hops, i) in busy
      && (s.code == -2 ==> busy[Hop(hops, i)])
      && (s.code == 0 ==> !busy[Hop(hops, i)] && s.busy[Hop(hops, i)] && s.state.current == hops[i + 1])
  {
    NeighboursOf(hops, i);
  }

  /** A successful step schedules the next move one hop cost later (1 in the stable band). */
  lemma ForwardDelayIsHopCost(r: RelayState, hops: seq<int>, busy: map<(int, int), bool>, d: real, now: int, sd: SpeedDistances)
    requires |hops| >= 2 && r.current in hops && busy.Keys == Edges(hops)
    requires r.current in NextMap(hops)
    ensures var s := Forward(r, hops, busy, d, now, sd);
      s.code == 0 ==> s.state.nextTick == now as real + HopCost(d, sd.stable)
  {
  }

  /**
   * The outcomes of a backward move: -3 exactly at the start drone, -4
   * exactly for an out-of-range predecessor, otherwise 0 with the distance
   * prepended, the predecessor as the current drone, and the next tick one later.
   */
  lemma BackOutcomes(r: RelayState, hops: seq<int>, d: real, now: int, sd: SpeedDistances, i: int)
    requires |hops| >= 2 && Distinct(hops)
    requires 0 <= i < |hops| && r.current == hops[i]
    ensures var o := Back(r, hops, d, now, sd);
      && (o.code == -3 <==> i == 0)
      && (o.code == -3 ==> o.state == r.(phase := SendingEnded))
      && (o.code == -4 <==> i > 0 && d > sd.radius)
      && (o.code == -4 ==> o.state == r.(phase := Stuck))
      && (o.code == 0 ==> o.state == r.(wayBack := [d] + r.wayBack, current := hops[i - 1], nextTick := now as real + 1.0))
  {
    NeighboursOf(hops, i);
  }

  /** A forward move keeps the worker on the path, with its bookkeeping intact. */
  lemma ForwardKeepsOnPath(r: RelayState, hops: seq<int>, busy: map<(int, int), bool>, d: real, now: int, sd: SpeedDistances)
    requires |hops| >= 2 && busy.Keys == Edges(hops) && Distinct(hops)
    requires r.phase == SendingToEnd && OnPath(r, hops, sd)
    ensures OnPath(Forward(r, hops, busy, d, now, sd).state, hops, sd)
  {
    var i := IndexOf(hops, r.current);
    if i == |hops| - 1 {
      ForwardAtEndDrone(r, hops, busy, d, now, sd);
    } else {
      ForwardClaimsAhead(r, hops, busy, d, now, sd, i);
      assert hops[i + 1] in hops;
    }
  }

  /** A backward move keeps the worker on the path, with its bookkeeping intact. */
  lemma BackKeepsOnPath(r: RelayState, hops: seq<int>, d: real, now: int, sd: SpeedDistances)
    requires |hops| >= 2 && Distinct(hops)
    requires r.phase == GoingBackToStart && OnPath(r, hops, sd)
    ensures OnPath(Back(r, hops, d, now, sd).state, hops, sd)
  {
    var i := IndexOf(hops, r.current);
    BackOutcomes(r, hops, d, now, sd, i);
    var o := Back(r, hops, d, now, sd);
    if o.code == 0 {
      IndexOfDistinct(hops, i - 1);
      assert forall k :: 1 <= k < |o.state.wayBack| ==> o.state.wayBack[k] == r.wayBack[k - 1];
    }
  }

  /**
   * A worker that ends its journey has collected exactly one distance per
   * hop of the path: what `update_path_distances` needs.
   */
  lemma SendingEndedHasOneDistancePerHop(r: RelayState, hops: seq<int>, d: real, now: int, sd: SpeedDistances)
    requires |hops| >= 2 && Distinct(hops)
    requires r.phase == GoingBackToStart && OnPath(r, hops, sd)
    requires Back(r, hops, d, now, sd).code == -3
    ensures |Back(r, hops, d, now, sd).state.wayBack| == |hops| - 1
  {
    BackKeepsOnPath(r, hops, d, now, sd);
  }

  /**
   * The unit-test scenarios on the path 0 -> 1 -> 2 with thresholds (5, 10, 15)
   * and all hops free: from drone 1 a hop of length 1 moves on to drone 2; at
   * drone 2 the worker turns round; a hop of length 19 sticks it; a held hop
   * answers -2; going back from drone 2 reaches drone 1, a back hop of length
   * 19 sticks it, and at drone 0 the journey ends.
   */
  lemma WorkerScenarios(r: RelayState)
    requires r.phase == SendingToEnd && r.wayBack == []
    ensures var hops, sd := [0, 1, 2], SpeedDistances(5.0, 10.0, 15.0);
      && Forward(r.(current := 1), hops, AllFree(hops), 1.0, 0, sd).state.current == 2
      && Forward(r.(current := 2), hops, AllFree(hops), 1.0, 0, sd).state.phase == GoingBackToStart
      && Forward(r.(current := 1), hops, AllFree(hops), 19.0, 0, sd).state.phase == Stuck
      && Forward(r.(current := 1), hops, AllFree(hops)[(1, 2) := true], 1.0, 0, sd).code == -2
      && Back(r.(current := 2, phase := GoingBackToStart), hops, 1.0, 0, sd).state.current == 1
      && Back(r.(current := 2, phase := GoingBackToStart), hops, 19.0, 0, sd).state.phase == Stuck
      && Back(r.(current := 0, phase := GoingBackToStart), hops, 1.0, 0, sd).state.phase == SendingEnded
  {
    var hops := [0, 1, 2];
    NeighboursOf(hops, 0);
    NeighboursOf(hops, 1);
    NeighboursOf(hops, 2);
  }

  // ---------------------------------------------------------------------------
  // The worker
  // ---------------------------------------------------------------------------

  class Worker {
    const pathId: int
    var wayBackDistances: seq<real>
    var currentDroneId: int
    const dataId: int
    const packageId: int
    var nextTickToMove: real
    var sendingPhase: SendingPhase

    /** The fields the moves change, as a value. */
    function State(): RelayState
      reads this
    {
      RelayState(sendingPhase, currentDroneId, nextTickToMove, wayBackDistances)
    }

    /** A worker carrying one package, at `currentDroneId`, heading for the end drone. */
    constructor (pathId: int, currentDroneId: int, dataId: int, packageId: int, tick: int)
      ensures this.pathId == pathId && this.dataId == dataId && this.packageId == packageId
      ensures State() == RelayState(SendingToEnd, currentDroneId, tick as real, [])
    {
      this.pathId := pathId;
      this.wayBackDistances := [];
      this.currentDroneId := currentDroneId;
      this.dataId := dataId;
      this.packageId := packageId;
      this.nextTickToMove := tick as real;
      this.sendingPhase := SendingToEnd;
    }

    /** `move_forward`: as `Forward`, updating the path's busy flags in place. */
    method MoveForward(drones: seq<Drone>, distance: DistanceFunction, currentTick: int, path: Path, sd: SpeedDistances)
      returns (code: int)
      requires path.Valid() && currentDroneId in path.dronesPath
      requires currentDroneId in path.nextDrones ==>
        Located(drones, currentDroneId) && Located(drones, path.nextDrones[currentDroneId])
      modifies this, path
      ensures path.Valid() && path.canBeUsed == old(path.canBeUsed)
      ensures Step(State(), path.connectionBusiness, code) ==
        Forward(old(State()), path.dronesPath, old(path.connectionBusiness),
                ForwardDistance(drones, distance, path.dronesPath, old(currentDroneId)), currentTick, sd)
    {
      NextMapIsSuccessor(path.dronesPath);
      BackMapIsPredecessor(path.dronesPath);
      LastHopHasNoNext(path.dronesPath, currentDroneId);
      if currentDroneId !in path.nextDrones {
        sendingPhase := GoingBackToStart;
        var backDroneId := path.backDrones[currentDroneId];
        path.connectionBusiness := path.connectionBusiness[(backDroneId, currentDroneId) := false];
        nextTickToMove := currentTick as real + 1.0;
        return 0;
      }
      var nextDroneId := path.nextDrones[currentDroneId];
      var currentDrone := FindAgentById(drones, currentDroneId);
      var nextDrone := FindAgentById(drones, nextDroneId);
      var distanceToNextDrone := distance(currentDrone.value.pt, nextDrone.value.pt);
      code := Advance(nextDroneId, distanceToNextDrone, currentTick, path, sd);
    }

    /**
     * The rest of `move_forward` once the distance `d` to the next drone is
     * measured: free the hop arrived by, then check range and the lease ahead.
     */
    method Advance(nextDroneId: int, d: real, currentTick: int, path: Path, sd: SpeedDistances) returns (code: int)
      requires path.Valid() && currentDroneId in path.dronesPath
      requires currentDroneId in path.nextDrones && nextDroneId == path.nextDrones[currentDroneId]
      modifies this, path
      ensures path.Valid() && path.canBeUsed == old(path.canBeUsed)
      ensures Step(State(), path.connectionBusiness, code) ==
        Forward(old(State()), path.dronesPath, old(path.connectionBusiness), d, currentTick, sd)
    {
      NextIsHop(path.dronesPath, currentDroneId);
      if currentDroneId in path.backDrones {
        BackIsHop(path.dronesPath, currentDroneId);
      }
      if currentDroneId in path.backDrones {
        var backDroneId := path.backDrones[currentDroneId];
        path.connectionBusiness := path.connectionBusiness[(backDroneId, currentDroneId) := false];
      }
      if d > sd.radius {
        sendingPhase := Stuck;
        return -1;
      }
      if path.connectionBusiness[(currentDroneId, nextDroneId)] {
        return -2;
      }
      path.connectionBusiness := path.connectionBusiness[(currentDroneId, nextDroneId) := true];
      currentDroneId := nextDroneId;
      if d > sd.stable {
        nextTickToMove := currentTick as real + (d - sd.stable + 1.0);
      } else {
        nextTickToMove := currentTick as real + 1.0;
      }
      return 0;
    }

    /** `move_back`: as `Back`; the path is only read. */
    method MoveBack(drones: seq<Drone>, distance: DistanceFunction, currentTick: int, path: Path, sd: SpeedDistances)
      returns (code: int)
      requires path.Valid()
      requires currentDroneId in path.backDrones ==>
        Located(drones, currentDroneId) && Located(drones, path.backDrones[currentDroneId])
      modifies this
      ensures Outcome(State(), code) ==
        Back(old(State()), path.dronesPath, BackDistance(drones, distance, path.dronesPath, old(currentDroneId)), currentTick, sd)
    {
      if currentDroneId !in path.backDrones {
        sendingPhase := SendingEnded;
        return -3;
      }
      var backDroneId := path.backDrones[currentDroneId];
      var currentDrone := FindAgentById(drones, currentDroneId);
      var nextDrone := FindAgentById(drones, backDroneId);
      var distanceToNextDrone := distance(currentDrone.value.pt, nextDrone.value.pt);

      if distanceToNextDrone > sd.radius {
        sendingPhase := Stuck;
        return -4;
      }
      wayBackDistances := [distanceToNextDrone] + wayBackDistances;
      currentDroneId := backDroneId;
      nextTickToMove := currentTick as real + 1.0;
      return 0;
    }

    /**
     * `send`: look the path up by id, then move forward or back by phase;
     * -5 and no change in a terminal phase. Of the table, only the busy
     * flags of the worker's own path can change.
     */
    method Send(drones: seq<Drone>, distance: DistanceFunction, currentTick: int, controller: PathsController, sd: SpeedDistances)
      returns (code: int)
      requires controller.Valid() && pathId in controller.paths && controller.paths[pathId].Valid()
      requires sendingPhase == SendingToEnd ==>
        && currentDroneId in controller.paths[pathId].dronesPath
        && (currentDroneId in controller.paths[pathId].nextDrones ==>
              Located(drones, currentDroneId) && Located(drones, controller.paths[pathId].nextDrones[currentDroneId]))
      requires sendingPhase == GoingBackToStart ==>
        currentDroneId in controller.paths[pathId].backDrones ==>
          Located(drones, currentDroneId) && Located(drones, controller.paths[pathId].backDrones[currentDroneId])
      modifies this, controller.paths[pathId]
      ensures controller.Valid()
      ensures var path := controller.paths[pathId];
        path.View() == old(path.View()).(busy := path.connectionBusiness)
      ensures var hops := controller.paths[pathId].dronesPath;
        old(sendingPhase) == SendingToEnd ==>
          Step(State(), controller.paths[pathId].connectionBusiness, code) ==
          Forward(old(State()), hops, old(controller.paths[pathId].connectionBusiness),
                  ForwardDistance(drones, distance, hops, old(currentDroneId)), currentTick, sd)
      ensures var hops := controller.paths[pathId].dronesPath;
        old(sendingPhase) == GoingBackToStart ==>
          Outcome(State(), code) ==
          Back(old(State()), hops, BackDistance(drones, distance, hops, old(currentDroneId)), currentTick, sd)
      ensures old(sendingPhase) in {SendingEnded, Stuck} ==> code == -5 && State() == old(State())
    {
      var path := controller.paths[pathId];
      if sendingPhase == SendingToEnd {
        code := MoveForward(drones, distance, currentTick, path, sd);
      } else if sendingPhase == GoingBackToStart {
        code := MoveBack(drones, distance, currentTick, path, sd);
      } else {
        code := -5;
      }
      forall k | k in controller.paths && k != pathId
        ensures controller.paths[k].Valid() && controller.paths[k].View() == old(controller.paths[k].View())
      {
        assert controller.paths[k].pathId != path.pathId;
      }
    }
  }
}
