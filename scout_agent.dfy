/**
 * The scout (scout_agent.py): an agent that discovers a route from its start
 * drone to its end drone. Going out, it hops to a drone not yet on its route,
 * preferring the safest non-empty distance band and paying energy for the hop;
 * having reached the end drone it walks the route back, measuring each hop
 * again and collecting the distances, until it is next to the start drone.
 *
 * The random `choice` of the source is a nondeterministic pick from the pool.
 * Distances are a function argument (see DistanceUtils).
 */
module ScoutAgent {
  import opened Basics
  import opened Thresholds
  import opened DistanceUtils

  /** `ExplorePhase`. */
  datatype ExplorePhase = SearchingEndDrone | GoingBackToStart | ScoutingEnded | Stuck

  /** The fields of a scout that its moves change. */
  datatype ScoutState = ScoutState(path: seq<int>, wayBack: seq<real>, index: int, phase: ExplorePhase, energy: real)

  /** The three lists of `cluster_drones_by_location`, each in the order of `drones`. */
  datatype Clusters = Clusters(safe: seq<Drone>, close: seq<Drone>, danger: seq<Drone>)

  /** The distance band of a candidate; `Beyond` is out of radio range. */
  datatype Band = Safe | Close | Danger | Beyond
  {
    /** Lower is safer. */
    function Rank(): int
    {
      match this
      case Safe => 0
      case Close => 1
      case Danger => 2
      case Beyond => 3
    }
  }

  // ---------------------------------------------------------------------------
  // Classification of the candidates
  // ---------------------------------------------------------------------------

  /** The band of a drone at distance `d`: within `stable`, within `close`, within `radius`, or beyond. */
  function BandOf(d: real, sd: SpeedDistances): Band
  {
    if d <= sd.stable then Safe
    else if d <= sd.close then Close
    else if d <= sd.radius then Danger
    else Beyond
  }

  /**
   * `cluster_drones_by_location` as a value: the drones not on `path`, by the
   * band of their distance to `here`, in list order; drones beyond the radio
   * range are dropped.
   */
  function Clustered(drones: seq<Drone>, path: seq<int>, here: Point, distance: DistanceFunction, sd: SpeedDistances): (c: Clusters)
    ensures |c.safe| + |c.close| + |c.danger| <= |drones|
  {
    if drones == [] then Clusters([], [], [])
    else
      var c := Clustered(drones[..|drones| - 1], path, here, distance, sd);
      var x := drones[|drones| - 1];
      if x.id in path then c
      else Placed(c, x, BandOf(distance(x.pt, here), sd))
  }

  /** `c` with `x` appended to the list of band `b` (unchanged for `Beyond`). */
  function Placed(c: Clusters, x: Drone, b: Band): Clusters
  {
    match b
    case Safe => c.(safe := c.safe + [x])
    case Close => c.(close := c.close + [x])
    case Danger => c.(danger := c.danger + [x])
    case Beyond => c
  }

  /** Classifying one more drone appends it to its band, unless it is on the route. */
  lemma ClusteredSnoc(drones: seq<Drone>, x: Drone, path: seq<int>, here: Point, distance: DistanceFunction, sd: SpeedDistances)
    ensures Clustered(drones + [x], path, here, distance, sd) ==
      if x.id in path then Clustered(drones, path, here, distance, sd)
      else Placed(Clustered(drones, path, here, distance, sd), x, BandOf(distance(x.pt, here), sd))
  {
    assert (drones + [x])[..|drones|] == drones;
  }

  /** The pool `move_forward` draws from: the safest non-empty band. */
  function Pool(c: Clusters): (r: seq<Drone>)
    ensures r == c.safe || r == c.close || r == c.danger
    ensures r == [] <==> c.safe == [] && c.close == [] && c.danger == []
  {
    if |c.safe| > 0 then c.safe
    else if |c.close| > 0 then c.close
    else c.danger
  }

  /**
   * Each band holds exactly the drones of the list that are off the route
   * and whose distance falls in that band.
   */
  lemma {:induction false} ClusteredBands(drones: seq<Drone>, path: seq<int>, here: Point, distance: DistanceFunction, sd: SpeedDistances)
    ensures var c := Clustered(drones, path, here, distance, sd);
      forall x ::
        && (x in c.safe <==> x in drones && x.id !in path && BandOf(distance(x.pt, here), sd) == Safe)
        && (x in c.close <==> x in drones && x.id !in path && BandOf(distance(x.pt, here), sd) == Close)
        && (x in c.danger <==> x in drones && x.id !in path && BandOf(distance(x.pt, here), sd) == Danger)
  {
    if drones != [] {
      var init := drones[..|drones| - 1];
      ClusteredBands(init, path, here, distance, sd);
      assert drones == init + [drones[|drones| - 1]];
    }
  }

  /**
   * The pick is off the route and within range, and no eligible drone of the
   * list is in a safer band than it.
   */
  lemma PoolIsSafestBand(drones: seq<Drone>, path: seq<int>, here: Point, distance: DistanceFunction, sd: SpeedDistances, pick: Drone)
    requires pick in Pool(Clustered(drones, path, here, distance, sd))
    ensures pick in drones && pick.id !in path && BandOf(distance(pick.pt, here), sd) != Beyond
    ensures forall x :: x in drones && x.id !in path ==>
      BandOf(distance(pick.pt, here), sd).Rank() <= BandOf(distance(x.pt, here), sd).Rank()
  {
    var c := Clustered(drones, path, here, distance, sd);
    ClusteredBands(drones, path, here, distance, sd);
    forall x | x in drones && x.id !in path
      ensures BandOf(distance(pick.pt, here), sd).Rank() <= BandOf(distance(x.pt, here), sd).Rank()
    {
      if |c.safe| == 0 {
        assert x !in c.safe;
        if |c.close| == 0 {
          assert x !in c.close;
        }
      }
    }
  }

  /** The pool is empty exactly when every drone is on the route or out of range. */
  lemma PoolEmptyIffNoCandidate(drones: seq<Drone>, path: seq<int>, here: Point, distance: DistanceFunction, sd: SpeedDistances)
    ensures Pool(Clustered(drones, path, here, distance, sd)) == [] <==>
      forall x :: x in drones && x.id !in path ==> BandOf(distance(x.pt, here), sd) == Beyond
  {
    var c := Clustered(drones, path, here, distance, sd);
    ClusteredBands(drones, path, here, distance, sd);
    if Pool(c) != [] {
      var pick := Pool(c)[0];
      assert pick in Pool(c);
      PoolIsSafestBand(drones, path, here, distance, sd, pick);
    } else {
      forall x | x in drones && x.id !in path ensures BandOf(distance(x.pt, here), sd) == Beyond {
        assert x !in c.safe && x !in c.close && x !in c.danger;
      }
    }
  }

  // ---------------------------------------------------------------------------
  // Specification of the moves
  // ---------------------------------------------------------------------------

  /** The pool of candidates seen from the scout's current drone. */
  function PoolOf(s: ScoutState, drones: seq<Drone>, distance: DistanceFunction, sd: SpeedDistances): seq<Drone>
    requires 0 <= s.index < |s.path| && Located(drones, s.path[s.index])
  {
    Pool(Clustered(drones, s.path, PointOf(drones, s.path[s.index]), distance, sd))
  }

  /** The distance `move_forward` measures: from the current drone to the pick. */
  function PickDistance(s: ScoutState, drones: seq<Drone>, distance: DistanceFunction, pick: Option<Drone>): real
    requires 0 <= s.index < |s.path| && Located(drones, s.path[s.index])
  {
    match pick
    case None => 0.0
    case Some(x) => distance(PointOf(drones, s.path[s.index]), x.pt)
  }

  /**
   * `move_forward`, given the pick (`None` for an empty pool) and the
   * distance `d` to it: an empty pool sticks the scout; otherwise the hop's
   * energy is paid, and if energy remains the pick joins the route, turning
   * the scout round when it is the end drone.
   */
  function Forward(s: ScoutState, endDroneId: int, pick: Option<Drone>, d: real, sd: SpeedDistances): (r: (ScoutState, bool))
    ensures r.0.wayBack == s.wayBack
    ensures r.1 <==> pick.Some? && r.0.energy > 0.0
    ensures r.1 ==> r.0.path == s.path + [pick.value.id] && r.0.index == s.index + 1
    ensures !r.1 ==> r.0.path == s.path && r.0.index == s.index && r.0.phase == Stuck
  {
    match pick
    case None => (s.(phase := Stuck), false)
    case Some(x) =>
      var energy := if d < sd.stable then s.energy - 1.0 else s.energy - (d - sd.stable + 1.0);
      if energy <= 0.0 then (s.(energy := energy, phase := Stuck), false)
      else
        (s.(energy := energy, path := s.path + [x.id], index := s.index + 1,
            phase := if x.id == endDroneId then GoingBackToStart else s.phase), true)
  }

  /** Python's `path[index - 1]`, which wraps round to the last entry when `index` is 0. */
  function Previous(path: seq<int>, index: int): (p: int)
    requires 0 <= index < |path|
    ensures p in path
  {
    if index >= 1 then path[index - 1] else path[|path| - 1]
  }

  /** The distance `move_back` measures: from the current drone to the previous one. */
  function BackDistance(s: ScoutState, drones: seq<Drone>, distance: DistanceFunction): real
    requires 0 <= s.index < |s.path| && Located(drones, s.path[s.index]) && Located(drones, Previous(s.path, s.index))
  {
    distance(PointOf(drones, s.path[s.index]), PointOf(drones, Previous(s.path, s.index)))
  }

  /**
   * `move_back` with the measured distance `d`: out of range sticks the
   * scout; otherwise the distance is prepended, and the scout either stops
   * next to the start drone (without stepping onto it) or steps back one hop.
   */
  function Back(s: ScoutState, startDroneId: int, d: real, sd: SpeedDistances): (r: (ScoutState, bool))
    requires 0 <= s.index < |s.path|
    ensures r.0.path == s.path && r.0.energy == s.energy
    ensures |r.0.wayBack| <= |s.wayBack| + 1
    ensures r.1 ==> r.0.index == s.index - 1 && r.0.phase == s.phase
    ensures !r.1 ==> r.0.index == s.index && r.0.phase in {Stuck, ScoutingEnded}
  {
    if d > sd.radius then (s.(phase := Stuck), false)
    else
      var collected := s.(wayBack := [d] + s.wayBack);
      if Previous(s.path, s.index) == startDroneId then (collected.(phase := ScoutingEnded), false)
      else (collected.(index := s.index - 1), true)
  }

  /** The state `reset` (and the constructor) establish. */
  function Initial(startDroneId: int, energyLimit: int): (s: ScoutState)
    ensures 0 <= s.index < |s.path| && s.path[s.index] == startDroneId && Distinct(s.path)
    ensures s.phase == SearchingEndDrone && s.wayBack == [] && s.energy == energyLimit as real
  {
    ScoutState([startDroneId], [], 0, SearchingEndDrone, energyLimit as real)
  }

  /**
   * What a scout's state looks like between moves: a route from the start
   * drone without repeats and a valid index; going out, the scout stands on
   * the last drone and has no distances; going back, it has one distance per
   * hop walked back; when done it stands next to the start with one distance
   * per hop. Every collected distance is within radio range.
   */
  predicate Consistent(s: ScoutState, startDroneId: int, endDroneId: int, sd: SpeedDistances)
  {
    && |s.path| >= 1 && s.path[0] == startDroneId && Distinct(s.path)
    && 0 <= s.index < |s.path|
    && (forall k :: 0 <= k < |s.wayBack| ==> s.wayBack[k] <= sd.radius)
    && (s.phase == SearchingEndDrone ==> s.index == |s.path| - 1 && s.wayBack == [])
    && (s.phase == GoingBackToStart ==>
          1 <= s.index && |s.wayBack| + s.index == |s.path| - 1 && s.path[|s.path| - 1] == endDroneId)
    && (s.phase == ScoutingEnded ==>
          s.index == 1 && |s.wayBack| == |s.path| - 1 && s.path[|s.path| - 1] == endDroneId)
  }

  // ---------------------------------------------------------------------------
  // Properties of the moves
  // ---------------------------------------------------------------------------

  /** A fresh or reset scout is consistent. */
  lemma InitialIsConsistent(startDroneId: int, endDroneId: int, energyLimit: int, sd: SpeedDistances)
    ensures Consistent(Initial(startDroneId, energyLimit), startDroneId, endDroneId, sd)
  {
  }

  /**
   * The outcomes of a forward move with a pick: energy always drops by the
   * hop cost (at least 1); the move fails, changing nothing else but the
   * phase to STUCK, exactly when no energy is left; a successful move appends
   * the pick, advances the index to the new last drone, and turns the scout
   * round exactly when the pick is the end drone.
   */
  lemma ForwardOutcomes(s: ScoutState, endDroneId: int, x: Drone, d: real, sd: SpeedDistances)
    requires s.phase == SearchingEndDrone && s.index == |s.path| - 1
    ensures var (s', ok) := Forward(s, endDroneId, Some(x), d, sd);
      && s'.energy == s.energy - HopCost(d, sd.stable) <= s.energy - 1.0
      && (ok <==> s'.energy > 0.0)
      && (!ok ==> s' == s.(energy := s'.energy, phase := Stuck))
      && (ok ==> s'.path == s.path + [x.id] && s'.index == |s'.path| - 1 && s'.wayBack == s.wayBack)
      && (ok ==> (s'.phase == GoingBackToStart <==> x.id == endDroneId))
      && (ok ==> s'.phase in {SearchingEndDrone, GoingBackToStart})
  {
  }

  /** An empty pool sticks the scout and changes nothing else, energy included. */
  lemma EmptyPoolSticks(s: ScoutState, endDroneId: int, d: real, sd: SpeedDistances)
    ensures Forward(s, endDroneId, None, d, sd) == (s.(phase := Stuck), false)
  {
  }

  /** A forward move with a pick from the pool keeps the scout consistent. */
  lemma ForwardKeepsConsistent(s: ScoutState, drones: seq<Drone>, distance: DistanceFunction, sd: SpeedDistances,
                               startDroneId: int, endDroneId: int, pick: Option<Drone>)
    requires Consistent(s, startDroneId, endDroneId, sd) && s.phase == SearchingEndDrone
    requires Located(drones, s.path[s.index])
    requires pick.Some? ==> pick.value in PoolOf(s, drones, distance, sd)
    ensures Consistent(Forward(s, endDroneId, pick, PickDistance(s, drones, distance, pick), sd).0, startDroneId, endDroneId, sd)
  {
    if pick.Some? {
      var here := PointOf(drones, s.path[s.index]);
      PoolIsSafestBand(drones, s.path, here, distance, sd, pick.value);
      var (s', ok) := Forward(s, endDroneId, pick, PickDistance(s, drones, distance, pick), sd);
      if ok {
        DistinctAppend(s.path, pick.value.id);
        assert s'.path[0] == s.path[0];
      }
    }
  }

  /**
   * The outcomes of a backward move: out of range it sticks with route,
   * index and distances unchanged; otherwise the distance goes in front,
   * and the scout stops next to the start drone (index unchanged) or steps
   * back by one.
   */
  lemma BackOutcomes(s: ScoutState, startDroneId: int, d: real, sd: SpeedDistances)
    requires 0 <= s.index < |s.path|
    ensures var (s', ok) := Back(s, startDroneId, d, sd);
      && (d > sd.radius ==> !ok && s' == s.(phase := Stuck))
      && (d <= sd.radius ==> s'.wayBack == [d] + s.wayBack && s'.path == s.path && s'.energy == s.energy)
      && (d <= sd.radius && Previous(s.path, s.index) == startDroneId ==>
            !ok && s'.phase == ScoutingEnded && s'.index == s.index)
      && (d <= sd.radius && Previous(s.path, s.index) != startDroneId ==>
            ok && s'.phase == s.phase && s'.index == s.index - 1)
  {
  }

  /** A backward move keeps the scout consistent. */
  lemma BackKeepsConsistent(s: ScoutState, startDroneId: int, endDroneId: int, d: real, sd: SpeedDistances)
    requires Consistent(s, startDroneId, endDroneId, sd) && s.phase == GoingBackToStart
    ensures Consistent(Back(s, startDroneId, d, sd).0, startDroneId, endDroneId, sd)
  {
    var (s', ok) := Back(s, startDroneId, d, sd);
    if d <= sd.radius {
      assert forall k :: 1 <= k < |s'.wayBack| ==> s'.wayBack[k] == s.wayBack[k - 1];
      if Previous(s.path, s.index) == startDroneId {
        assert s.path[s.index - 1] == s.path[0];
      }
    }
  }

  /**
   * A scout that finished scouting holds a route fit for the route table:
   * at least one hop, no repeated drone, from the start to the end drone,
   * and exactly one measured distance per hop.
   */
  lemma ScoutingEndedYieldsRoute(s: ScoutState, startDroneId: int, endDroneId: int, sd: SpeedDistances)
    requires Consistent(s, startDroneId, endDroneId, sd) && s.phase == ScoutingEnded
    ensures |s.path| >= 2 && |s.wayBack| == |s.path| - 1 && Distinct(s.path)
    ensures s.path[0] == startDroneId && s.path[|s.path| - 1] == endDroneId
  {
  }

  /** A Euclidean distance from a point on the y axis to the origin is its height. */
  lemma HeightAboveOrigin(distance: DistanceFunction, y: nat)
    requires IsEuclidean(distance)
    ensures distance(Point(0, y), Point(0, 0)) == y as real
  {
    assert SquaredDistance(Point(0, y), Point(0, 0)) == y * y;
    SquareRootUnique(distance(Point(0, y), Point(0, 0)), y as real);
  }

  /** Drone 0 at the origin and drones 1 and 2 at heights `y1` and `y2`. */
  function Column(y1: int, y2: int): seq<Drone>
  {
    [Drone(0, Point(0, 0)), Drone(1, Point(0, y1)), Drone(2, Point(0, y2))]
  }

  /** Seen from drone 0 at the origin, drone 1 and then drone 2 are placed by the bands of their heights. */
  lemma ColumnFromOrigin(distance: DistanceFunction, sd: SpeedDistances, y1: nat, y2: nat)
    requires IsEuclidean(distance)
    ensures PoolOf(Initial(0, 100), Column(y1, y2), distance, sd) ==
      Pool(Placed(Placed(Clusters([], [], []), Drone(1, Point(0, y1)), BandOf(y1 as real, sd)), Drone(2, Point(0, y2)), BandOf(y2 as real, sd)))
  {
    var ds, origin, none := Column(y1, y2), Point(0, 0), Clusters([], [], []);
    assert FindById(ds, 0) == Some(ds[0]);
    HeightAboveOrigin(distance, y1);
    HeightAboveOrigin(distance, y2);
    ClusteredSnoc([], ds[0], [0], origin, distance, sd);
    ClusteredSnoc([ds[0]], ds[1], [0], origin, distance, sd);
    ClusteredSnoc([ds[0], ds[1]], ds[2], [0], origin, distance, sd);
    assert [ds[0], ds[1]] + [ds[2]] == ds;
  }

  /**
   * The unit-test pools with thresholds 5, 10 and 15, seen from a scout at
   * drone 0: a safe drone is preferred to a close one, a close one to a
   * danger one, a danger one to none out of range; with nothing in range
   * the pool is empty.
   */
  lemma ScoutPoolScenarios(distance: DistanceFunction)
    requires IsEuclidean(distance)
    ensures var sd, s := SpeedDistances(5.0, 10.0, 15.0), Initial(0, 100);
      && PoolOf(s, Column(1, 10), distance, sd) == [Drone(1, Point(0, 1))]
      && PoolOf(s, Column(6, 11), distance, sd) == [Drone(1, Point(0, 6))]
      && PoolOf(s, Column(11, 20), distance, sd) == [Drone(1, Point(0, 11))]
      && PoolOf(s, Column(20, 20), distance, sd) == []
  {
    var sd := SpeedDistances(5.0, 10.0, 15.0);
    ColumnFromOrigin(distance, sd, 1, 10);
    ColumnFromOrigin(distance, sd, 6, 11);
    ColumnFromOrigin(distance, sd, 11, 20);
    ColumnFromOrigin(distance, sd, 20, 20);
  }

  /**
   * The unit-test moves with thresholds 5, 10 and 15: without energy a hop
   * sticks the scout; reaching the end drone turns it round; going back on
   * the route 0, 1, 2 it steps from 2 to 1, sticks when the hop is out of
   * range, and stops at 1 because 0 is the start.
   */
  lemma ScoutMoveScenarios()
    ensures var sd := SpeedDistances(5.0, 10.0, 15.0);
      && Forward(Initial(0, 0), 2, Some(Drone(1, Point(0, 1))), 1.0, sd).0.phase == Stuck
      && Forward(Initial(0, 100), 1, Some(Drone(1, Point(0, 1))), 1.0, sd).0.phase == GoingBackToStart
    ensures var sd, s := SpeedDistances(5.0, 10.0, 15.0), ScoutState([0, 1, 2], [], 2, GoingBackToStart, 100.0);
      && Back(s, 0, 1.0, sd) == (s.(index := 1, wayBack := [1.0]), true)
      && Back(s, 0, 19.0, sd).0.phase == Stuck
      && Back(s.(index := 1), 0, 1.0, sd) == (s.(index := 1, wayBack := [1.0], phase := ScoutingEnded), false)
  {
    var s := ScoutState([0, 1, 2], [], 2, GoingBackToStart, 100.0);
    assert Previous(s.path, 2) == 1 && [1.0] + s.wayBack == [1.0];
    assert Previous(s.(index := 1).path, 1) == 0;
  }

  // ---------------------------------------------------------------------------
  // The scout
  // ---------------------------------------------------------------------------

  class Scout {
    const startDroneId: int
    const endDroneId: int
    var path: seq<int>
    var wayBackDistances: seq<real>
    var currentDroneIndex: int
    var explorePhase: ExplorePhase
    var energyLimit: real

    /** The fields the moves change, as a value. */
    function State(): ScoutState
      reads this
    {
      ScoutState(path, wayBackDistances, currentDroneIndex, explorePhase, energyLimit)
    }

    /** A scout at its start drone, searching for the end drone. */
    constructor (startDroneId: int, endDroneId: int, energyLimit: int)
      ensures this.startDroneId == startDroneId && this.endDroneId == endDroneId
      ensures State() == Initial(startDroneId, energyLimit)
    {
      this.startDroneId := startDroneId;
      this.endDroneId := endDroneId;
      this.path := [startDroneId];
      this.wayBackDistances := [];
      this.currentDroneIndex := 0;
      this.explorePhase := SearchingEndDrone;
      this.energyLimit := energyLimit as real;
    }

    /** `reset`: back to the start drone with a new energy budget. */
    method Reset(energyLimit: int)
      modifies this
      ensures State() == Initial(startDroneId, energyLimit)
    {
      path := [startDroneId];
      wayBackDistances := [];
      currentDroneIndex := 0;
      explorePhase := SearchingEndDrone;
      this.energyLimit := energyLimit as real;
    }

    /** `cluster_drones_by_location`: one pass over the drones, appending to the bands. */
    method ClusterDronesByLocation(drones: seq<Drone>, currentPoint: Point, distance: DistanceFunction, sd: SpeedDistances)
      returns (c: Clusters)
      ensures c == Clustered(drones, path, currentPoint, distance, sd)
    {
      c := Clusters([], [], []);
      var i := 0;
      while i < |drones|
        invariant 0 <= i <= |drones|
        invariant c == Clustered(drones[..i], path, currentPoint, distance, sd)
      {
        var drone := drones[i];
        assert drones[..i + 1][..i] == drones[..i];
        if drone.id in path {
          i := i + 1;
          continue;
        }
        var distanceToDrone := distance(drone.pt, currentPoint);
        if distanceToDrone <= sd.stable {
          c := c.(safe := c.safe + [drone]);
        } else if distanceToDrone <= sd.close {
          c := c.(close := c.close + [drone]);
        } else if distanceToDrone <= sd.radius {
          c := c.(danger := c.danger + [drone]);
        }
        i := i + 1;
      }
      assert drones[..|drones|] == drones;
    }

    /**
     * `move_forward`: classify, take the safest non-empty band, draw any
     * drone from it, pay for the hop, and extend the route. `picked` is the
     * draw (`None` when the pool is empty).
     */
    method MoveForward(drones: seq<Drone>, distance: DistanceFunction, sd: SpeedDistances)
      returns (ok: bool, ghost picked: Option<Drone>)
      requires 0 <= currentDroneIndex < |path| && Located(drones, path[currentDroneIndex])
      modifies this
      ensures var pool := PoolOf(old(State()), drones, distance, sd);
        && (picked.None? <==> pool == [])
        && (picked.Some? ==> picked.value in pool)
      ensures (State(), ok) ==
        Forward(old(State()), endDroneId, picked, PickDistance(old(State()), drones, distance, picked), sd)
    {
      var currentDrone := FindAgentById(drones, path[currentDroneIndex]);
      var dronesToChoose: seq<Drone> := [];
      var clusteredDrones := ClusterDronesByLocation(drones, currentDrone.value.pt, distance, sd);
      if |clusteredDrones.danger| > 0 {
        dronesToChoose := clusteredDrones.danger;
      }
      if |clusteredDrones.close| > 0 {
        dronesToChoose := clusteredDrones.close;
      }
      if |clusteredDrones.safe| > 0 {
        dronesToChoose := clusteredDrones.safe;
      }
      assert dronesToChoose == Pool(clusteredDrones);
      if |dronesToChoose| == 0 {
        explorePhase := Stuck;
        return false, None;
      }
      assert dronesToChoose[0] in dronesToChoose;
      var nextDrone :| nextDrone in dronesToChoose;
      picked := Some(nextDrone);
      var distanceToDrone := distance(currentDrone.value.pt, nextDrone.pt);
      if distanceToDrone < sd.stable {
        energyLimit := energyLimit - 1.0;
      } else {
        energyLimit := energyLimit - (distanceToDrone - sd.stable + 1.0);
      }
      if energyLimit <= 0.0 {
        explorePhase := Stuck;
        return false, picked;
      }
      path := path + [nextDrone.id];
      currentDroneIndex := currentDroneIndex + 1;
      if nextDrone.id == endDroneId {
        explorePhase := GoingBackToStart;
      }
      return true, picked;
    }

    /** `move_back`: measure the hop to the previous drone and step back, or stop at the start. */
    method MoveBack(drones: seq<Drone>, distance: DistanceFunction, sd: SpeedDistances) returns (ok: bool)
      requires 0 <= currentDroneIndex < |path|
      requires Located(drones, path[currentDroneIndex]) && Located(drones, Previous(path, currentDroneIndex))
      modifies this
      ensures (State(), ok) == Back(old(State()), startDroneId, BackDistance(old(State()), drones, distance), sd)
    {
      var currentDrone := FindAgentById(drones, path[currentDroneIndex]);
      var previousIndex := if currentDroneIndex >= 1 then currentDroneIndex - 1 else |path| - 1;
      var nextDrone := FindAgentById(drones, path[previousIndex]);
      FoundHasId(drones, path[previousIndex]);
      var distanceToNextDrone := distance(currentDrone.value.pt, nextDrone.value.pt);

      if distanceToNextDrone > sd.radius {
        explorePhase := Stuck;
        return false;
      }
      wayBackDistances := [distanceToNextDrone] + wayBackDistances;
      if nextDrone.value.id == startDroneId {
        explorePhase := ScoutingEnded;
        return false;
      }
      currentDroneIndex := currentDroneIndex - 1;
      return true;
    }

    /** `explore`: move forward or back by phase; `false` and no change when done or stuck. */
    method Explore(drones: seq<Drone>, distance: DistanceFunction, sd: SpeedDistances)
      returns (ok: bool, ghost picked: Option<Drone>)
      requires explorePhase == SearchingEndDrone ==>
        0 <= currentDroneIndex < |path| && Located(drones, path[currentDroneIndex])
      requires explorePhase == GoingBackToStart ==>
        && 0 <= currentDroneIndex < |path| && Located(drones, path[currentDroneIndex])
        && Located(drones, Previous(path, currentDroneIndex))
      modifies this
      ensures old(explorePhase) == SearchingEndDrone ==>
        && (picked.Some? ==> picked.value in PoolOf(old(State()), drones, distance, sd))
        && (picked.None? <==> PoolOf(old(State()), drones, distance, sd) == [])
        && (State(), ok) == Forward(old(State()), endDroneId, picked, PickDistance(old(State()), drones, distance, picked), sd)
      ensures old(explorePhase) == GoingBackToStart ==>
        (State(), ok) == Back(old(State()), startDroneId, BackDistance(old(State()), drones, distance), sd)
      ensures old(explorePhase) in {ScoutingEnded, Stuck} ==> !ok && State() == old(State())
    {
      picked := None;
      if explorePhase == SearchingEndDrone {
        ok, picked := MoveForward(drones, distance, sd);
      } else if explorePhase == GoingBackToStart {
        ok := MoveBack(drones, distance, sd);
      } else {
        ok := false;
      }
    }
  }
}
