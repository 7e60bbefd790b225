/**
 * Positions of the relay drones and the lookup of a drone by its id
 * (distance_utils.py). The square root in `distance` is not computed: a
 * distance is a function argument, and `IsEuclidean` pins it down as the
 * non-negative root of the exact integer squared distance.
 */
module DistanceUtils {
  import opened Basics

  /** A grid point (repast `DiscretePoint`, integer coordinates). */
  datatype Point = Point(x: int, y: int)

  /** The part of a drone agent the protocol reads: its id and its current point. */
  datatype Drone = Drone(id: int, pt: Point)

  /** A distance between two points, as the source's `distance(pt1, pt2)`. */
  type DistanceFunction = (Point, Point) -> real

  /** `(x1 - x2) ** 2 + (y1 - y2) ** 2`, the radicand of `distance`. */
  function SquaredDistance(p: Point, q: Point): int
  {
    (p.x - q.x) * (p.x - q.x) + (p.y - q.y) * (p.y - q.y)
  }

  /** `distance` is the non-negative square root of the squared distance. */
  ghost predicate IsEuclidean(distance: DistanceFunction)
  {
    forall p, q :: 0.0 <= distance(p, q) && distance(p, q) * distance(p, q) == SquaredDistance(p, q) as real
  }

  /** What the protocol relies on: distances are non-negative and symmetric. */
  ghost predicate IsMetric(distance: DistanceFunction)
  {
    forall p, q :: 0.0 <= distance(p, q) && distance(p, q) == distance(q, p)
  }

  /** Two non-negative reals with the same square are equal. */
  lemma SquareRootUnique(a: real, b: real)
    requires 0.0 <= a && 0.0 <= b && a * a == b * b
    ensures a == b
  {
    assert (a - b) * (a + b) == a * a - b * b;
    if a + b != 0.0 {
      assert a - b == 0.0;
    }
  }

  /** The squared distance does not depend on the order of the points. */
  lemma SquaredDistanceSymmetric(p: Point, q: Point)
    ensures SquaredDistance(p, q) == SquaredDistance(q, p)
  {
    assert (p.x - q.x) * (p.x - q.x) == (q.x - p.x) * (q.x - p.x);
    assert (p.y - q.y) * (p.y - q.y) == (q.y - p.y) * (q.y - p.y);
  }

  /** The Euclidean distance is non-negative and symmetric. */
  lemma EuclideanIsMetric(distance: DistanceFunction)
    requires IsEuclidean(distance)
    ensures IsMetric(distance)
  {
    forall p, q
      ensures 0.0 <= distance(p, q) && distance(p, q) == distance(q, p)
    {
      SquaredDistanceSymmetric(p, q);
      SquareRootUnique(distance(p, q), distance(q, p));
    }
  }

  /** The 3-4-5 triangle, in both quadrants. */
  lemma EuclideanExamples(distance: DistanceFunction)
    requires IsEuclidean(distance)
    ensures distance(Point(0, 0), Point(3, 4)) == 5.0
    ensures distance(Point(0, 0), Point(-3, -4)) == 5.0
  {
    assert SquaredDistance(Point(0, 0), Point(3, 4)) == 25;
    assert SquaredDistance(Point(0, 0), Point(-3, -4)) == 25;
    SquareRootUnique(distance(Point(0, 0), Point(3, 4)), 5.0);
    SquareRootUnique(distance(Point(0, 0), Point(-3, -4)), 5.0);
  }

  /** `find_agent_by_id`: the first drone of `agents` whose id is `id`, or `None`. */
  function FindById(agents: seq<Drone>, id: int): (r: Option<Drone>)
    ensures r.Some? ==> r.value in agents && r.value.id == id
  {
    if agents == [] then None
    else if agents[0].id == id then Some(agents[0])
    else FindById(agents[1..], id)
  }

  /** Some drone of `agents` has id `id`. */
  predicate Located(agents: seq<Drone>, id: int)
  {
    FindById(agents, id).Some?
  }

  /** The point of the drone with id `id`. */
  function PointOf(agents: seq<Drone>, id: int): Point
    requires Located(agents, id)
  {
    FindById(agents, id).value.pt
  }

  /**
   * The lookup answers `None` exactly when no drone has the id; otherwise it
   * answers the drone at the first position holding that id.
   */
  lemma {:induction false} FindByIdIsFirstMatch(agents: seq<Drone>, id: int)
    ensures FindById(agents, id).None? <==> forall k :: 0 <= k < |agents| ==> agents[k].id != id
    ensures FindById(agents, id).Some? ==>
      exists k :: 0 <= k < |agents| && agents[k] == FindById(agents, id).value && agents[k].id == id &&
        forall j :: 0 <= j < k ==> agents[j].id != id
  {
    if agents != [] && agents[0].id != id {
      FindByIdIsFirstMatch(agents[1..], id);
      if FindById(agents, id).Some? {
        var k :| 0 <= k < |agents[1..]| && agents[1..][k] == FindById(agents, id).value && agents[1..][k].id == id &&
          forall j :: 0 <= j < k ==> agents[1..][j].id != id;
        assert agents[k + 1] == FindById(agents, id).value;
        assert forall j :: 0 <= j < k + 1 ==> agents[j].id != id by {
          forall j | 0 <= j < k + 1 ensures agents[j].id != id {
            if j > 0 { assert agents[j] == agents[1..][j - 1]; }
          }
        }
      } else {
        forall k | 0 <= k < |agents| ensures agents[k].id != id {
          if k > 0 { assert agents[k] == agents[1..][k - 1]; }
        }
      }
    }
  }

  /** A found drone carries the requested id and belongs to the list. */
  lemma FoundHasId(agents: seq<Drone>, id: int)
    requires Located(agents, id)
    ensures FindById(agents, id).value.id == id && FindById(agents, id).value in agents
  {
    FindByIdIsFirstMatch(agents, id);
  }

  /** `find_agent_by_id` as the source writes it: a scan with an early return. */
  method FindAgentById(agents: seq<Drone>, id: int) returns (r: Option<Drone>)
    ensures r == FindById(agents, id)
  {
    var i := 0;
    while i < |agents|
      invariant 0 <= i <= |agents|
      invariant FindById(agents[i..], id) == FindById(agents, id)
    {
      if id == agents[i].id {
        return Some(agents[i]);
      }
      assert agents[i..][1..] == agents[i + 1..];
      i := i + 1;
    }
    return None;
  }

  /** The unit-test snapshot: ten drones with ids 0..9, all at the origin. */
  function TestDrones(): seq<Drone>
  {
    seq(10, i => Drone(i, Point(0, 0)))
  }

  /** Looking up id 7 finds the eighth drone; id 11 is absent. */
  lemma FindByIdScenarios()
    ensures FindById(TestDrones(), 7) == Some(TestDrones()[7])
    ensures FindById(TestDrones(), 11) == None
  {
    var ds := TestDrones();
    FindByIdIsFirstMatch(ds, 11);
    FindByIdIsFirstMatch(ds, 7);
    var k :| 0 <= k < |ds| && ds[k] == FindById(ds, 7).value && ds[k].id == 7 &&
      forall j :: 0 <= j < k ==> ds[j].id != 7;
    assert ds[k].id == k;
  }
}
