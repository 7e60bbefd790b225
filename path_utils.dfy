/**
 * Routes and the route table (path_utils.py).
 *
 * A `Path` is a hop list of drone ids with the per-hop distances measured on
 * the way back, its forward and backward neighbour maps, one busy flag per
 * directed hop (the lease a worker holds while it crosses that hop), a quality
 * score `speed` and a usable flag. The `PathsController` owns every path ever
 * admitted, keyed by an increasing id, and decides admission: a path close to
 * disconnection is refused; otherwise the usable paths that share a directed
 * hop with it are counted: none admits it, one admits it when it is not slower
 * and retires the other, two or more refuse it.
 *
 * The pure half of this module gives the meaning: quality, edge sets, the
 * disconnect test, a value view of a path (`PathView`) and of the table
 * (`map<int, PathView>`), and the admission and refresh steps on views. The
 * classes are proved against those functions.
 */
module PathUtils {
  import opened Basics
  import opened Thresholds

  // ---------------------------------------------------------------------------
  // Quality ("speed")
  // ---------------------------------------------------------------------------

  /** Score of one hop: 1 inside the stable band, `1 / (d - stable + 1)` beyond it. */
  function HopScore(d: real, stable: real): (s: real)
    ensures 0.0 < s <= 1.0
    ensures s * HopCost(d, stable) == 1.0
  {
    if d < stable then 1.0 else 1.0 / (d - stable + 1.0)
  }

  /** Sum of the hop scores, accumulated left to right as the constructor does. */
  function ScoreSum(ds: seq<real>, stable: real): (t: real)
    ensures 0.0 <= t <= |ds| as real
    ensures |ds| > 0 ==> 0.0 < t
  {
    if ds == [] then 0.0 else ScoreSum(ds[..|ds| - 1], stable) + HopScore(ds[|ds| - 1], stable)
  }

  /** The mean hop score of a non-empty distance list. */
  function Speed(ds: seq<real>, stable: real): (q: real)
    requires |ds| > 0
    ensures 0.0 < q <= 1.0
  {
    var n := |ds| as real;
    assert ScoreSum(ds, stable) <= n;
    ScoreSum(ds, stable) / n
  }

  /** Replacing one hop distance changes the sum by the difference of the two scores. */
  lemma {:induction false} ScoreSumUpdate(ds: seq<real>, i: int, d: real, stable: real)
    requires 0 <= i < |ds|
    ensures ScoreSum(ds[i := d], stable) == ScoreSum(ds, stable) - HopScore(ds[i], stable) + HopScore(d, stable)
  {
    var n := |ds|;
    if i == n - 1 {
      assert ds[i := d][..n - 1] == ds[..n - 1];
    } else {
      assert ds[i := d][..n - 1] == ds[..n - 1][i := d];
      ScoreSumUpdate(ds[..n - 1], i, d, stable);
    }
  }

  /** Beyond the stable band a longer hop scores strictly less. */
  lemma HopScoreDecreasing(d1: real, d2: real, stable: real)
    requires stable <= d1 < d2
    ensures HopScore(d2, stable) < HopScore(d1, stable)
  {
    var a, b := d1 - stable + 1.0, d2 - stable + 1.0;
    var x, y := 1.0 / a, 1.0 / b;
    assert x * a == 1.0 && y * b == 1.0;
    assert x * (b - a) > 0.0;
    assert y * b < x * b;
    DivideMonotone(y * b, x * b, b);
    assert y * b / b == y && x * b / b == x;
  }

  /** Dividing by a positive number keeps a strict order. */
  lemma DivideMonotone(u: real, v: real, n: real)
    requires u < v && 0.0 < n
    ensures u / n < v / n
  {
    assert (v / n - u / n) * n == v - u;
  }

  /**
   * Quality is strictly decreasing in any single hop distance once that
   * distance is at or beyond the stable threshold.
   */
  lemma SpeedStrictlyDecreasing(ds: seq<real>, i: int, d: real, stable: real)
    requires 0 <= i < |ds| && stable <= ds[i] < d
    ensures Speed(ds[i := d], stable) < Speed(ds, stable)
  {
    ScoreSumUpdate(ds, i, d, stable);
    HopScoreDecreasing(ds[i], d, stable);
    DivideMonotone(ScoreSum(ds[i := d], stable), ScoreSum(ds, stable), |ds| as real);
  }

  // ---------------------------------------------------------------------------
  // Directed hops, intersection, disconnection
  // ---------------------------------------------------------------------------

  /** The `i`-th directed hop. */
  function Hop(hops: seq<int>, i: int): (int, int)
    requires 0 <= i < |hops| - 1
  {
    (hops[i], hops[i + 1])
  }

  /** The directed hops of a hop list, collected left to right. */
  function Edges(hops: seq<int>): set<(int, int)>
  {
    if |hops| < 2 then {} else Edges(hops[..|hops| - 1]) + {Hop(hops, |hops| - 2)}
  }

  /** The directed hops are exactly the pairs `(hops[i], hops[i + 1])`. */
  lemma {:induction false} EdgesAreHops(hops: seq<int>)
    ensures forall i :: 0 <= i < |hops| - 1 ==> Hop(hops, i) in Edges(hops)
    ensures forall e :: e in Edges(hops) ==> exists i :: 0 <= i < |hops| - 1 && e == Hop(hops, i)
  {
    if |hops| >= 2 {
      var init := hops[..|hops| - 1];
      EdgesAreHops(init);
      forall i | 0 <= i < |init| - 1 ensures Hop(init, i) == Hop(hops, i) { }
      forall e | e in Edges(hops) ensures exists i :: 0 <= i < |hops| - 1 && e == Hop(hops, i) {
        if e in Edges(init) {
          var i :| 0 <= i < |init| - 1 && e == Hop(init, i);
          assert e == Hop(hops, i);
        } else {
          assert e == Hop(hops, |hops| - 2);
        }
      }
    }
  }

  /** Two hop lists share a directed hop; a hop and its reverse are different hops. */
  predicate Intersects(a: seq<int>, b: seq<int>)
    ensures Intersects(a, b) ==> |a| >= 2 && |b| >= 2
  {
    Edges(a) * Edges(b) != {}
  }

  /** Sharing a directed hop is symmetric. */
  lemma IntersectsSymmetric(a: seq<int>, b: seq<int>)
    ensures Intersects(a, b) == Intersects(b, a)
  {
    assert Edges(a) * Edges(b) == Edges(b) * Edges(a);
  }

  /** A path with at least one hop shares that hop with itself. */
  lemma IntersectsItself(a: seq<int>)
    requires |a| >= 2
    ensures Intersects(a, a)
  {
    EdgesAreHops(a);
    assert Hop(a, 0) in Edges(a) * Edges(a);
  }

  /** Reversed hops do not intersect; the unit-test paths [0, 1, 3, 2] and [0, 1, 2] do. */
  lemma IntersectsExamples()
    ensures !Intersects([1, 2], [2, 1])
    ensures Intersects([0, 1, 3, 2], [0, 1, 2])
    ensures !Intersects([0, 1, 2], [0, 3, 2])
  {
    assert Edges([1, 2]) == {(1, 2)} && Edges([2, 1]) == {(2, 1)};
    assert Edges([0, 1, 2]) == {(0, 1), (1, 2)};
    assert Edges([0, 3, 2]) == {(0, 3), (3, 2)};
    EdgesAreHops([0, 1, 3, 2]);
    assert Hop([0, 1, 3, 2], 0) == (0, 1);
    assert (0, 1) in Edges([0, 1, 3, 2]) * Edges([0, 1, 2]);
    assert Edges([0, 1, 2]) * Edges([0, 3, 2]) == {};
  }

  /** Some hop is at least the close-to-disconnect distance. */
  predicate CloseToDisconnect(ds: seq<real>, close: real)
    ensures CloseToDisconnect(ds, close) ==> ds != []
    ensures (forall d :: d in ds ==> d < close) ==> !CloseToDisconnect(ds, close)
  {
    assert forall i :: 0 <= i < |ds| ==> ds[i] in ds;
    exists i :: 0 <= i < |ds| && ds[i] >= close
  }

  /** The longest hop of a non-empty distance list. */
  function MaxDistance(ds: seq<real>): (m: real)
    requires |ds| > 0
  {
    if |ds| == 1 then ds[0]
    else var r := MaxDistance(ds[1..]); if ds[0] >= r then ds[0] else r
  }

  /** The longest hop bounds every hop and is one of them. */
  lemma {:induction false} MaxDistanceIsMax(ds: seq<real>)
    requires |ds| > 0
    ensures forall i :: 0 <= i < |ds| ==> ds[i] <= MaxDistance(ds)
    ensures exists i :: 0 <= i < |ds| && ds[i] == MaxDistance(ds)
  {
    if |ds| == 1 {
      assert ds[0] == MaxDistance(ds);
    } else {
      MaxDistanceIsMax(ds[1..]);
      forall i | 1 <= i < |ds| ensures ds[i] <= MaxDistance(ds) {
        assert ds[i] == ds[1..][i - 1];
      }
      if ds[0] < MaxDistance(ds[1..]) {
        var j :| 0 <= j < |ds[1..]| && ds[1..][j] == MaxDistance(ds[1..]);
        assert ds[j + 1] == MaxDistance(ds);
      } else {
        assert ds[0] == MaxDistance(ds);
      }
    }
  }

  /** A path is close to disconnecting exactly when its longest hop reaches the threshold. */
  lemma CloseToDisconnectIffMax(ds: seq<real>, close: real)
    requires |ds| > 0
    ensures CloseToDisconnect(ds, close) <==> MaxDistance(ds) >= close
  {
    MaxDistanceIsMax(ds);
  }

  /** The disconnect test does not depend on the order of the hops. */
  lemma CloseToDisconnectOrderFree(a: seq<real>, b: seq<real>, close: real)
    requires multiset(a) == multiset(b)
    ensures CloseToDisconnect(a, close) == CloseToDisconnect(b, close)
  {
    if CloseToDisconnect(a, close) {
      var i :| 0 <= i < |a| && a[i] >= close;
      assert a[i] in multiset(b);
      var j :| 0 <= j < |b| && b[j] == a[i];
    }
    if CloseToDisconnect(b, close) {
      var i :| 0 <= i < |b| && b[i] >= close;
      assert b[i] in multiset(a);
      var j :| 0 <= j < |a| && a[j] == b[i];
    }
  }

  // ---------------------------------------------------------------------------
  // Neighbour maps
  // ---------------------------------------------------------------------------

  /** `next_drones`: each hop but the last mapped to its successor; a later entry overwrites. */
  function NextMap(hops: seq<int>): (m: map<int, int>)
    ensures |hops| >= 2 ==> hops[|hops| - 2] in m && m[hops[|hops| - 2]] == hops[|hops| - 1]
  {
    if |hops| < 2 then map[] else NextMap(hops[..|hops| - 1])[hops[|hops| - 2] := hops[|hops| - 1]]
  }

  /** `back_drones`: each hop but the first mapped to its predecessor; a later entry overwrites. */
  function BackMap(hops: seq<int>): (m: map<int, int>)
    ensures |hops| >= 2 ==> hops[|hops| - 1] in m && m[hops[|hops| - 1]] == hops[|hops| - 2]
  {
    if |hops| < 2 then map[] else BackMap(hops[..|hops| - 1])[hops[|hops| - 1] := hops[|hops| - 2]]
  }

  /**
   * The forward map is keyed by exactly the hops but the last, every entry is a
   * directed hop of the list, and without repeated drones hop `i` maps to hop `i + 1`.
   */
  lemma {:induction false} NextMapIsSuccessor(hops: seq<int>)
    ensures forall i :: 0 <= i < |hops| - 1 ==> hops[i] in NextMap(hops)
    ensures forall x :: x in NextMap(hops) ==> exists i :: 0 <= i < |hops| - 1 && hops[i] == x
    ensures forall x :: x in NextMap(hops) ==> (x, NextMap(hops)[x]) in Edges(hops)
    ensures Distinct(hops) ==> forall i :: 0 <= i < |hops| - 1 ==> NextMap(hops)[hops[i]] == hops[i + 1]
  {
    if |hops| >= 2 {
      var n := |hops|;
      var init := hops[..n - 1];
      NextMapIsSuccessor(init);
      forall x ensures x in NextMap(hops) <==> exists i :: 0 <= i < n - 1 && hops[i] == x {
        if x in NextMap(init) {
          var i :| 0 <= i < |init| - 1 && init[i] == x;
          assert hops[i] == x;
        }
        if x != hops[n - 2] && exists i :: 0 <= i < n - 1 && hops[i] == x {
          var i :| 0 <= i < n - 1 && hops[i] == x;
          assert init[i] == x;
        }
      }
      assert Edges(init) <= Edges(hops);
      forall x | x in NextMap(hops) ensures (x, NextMap(hops)[x]) in Edges(hops) {
        if x == hops[n - 2] {
          assert (x, NextMap(hops)[x]) == Hop(hops, n - 2);
        } else {
          assert NextMap(hops)[x] == NextMap(init)[x];
        }
      }
      if Distinct(hops) {
        assert Distinct(init);
        forall i | 0 <= i < n - 1 ensures NextMap(hops)[hops[i]] == hops[i + 1] {
          if i < n - 2 {
            assert hops[i] != hops[n - 2] && init[i] == hops[i] && init[i + 1] == hops[i + 1];
          }
        }
      }
    }
  }

  /**
   * The backward map is keyed by exactly the hops but the first, every entry is
   * a directed hop of the list, and without repeated drones hop `i` maps to hop `i - 1`.
   */
  lemma {:induction false} BackMapIsPredecessor(hops: seq<int>)
    ensures forall i :: 1 <= i < |hops| ==> hops[i] in BackMap(hops)
    ensures forall y :: y in BackMap(hops) ==> exists i :: 1 <= i < |hops| && hops[i] == y
    ensures forall y :: y in BackMap(hops) ==> (BackMap(hops)[y], y) in Edges(hops)
    ensures Distinct(hops) ==> forall i :: 1 <= i < |hops| ==> BackMap(hops)[hops[i]] == hops[i - 1]
  {
    if |hops| >= 2 {
      var n := |hops|;
      var init := hops[..n - 1];
      BackMapIsPredecessor(init);
      forall y ensures y in BackMap(hops) <==> exists i :: 1 <= i < n && hops[i] == y {
        if y in BackMap(init) {
          var i :| 1 <= i < |init| && init[i] == y;
          assert hops[i] == y;
        }
        if y != hops[n - 1] && exists i :: 1 <= i < n && hops[i] == y {
          var i :| 1 <= i < n && hops[i] == y;
          assert init[i] == y;
        }
      }
      assert Edges(init) <= Edges(hops);
      forall y | y in BackMap(hops) ensures (BackMap(hops)[y], y) in Edges(hops) {
        if y == hops[n - 1] {
          assert (BackMap(hops)[y], y) == Hop(hops, n - 2);
        } else {
          assert BackMap(hops)[y] == BackMap(init)[y];
        }
      }
      if Distinct(hops) {
        assert Distinct(init);
        forall i | 1 <= i < n ensures BackMap(hops)[hops[i]] == hops[i - 1] {
          if i < n - 1 {
            assert hops[i] != hops[n - 1] && init[i] == hops[i] && init[i - 1] == hops[i - 1];
          }
        }
      }
    }
  }

  /** Without repeated drones the forward and backward maps are mutual inverses. */
  lemma NextBackInverse(hops: seq<int>)
    requires Distinct(hops)
    ensures forall x :: x in NextMap(hops) ==> NextMap(hops)[x] in BackMap(hops) && BackMap(hops)[NextMap(hops)[x]] == x
    ensures forall y :: y in BackMap(hops) ==> BackMap(hops)[y] in NextMap(hops) && NextMap(hops)[BackMap(hops)[y]] == y
  {
    NextMapIsSuccessor(hops);
    BackMapIsPredecessor(hops);
    forall x | x in NextMap(hops) ensures NextMap(hops)[x] in BackMap(hops) && BackMap(hops)[NextMap(hops)[x]] == x {
      var i :| 0 <= i < |hops| - 1 && hops[i] == x;
      assert BackMap(hops)[hops[i + 1]] == hops[i];
    }
    forall y | y in BackMap(hops) ensures BackMap(hops)[y] in NextMap(hops) && NextMap(hops)[BackMap(hops)[y]] == y {
      var i :| 1 <= i < |hops| && hops[i] == y;
      assert NextMap(hops)[hops[i - 1]] == hops[i];
    }
  }

  /**
   * On a hop list without repeats, the neighbours of hop `i` in the two maps:
   * its predecessor unless it is the first, its successor unless it is the last.
   */
  lemma NeighboursOf(hops: seq<int>, i: int)
    requires Distinct(hops) && 0 <= i < |hops|
    ensures i > 0 ==> hops[i] in BackMap(hops) && BackMap(hops)[hops[i]] == hops[i - 1] && Hop(hops, i - 1) in Edges(hops)
    ensures i == 0 ==> hops[i] !in BackMap(hops)
    ensures i < |hops| - 1 ==> hops[i] in NextMap(hops) && NextMap(hops)[hops[i]] == hops[i + 1] && Hop(hops, i) in Edges(hops)
    ensures i == |hops| - 1 ==> hops[i] !in NextMap(hops)
    ensures 0 < i < |hops| - 1 ==> Hop(hops, i - 1) != Hop(hops, i)
  {
    NextMapIsSuccessor(hops);
    BackMapIsPredecessor(hops);
    EdgesAreHops(hops);
    assert forall j :: 0 <= j < |hops| && j != i ==> hops[j] != hops[i];
  }

  /** The entry of the forward map at `x` is a directed hop of the list. */
  lemma NextIsHop(hops: seq<int>, x: int)
    requires x in NextMap(hops)
    ensures (x, NextMap(hops)[x]) in Edges(hops)
  {
    NextMapIsSuccessor(hops);
  }

  /** The entry of the backward map at `y` is a directed hop of the list. */
  lemma BackIsHop(hops: seq<int>, y: int)
    requires y in BackMap(hops)
    ensures (BackMap(hops)[y], y) in Edges(hops)
  {
    BackMapIsPredecessor(hops);
  }

  /** A drone of a path without a successor is its last one, and has a predecessor. */
  lemma LastHopHasNoNext(hops: seq<int>, x: int)
    requires |hops| >= 2 && x in hops
    ensures x !in NextMap(hops) ==> x == hops[|hops| - 1] && x in BackMap(hops)
    ensures x !in BackMap(hops) ==> x == hops[0] && x in NextMap(hops)
  {
    NextMapIsSuccessor(hops);
    BackMapIsPredecessor(hops);
    var k :| 0 <= k < |hops| && hops[k] == x;
    assert k < |hops| - 1 ==> hops[k] in NextMap(hops);
    assert k > 0 ==> hops[k] in BackMap(hops);
    assert hops[|hops| - 1] in BackMap(hops) && hops[0] in NextMap(hops);
  }

  // ---------------------------------------------------------------------------
  // Views
  // ---------------------------------------------------------------------------

  /** The value of a path: what the table's decisions and the workers depend on. */
  datatype PathView = PathView(
    dronesPath: seq<int>,
    distances: seq<real>,
    busy: map<(int, int), bool>,
    speed: real,
    usable: bool)

  /** Every directed hop of a hop list, free. */
  function AllFree(hops: seq<int>): (m: map<(int, int), bool>)
    ensures m.Keys == Edges(hops)
    ensures forall e :: e in m ==> !m[e]
  {
    map e | e in Edges(hops) :: false
  }

  /** A path as the constructor leaves it: all hops free, usable. */
  function Built(hops: seq<int>, ds: seq<real>, stable: real): (v: PathView)
    requires |ds| > 0
    ensures v.dronesPath == hops && v.distances == ds && v.usable
    ensures v.busy.Keys == Edges(hops) && forall e :: e in v.busy ==> !v.busy[e]
    ensures 0.0 < v.speed <= 1.0
  {
    PathView(hops, ds, AllFree(hops), Speed(ds, stable), true)
  }

  /** Ids strictly increase along `s`. */
  predicate Increasing(s: seq<int>)
  {
    forall i, j :: 0 <= i < j < |s| ==> s[i] < s[j]
  }

  /** The usable entries of the table with id below `n`, in id order. */
  function UsableIds(t: map<int, PathView>, n: nat): (r: seq<int>)
    ensures forall k {:trigger k in r} :: k in r <==> 0 <= k < n && k in t && t[k].usable
    ensures forall i :: 0 <= i < |r| ==> r[i] < n
  {
    if n == 0 then []
    else
      var rest := UsableIds(t, n - 1);
      rest + (if (n - 1) in t && t[n - 1].usable then [n - 1] else [])
  }

  /** The entries among `ids` whose hop list shares a directed hop with `hops`, in order. */
  function IntersectingIds(t: map<int, PathView>, ids: seq<int>, hops: seq<int>): (r: seq<int>)
    ensures forall k {:trigger k in r} :: k in r <==> k in ids && k in t && Intersects(t[k].dronesPath, hops)
  {
    if ids == [] then []
    else
      var last := ids[|ids| - 1];
      var rest := IntersectingIds(t, ids[..|ids| - 1], hops);
      assert forall k :: k in ids <==> k in ids[..|ids| - 1] || k == last;
      rest + (if last in t && Intersects(t[last].dronesPath, hops) then [last] else [])
  }

  /** Usable ids come in increasing order. */
  lemma {:induction false} UsableIdsIncreasing(t: map<int, PathView>, n: nat)
    ensures Increasing(UsableIds(t, n))
  {
    if n > 0 {
      UsableIdsIncreasing(t, n - 1);
    }
  }

  /** Filtering an increasing id list keeps it increasing. */
  lemma {:induction false} IntersectingIdsIncreasing(t: map<int, PathView>, ids: seq<int>, hops: seq<int>)
    requires Increasing(ids)
    ensures Increasing(IntersectingIds(t, ids, hops))
  {
    if ids != [] {
      var init := ids[..|ids| - 1];
      IntersectingIdsIncreasing(t, init, hops);
      var r := IntersectingIds(t, init, hops);
      forall i | 0 <= i < |r| ensures r[i] < ids[|ids| - 1] {
        assert r[i] in r;
        var j :| 0 <= j < |init| && init[j] == r[i];
      }
    }
  }

  /** The usable paths in conflict with `hops`, in id order. */
  function Hits(t: map<int, PathView>, n: nat, hops: seq<int>): (r: seq<int>)
    ensures forall k {:trigger k in r} :: k in r <==> 0 <= k < n && k in t && t[k].usable && Intersects(t[k].dronesPath, hops)
    ensures forall i :: 0 <= i < |r| ==> r[i] in t && t[r[i]].usable
  {
    var found := IntersectingIds(t, UsableIds(t, n), hops);
    assert forall i :: 0 <= i < |found| ==> found[i] in found;
    found
  }

  /** The conflicting usable paths come in id order. */
  lemma HitsIncreasing(t: map<int, PathView>, n: nat, hops: seq<int>)
    ensures Increasing(Hits(t, n, hops))
  {
    UsableIdsIncreasing(t, n);
    IntersectingIdsIncreasing(t, UsableIds(t, n), hops);
  }

  /** The outcome of `try_add_path`. */
  datatype Admission = Rejected | Admitted | Supersedes(evicted: int)

  /** The admission policy on a table `t` whose next id is `n`. */
  function AdmissionOf(t: map<int, PathView>, n: nat, hops: seq<int>, ds: seq<real>, sd: SpeedDistances): (a: Admission)
    requires |ds| > 0
    ensures a.Supersedes? ==> a.evicted in t && t[a.evicted].usable && a.evicted < n
  {
    if CloseToDisconnect(ds, sd.close) then Rejected
    else
      var hits := Hits(t, n, hops);
      if |hits| == 0 then Admitted
      else if |hits| == 1 then
        assert hits[0] in hits;
        if Speed(ds, sd.stable) < t[hits[0]].speed then Rejected else Supersedes(hits[0])
      else Rejected
  }

  /** The table and next id after `try_add_path`. */
  function AdmitInto(t: map<int, PathView>, n: nat, hops: seq<int>, ds: seq<real>, sd: SpeedDistances): (r: (map<int, PathView>, nat))
    requires |ds| > 0
    ensures r.1 == n || r.1 == n + 1
    ensures r.1 == n <==> AdmissionOf(t, n, hops, ds, sd) == Rejected
    ensures r.1 == n ==> r.0 == t
    ensures r.1 == n + 1 ==> n in r.0 && r.0[n] == Built(hops, ds, sd.stable)
    ensures forall k :: k in t && k != n ==>
      k in r.0 && r.0[k].dronesPath == t[k].dronesPath && (r.0[k].usable ==> t[k].usable)
  {
    match AdmissionOf(t, n, hops, ds, sd)
    case Rejected => (t, n)
    case Admitted => (t[n := Built(hops, ds, sd.stable)], n + 1)
    case Supersedes(k) => (t[k := t[k].(usable := false)][n := Built(hops, ds, sd.stable)], n + 1)
  }

  /** The table after `update_path_distances`: same hops, new distances, leases cleared. */
  function Refreshed(t: map<int, PathView>, id: int, ds: seq<real>, sd: SpeedDistances): (r: map<int, PathView>)
    requires id in t && |ds| > 0
    ensures r.Keys == t.Keys
    ensures r[id].dronesPath == t[id].dronesPath && r[id].distances == ds
    ensures r[id].usable <==> !CloseToDisconnect(ds, sd.close)
    ensures forall e :: e in r[id].busy ==> !r[id].busy[e]
    ensures forall k :: k in t && k != id ==> r[k] == t[k]
  {
    t[id := Built(t[id].dronesPath, ds, sd.stable).(usable := !CloseToDisconnect(ds, sd.close))]
  }

  /** The five ways `try_add_path` can end, read off the admission policy. */
  lemma AdmissionCases(t: map<int, PathView>, n: nat, hops: seq<int>, ds: seq<real>, sd: SpeedDistances)
    requires |ds| > 0
    ensures CloseToDisconnect(ds, sd.close) ==>
      AdmissionOf(t, n, hops, ds, sd) == Rejected && AdmitInto(t, n, hops, ds, sd) == (t, n)
    ensures !CloseToDisconnect(ds, sd.close) && |Hits(t, n, hops)| == 0 ==>
      AdmissionOf(t, n, hops, ds, sd) == Admitted &&
      AdmitInto(t, n, hops, ds, sd) == (t[n := Built(hops, ds, sd.stable)], n + 1)
    ensures (!CloseToDisconnect(ds, sd.close) && |Hits(t, n, hops)| == 1 &&
             Speed(ds, sd.stable) < t[Hits(t, n, hops)[0]].speed) ==>
      AdmissionOf(t, n, hops, ds, sd) == Rejected && AdmitInto(t, n, hops, ds, sd) == (t, n)
    ensures (!CloseToDisconnect(ds, sd.close) && |Hits(t, n, hops)| == 1 &&
             Speed(ds, sd.stable) >= t[Hits(t, n, hops)[0]].speed) ==>
      var k := Hits(t, n, hops)[0];
      AdmissionOf(t, n, hops, ds, sd) == Supersedes(k) &&
      AdmitInto(t, n, hops, ds, sd) == (t[k := t[k].(usable := false)][n := Built(hops, ds, sd.stable)], n + 1)
    ensures !CloseToDisconnect(ds, sd.close) && |Hits(t, n, hops)| >= 2 ==>
      AdmissionOf(t, n, hops, ds, sd) == Rejected && AdmitInto(t, n, hops, ds, sd) == (t, n)
  {
    var hits := Hits(t, n, hops);
    if |hits| > 0 {
      assert hits[0] in hits;
    }
  }

  /** Every id of the table is below the next id. */
  predicate IdsBelow(t: map<int, PathView>, n: nat)
  {
    forall k :: k in t ==> 0 <= k < n
  }

  /** No two usable paths share a directed hop. */
  ghost predicate UsableDisjoint(t: map<int, PathView>)
  {
    forall i, j :: i in t && j in t && i != j && t[i].usable && t[j].usable ==>
      !Intersects(t[i].dronesPath, t[j].dronesPath)
  }

  // ---------------------------------------------------------------------------
  // Properties of the admission policy
  // ---------------------------------------------------------------------------

  /** How many members an increasing id list has, seen through membership. */
  lemma HitsShape(s: seq<int>)
    requires Increasing(s)
    ensures |s| == 0 <==> forall x :: x !in s
    ensures |s| == 1 ==> forall x :: x in s <==> x == s[0]
    ensures |s| >= 2 ==> s[0] in s && s[1] in s && s[0] != s[1]
  {
    if |s| > 0 {
      assert s[0] in s;
    }
  }

  /**
   * A path that is not close to disconnecting and shares no directed hop with
   * any usable path is admitted under the next id, whatever the qualities; the
   * counter moves on by one and no other entry changes.
   */
  lemma DisjointPathIsAdmitted(t: map<int, PathView>, n: nat, hops: seq<int>, ds: seq<real>, sd: SpeedDistances)
    requires |ds| > 0 && IdsBelow(t, n) && !CloseToDisconnect(ds, sd.close)
    requires forall k :: k in t && t[k].usable ==> !Intersects(t[k].dronesPath, hops)
    ensures AdmissionOf(t, n, hops, ds, sd) == Admitted
    ensures AdmitInto(t, n, hops, ds, sd) == (t[n := Built(hops, ds, sd.stable)], n + 1)
    ensures n !in t
  {
    HitsIncreasing(t, n, hops);
    HitsShape(Hits(t, n, hops));
  }

  /** A path close to disconnecting is refused and nothing changes. */
  lemma ClosePathIsRejected(t: map<int, PathView>, n: nat, hops: seq<int>, ds: seq<real>, sd: SpeedDistances)
    requires |ds| > 0 && MaxDistance(ds) >= sd.close
    ensures AdmissionOf(t, n, hops, ds, sd) == Rejected
    ensures AdmitInto(t, n, hops, ds, sd) == (t, n)
  {
    CloseToDisconnectIffMax(ds, sd.close);
  }

  /**
   * With exactly one usable path in conflict, the new path is refused iff it is
   * strictly slower; otherwise that path is retired (kept, but unusable) and the
   * new one stored under the next id.
   */
  lemma SingleConflictPolicy(t: map<int, PathView>, n: nat, hops: seq<int>, ds: seq<real>, sd: SpeedDistances, k: int)
    requires |ds| > 0 && IdsBelow(t, n) && !CloseToDisconnect(ds, sd.close)
    requires k in t && t[k].usable && Intersects(t[k].dronesPath, hops)
    requires forall j :: j in t && j != k && t[j].usable ==> !Intersects(t[j].dronesPath, hops)
    ensures Speed(ds, sd.stable) < t[k].speed ==> AdmitInto(t, n, hops, ds, sd) == (t, n)
    ensures Speed(ds, sd.stable) >= t[k].speed ==> AdmissionOf(t, n, hops, ds, sd) == Supersedes(k)
    ensures Speed(ds, sd.stable) >= t[k].speed ==>
      AdmitInto(t, n, hops, ds, sd) == (t[k := t[k].(usable := false)][n := Built(hops, ds, sd.stable)], n + 1)
  {
    var hits := Hits(t, n, hops);
    HitsIncreasing(t, n, hops);
    HitsShape(hits);
    assert k in hits;
  }

  /** Two or more usable paths in conflict: the new path is refused, nothing changes. */
  lemma ManyConflictsRejected(t: map<int, PathView>, n: nat, hops: seq<int>, ds: seq<real>, sd: SpeedDistances, k1: int, k2: int)
    requires |ds| > 0 && IdsBelow(t, n)
    requires k1 != k2 && k1 in t && k2 in t && t[k1].usable && t[k2].usable
    requires Intersects(t[k1].dronesPath, hops) && Intersects(t[k2].dronesPath, hops)
    ensures AdmissionOf(t, n, hops, ds, sd) == Rejected
    ensures AdmitInto(t, n, hops, ds, sd) == (t, n)
  {
    var hits := Hits(t, n, hops);
    HitsIncreasing(t, n, hops);
    HitsShape(hits);
    assert k1 in hits && k2 in hits;
  }

  /** Admission keeps the usable paths pairwise free of shared directed hops. */
  lemma AdmissionKeepsUsableDisjoint(t: map<int, PathView>, n: nat, hops: seq<int>, ds: seq<real>, sd: SpeedDistances)
    requires |ds| > 0 && IdsBelow(t, n) && UsableDisjoint(t)
    ensures UsableDisjoint(AdmitInto(t, n, hops, ds, sd).0)
  {
    var hits := Hits(t, n, hops);
    var v := Built(hops, ds, sd.stable);
    match AdmissionOf(t, n, hops, ds, sd)
    case Rejected =>
    case Admitted =>
      NoConflictKeepsDisjoint(t, n, hops, v);
    case Supersedes(e) =>
      assert hits == [e];
      OneConflictKeepsDisjoint(t, n, hops, e, v);
  }

  /** Storing a path in conflict with no usable path keeps the usable entries disjoint. */
  lemma NoConflictKeepsDisjoint(t: map<int, PathView>, n: nat, hops: seq<int>, v: PathView)
    requires IdsBelow(t, n) && UsableDisjoint(t) && v.dronesPath == hops && Hits(t, n, hops) == []
    ensures UsableDisjoint(t[n := v])
  {
    forall k | k in t && t[k].usable ensures !Intersects(t[k].dronesPath, hops) {
      assert k !in Hits(t, n, hops);
    }
    UsableDisjointAddFresh(t, n, v);
  }

  /**
   * Retiring the one usable path in conflict and storing the new path keeps
   * the usable entries disjoint.
   */
  lemma OneConflictKeepsDisjoint(t: map<int, PathView>, n: nat, hops: seq<int>, e: int, v: PathView)
    requires IdsBelow(t, n) && UsableDisjoint(t) && v.dronesPath == hops && Hits(t, n, hops) == [e] && e in t
    ensures UsableDisjoint(t[e := t[e].(usable := false)][n := v])
  {
    var t1 := t[e := t[e].(usable := false)];
    UsableDisjointRetire(t, e);
    forall k | k in t1 && t1[k].usable ensures !Intersects(t1[k].dronesPath, hops) {
      assert k != e && t1[k] == t[k] && k !in Hits(t, n, hops);
    }
    UsableDisjointAddFresh(t1, n, v);
  }

  /** Retiring an entry keeps the usable entries disjoint. */
  lemma UsableDisjointRetire(t: map<int, PathView>, e: int)
    requires e in t && UsableDisjoint(t)
    ensures UsableDisjoint(t[e := t[e].(usable := false)])
  {
  }

  /**
   * Storing a usable path under a fresh id keeps the usable entries disjoint
   * when it conflicts with none of them.
   */
  lemma UsableDisjointAddFresh(t: map<int, PathView>, n: int, v: PathView)
    requires n !in t && UsableDisjoint(t)
    requires forall k :: k in t && t[k].usable ==> !Intersects(t[k].dronesPath, v.dronesPath)
    ensures UsableDisjoint(t[n := v])
  {
    var t' := t[n := v];
    forall i, j | i in t' && j in t' && i != j && t'[i].usable && t'[j].usable
      ensures !Intersects(t'[i].dronesPath, t'[j].dronesPath)
    {
      if i == n {
        IntersectsSymmetric(t[j].dronesPath, v.dronesPath);
      }
    }
  }

  /**
   * There is no deduplication: admitting the same path twice stores it under
   * two ids, and the second copy retires the first.
   */
  lemma AddSameTwice(t: map<int, PathView>, n: nat, hops: seq<int>, ds: seq<real>, sd: SpeedDistances)
    requires |ds| > 0 && |hops| >= 2 && IdsBelow(t, n) && !CloseToDisconnect(ds, sd.close)
    requires forall k :: k in t && t[k].usable ==> !Intersects(t[k].dronesPath, hops)
    ensures var (t1, n1) := AdmitInto(t, n, hops, ds, sd);
      var (t2, n2) := AdmitInto(t1, n1, hops, ds, sd);
      n2 == n + 2 && n in t2 && n + 1 in t2 &&
      t2[n].dronesPath == hops && t2[n + 1].dronesPath == hops &&
      !t2[n].usable && t2[n + 1].usable
  {
    DisjointPathIsAdmitted(t, n, hops, ds, sd);
    var (t1, n1) := AdmitInto(t, n, hops, ds, sd);
    IntersectsItself(hops);
    SingleConflictPolicy(t1, n1, hops, ds, sd, n);
  }

  /**
   * Refreshing distances can make a retired path usable again next to the path
   * that replaced it, so the table no longer keeps usable paths disjoint.
   */
  lemma RefreshCanReviveRetiredPath()
    ensures var sd := SpeedDistances(5.0, 10.0, 15.0);
      var t := map[0 := Built([0, 1, 2], [6.0, 6.0], 5.0).(usable := false),
                   1 := Built([0, 1, 2], [5.0, 5.0], 5.0)];
      UsableDisjoint(t) && !UsableDisjoint(Refreshed(t, 0, [6.0, 6.0], sd))
  {
    var sd := SpeedDistances(5.0, 10.0, 15.0);
    var t := map[0 := Built([0, 1, 2], [6.0, 6.0], 5.0).(usable := false),
                 1 := Built([0, 1, 2], [5.0, 5.0], 5.0)];
    var t' := Refreshed(t, 0, [6.0, 6.0], sd);
    assert !CloseToDisconnect([6.0, 6.0], 10.0);
    IntersectsItself([0, 1, 2]);
    assert t'[0].usable && t'[1].usable;
    assert Intersects(t'[0].dronesPath, t'[1].dronesPath);
  }

  // ---------------------------------------------------------------------------
  // The loops of the Path constructor
  // ---------------------------------------------------------------------------

  /** The `next_drones` loop: each drone but the last maps to its successor. */
  method BuildNextDrones(dronesPath: seq<int>) returns (next: map<int, int>)
    requires |dronesPath| >= 1
    ensures next == NextMap(dronesPath)
  {
    var n := |dronesPath|;
    next := map[];
    var i := 0;
    while i < n - 1
      invariant 0 <= i <= n - 1
      invariant next == NextMap(dronesPath[..i + 1])
    {
      assert dronesPath[..i + 2][..i + 1] == dronesPath[..i + 1];
      next := next[dronesPath[i] := dronesPath[i + 1]];
      i := i + 1;
    }
    assert dronesPath[..n] == dronesPath;
  }

  /** The `back_drones` loop: each drone but the first maps to its predecessor. */
  method BuildBackDrones(dronesPath: seq<int>) returns (back: map<int, int>)
    requires |dronesPath| >= 1
    ensures back == BackMap(dronesPath)
  {
    var n := |dronesPath|;
    back := map[];
    var i := 0;
    while i < n - 1
      invariant 0 <= i <= n - 1
      invariant back == BackMap(dronesPath[..i + 1])
    {
      assert dronesPath[..i + 2][..i + 1] == dronesPath[..i + 1];
      back := back[dronesPath[i + 1] := dronesPath[i]];
      i := i + 1;
    }
    assert dronesPath[..n] == dronesPath;
  }

  /** The `connection_business` loop: one free flag per directed hop. */
  method BuildConnectionBusiness(dronesPath: seq<int>, distances: seq<real>) returns (busy: map<(int, int), bool>)
    requires |dronesPath| >= 1 && |distances| == |dronesPath| - 1
    ensures busy == AllFree(dronesPath)
  {
    busy := map[];
    var i := 0;
    while i < |distances|
      invariant 0 <= i <= |distances|
      invariant busy.Keys == Edges(dronesPath[..i + 1])
      invariant forall e :: e in busy ==> !busy[e]
    {
      assert dronesPath[..i + 2][..i + 1] == dronesPath[..i + 1];
      assert Hop(dronesPath[..i + 2], i) == Hop(dronesPath, i);
      busy := busy[Hop(dronesPath, i) := false];
      i := i + 1;
    }
    assert dronesPath[..|dronesPath|] == dronesPath;
  }

  /** The `speed` loop before the division: the sum of the hop scores. */
  method ScoreTotal(distances: seq<real>, speedDistances: SpeedDistances) returns (total: real)
    ensures total == ScoreSum(distances, speedDistances.stable)
  {
    total := 0.0;
    var i := 0;
    while i < |distances|
      invariant 0 <= i <= |distances|
      invariant total == ScoreSum(distances[..i], speedDistances.stable)
    {
      if distances[i] < speedDistances.stable {
        total := total + 1.0;
      } else {
        total := total + 1.0 / (distances[i] - speedDistances.stable + 1.0);
      }
      assert distances[..i + 1][..i] == distances[..i];
      i := i + 1;
    }
    assert distances[..|distances|] == distances;
  }

  // ---------------------------------------------------------------------------
  // Path
  // ---------------------------------------------------------------------------

  /** `Path`: only the busy flags and the usable flag change after construction. */
  class Path {
    const pathId: int
    const dronesPath: seq<int>
    const nextDrones: map<int, int>
    const backDrones: map<int, int>
    const distances: seq<real>
    var connectionBusiness: map<(int, int), bool>
    const speed: real
    var canBeUsed: bool
    const speedDistances: SpeedDistances

    ghost predicate Valid()
      reads this
    {
      && |dronesPath| >= 2
      && |distances| == |dronesPath| - 1
      && nextDrones == NextMap(dronesPath)
      && backDrones == BackMap(dronesPath)
      && connectionBusiness.Keys == Edges(dronesPath)
      && speed == Speed(distances, speedDistances.stable)
    }

    function View(): PathView
      reads this
    {
      PathView(dronesPath, distances, connectionBusiness, speed, canBeUsed)
    }

    /**
     * Builds the neighbour maps, one free flag per directed hop, and the mean
     * hop score. The distances must match the hops one to one.
     */
    constructor (pathId: int, dronesPath: seq<int>, distances: seq<real>, speedDistances: SpeedDistances)
      requires |dronesPath| >= 2 && |distances| == |dronesPath| - 1
      ensures Valid()
      ensures this.pathId == pathId && this.speedDistances == speedDistances
      ensures View() == Built(dronesPath, distances, speedDistances.stable)
    {
      var next := BuildNextDrones(dronesPath);
      var back := BuildBackDrones(dronesPath);
      var busy := BuildConnectionBusiness(dronesPath, distances);
      var total := ScoreTotal(distances, speedDistances);
      this.pathId := pathId;
      this.dronesPath := dronesPath;
      this.nextDrones := next;
      this.backDrones := back;
      this.distances := distances;
      this.connectionBusiness := busy;
      this.speed := total / |distances| as real;
      this.canBeUsed := true;
      this.speedDistances := speedDistances;
    }

    /** `is_intersect`: whether `path` has one of this path's directed hops. */
    method IsIntersect(path: Path) returns (r: bool)
      requires Valid() && path.Valid()
      ensures r <==> Intersects(dronesPath, path.dronesPath)
    {
      EdgesAreHops(dronesPath);
      var i := 0;
      while i < |dronesPath| - 1
        invariant 0 <= i <= |dronesPath| - 1
        invariant forall j :: 0 <= j < i ==> Hop(dronesPath, j) !in Edges(path.dronesPath)
      {
        if Hop(dronesPath, i) in path.connectionBusiness {
          assert Hop(dronesPath, i) in Edges(dronesPath) * Edges(path.dronesPath);
          return true;
        }
        i := i + 1;
      }
      forall e | e in Edges(dronesPath) ensures e !in Edges(path.dronesPath) {
        var j :| 0 <= j < |dronesPath| - 1 && e == Hop(dronesPath, j);
      }
      assert Edges(dronesPath) * Edges(path.dronesPath) == {};
      return false;
    }

    /** `is_path_close_to_disconnect`: some hop reaches the close-to-disconnect distance. */
    method IsPathCloseToDisconnect() returns (r: bool)
      ensures r <==> CloseToDisconnect(distances, speedDistances.close)
    {
      var i := 0;
      while i < |distances|
        invariant 0 <= i <= |distances|
        invariant forall j :: 0 <= j < i ==> distances[j] < speedDistances.close
      {
        if distances[i] >= speedDistances.close {
          return true;
        }
        i := i + 1;
      }
      return false;
    }
  }

  /** The paths among `ps` that share a directed hop with `hops`, in order. */
  function Overlapping(ps: seq<Path>, hops: seq<int>): (r: seq<Path>)
    ensures |r| <= |ps|
    ensures forall i :: 0 <= i < |r| ==> Intersects(r[i].dronesPath, hops)
  {
    if ps == [] then []
    else
      var last := ps[|ps| - 1];
      Overlapping(ps[..|ps| - 1], hops) + (if Intersects(last.dronesPath, hops) then [last] else [])
  }

  /** The loop of `try_add_path` that asks each usable path whether it overlaps `newPath`. */
  method ScanConflicts(usable: seq<Path>, newPath: Path) returns (hits: seq<Path>)
    requires newPath.Valid() && forall p :: p in usable ==> p.Valid()
    ensures hits == Overlapping(usable, newPath.dronesPath)
  {
    hits := [];
    var i := 0;
    while i < |usable|
      invariant 0 <= i <= |usable|
      invariant hits == Overlapping(usable[..i], newPath.dronesPath)
    {
      var b := usable[i].IsIntersect(newPath);
      assert usable[..i + 1][..i] == usable[..i];
      if b {
        hits := hits + [usable[i]];
      }
      i := i + 1;
    }
    assert usable[..|usable|] == usable;
  }

  // ---------------------------------------------------------------------------
  // PathsController
  // ---------------------------------------------------------------------------

  /** `PathsController`: the route table. */
  class PathsController {
    var newPathId: nat
    var paths: map<int, Path>
    const speedDistances: SpeedDistances

    /**
     * Ids are exactly 0 .. newPathId - 1 (so dictionary insertion order is id
     * order), every entry is a well-formed path carrying its own id and the
     * table's thresholds (so no two ids share one path object).
     */
    ghost predicate Valid()
      reads this, paths.Values
    {
      && IdsDense()
      && (forall k {:trigger paths[k].Valid()} :: k in paths ==> paths[k].Valid())
      && (forall k :: k in paths ==> paths[k].pathId == k && paths[k].speedDistances == speedDistances)
    }

    /** The ids are exactly 0 .. newPathId - 1. */
    ghost predicate IdsDense()
      reads this
    {
      forall k :: k in paths <==> 0 <= k < newPathId
    }

    function View(): map<int, PathView>
      reads this, paths.Values
    {
      map k | k in paths :: paths[k].View()
    }

    constructor (speedDistances: SpeedDistances)
      ensures Valid() && View() == map[] && newPathId == 0
      ensures this.speedDistances == speedDistances
    {
      newPathId := 0;
      paths := map[];
      this.speedDistances := speedDistances;
    }

    /** `r` holds, position by position, the paths stored under `ids`. */
    ghost predicate Lists(r: seq<Path>, ids: seq<int>)
      reads this
    {
      |r| == |ids| && forall i :: 0 <= i < |ids| ==> ids[i] in paths && r[i] == paths[ids[i]]
    }

    /** `get_paths_can_be_used`: the usable paths, in insertion (= id) order. */
    method GetPathsCanBeUsed() returns (r: seq<Path>)
      requires IdsDense()
      ensures Lists(r, UsableIds(View(), newPathId))
    {
      ghost var t := View();
      r := [];
      var id := 0;
      ghost var ids: seq<int> := [];
      while id < newPathId
        invariant 0 <= id <= newPathId
        invariant ids == UsableIds(t, id)
        invariant Lists(r, ids)
      {
        assert id in t && t[id].usable == paths[id].canBeUsed;
        if paths[id].canBeUsed {
          r := r + [paths[id]];
          ids := ids + [id];
        }
        id := id + 1;
      }
      assert View() == t;
    }

    /** `try_add_path`: admit, admit and retire the one conflicting path, or refuse. */
    method TryAddPath(nodeIds: seq<int>, distances: seq<real>) returns (added: bool)
      requires Valid()
      requires |nodeIds| >= 2 && |distances| == |nodeIds| - 1
      modifies this, paths.Values
      ensures Valid()
      ensures added <==> AdmissionOf(old(View()), old(newPathId), nodeIds, distances, speedDistances) != Rejected
      ensures (View(), newPathId) == AdmitInto(old(View()), old(newPathId), nodeIds, distances, speedDistances)
    {
      ghost var t, n := View(), newPathId;
      var newPath := new Path(newPathId, nodeIds, distances, speedDistances);
      var close := newPath.IsPathCloseToDisconnect();
      if close {
        assert AdmitInto(t, n, nodeIds, distances, speedDistances) == (t, n);
        assert View() == t;
        return false;
      }
      var hits := CollectConflicts(newPath);
      assert View() == t;
      added := Admit(newPath, hits);
    }

    /**
     * The branches of `try_add_path` once the candidate is known not to be
     * close to disconnecting and `hits` are the usable paths it overlaps.
     */
    method Admit(newPath: Path, hits: seq<Path>) returns (added: bool)
      requires Valid() && newPath.Valid()
      requires newPath.pathId == newPathId && newPath.speedDistances == speedDistances
      requires newPath.View() == Built(newPath.dronesPath, newPath.distances, speedDistances.stable)
      requires !CloseToDisconnect(newPath.distances, speedDistances.close)
      requires Lists(hits, Hits(View(), newPathId, newPath.dronesPath))
      modifies this, paths.Values
      ensures Valid()
      ensures added <==> AdmissionOf(old(View()), old(newPathId), newPath.dronesPath, newPath.distances, speedDistances) != Rejected
      ensures (View(), newPathId) == AdmitInto(old(View()), old(newPathId), newPath.dronesPath, newPath.distances, speedDistances)
    {
      ghost var t, n := View(), newPathId;
      ghost var hops, ds := newPath.dronesPath, newPath.distances;
      ghost var built := Built(hops, ds, speedDistances.stable);
      assert newPath.View() == built;
      if |hits| == 0 {
        assert AdmissionOf(t, n, hops, ds, speedDistances) == Admitted;
        Store(newPath);
        return true;
      } else if |hits| == 1 {
        added := Contest(newPath, hits);
      } else {
        assert AdmissionOf(t, n, hops, ds, speedDistances) == Rejected;
        return false;
      }
    }

    /**
     * The branch of `try_add_path` with exactly one conflicting path: the
     * candidate wins unless it is strictly slower.
     */
    method Contest(newPath: Path, hits: seq<Path>) returns (added: bool)
      requires Valid() && newPath.Valid()
      requires newPath.pathId == newPathId && newPath.speedDistances == speedDistances
      requires newPath.View() == Built(newPath.dronesPath, newPath.distances, speedDistances.stable)
      requires !CloseToDisconnect(newPath.distances, speedDistances.close)
      requires Lists(hits, Hits(View(), newPathId, newPath.dronesPath)) && |hits| == 1
      modifies this, paths.Values
      ensures Valid()
      ensures added <==> AdmissionOf(old(View()), old(newPathId), newPath.dronesPath, newPath.distances, speedDistances) != Rejected
      ensures (View(), newPathId) == AdmitInto(old(View()), old(newPathId), newPath.dronesPath, newPath.distances, speedDistances)
    {
      ghost var t, n := View(), newPathId;
      ghost var hops, ds := newPath.dronesPath, newPath.distances;
      ghost var hitIds := Hits(t, n, hops);
      AdmissionCases(t, n, hops, ds, speedDistances);
      HitsIncreasing(t, n, hops);
      HitsShape(hitIds);
      ghost var k := hitIds[0];
      assert k in t && hits[0] == paths[k] && hits[0].speed == t[k].speed;
      if newPath.speed < hits[0].speed {
        assert AdmissionOf(t, n, hops, ds, speedDistances) == Rejected;
        return false;
      }
      assert AdmissionOf(t, n, hops, ds, speedDistances) == Supersedes(k);
      Supersede(newPath, hits[0], k);
      return true;
    }

    /** Retires the path stored under `k` and stores `newPath` under the next id. */
    method Supersede(newPath: Path, victim: Path, ghost k: int)
      requires Valid() && newPath.Valid()
      requires newPath.pathId == newPathId && newPath.speedDistances == speedDistances
      requires k in paths && paths[k] == victim
      modifies this, victim
      ensures Valid() && newPathId == old(newPathId) + 1
      ensures View() == old(View())[k := old(View())[k].(usable := false)][old(newPathId) := newPath.View()]
    {
      Retire(victim, k);
      Store(newPath);
    }

    /**
     * The scan of `try_add_path` over the usable paths: those that share a
     * directed hop with `newPath`, in id order.
     */
    method CollectConflicts(newPath: Path) returns (hits: seq<Path>)
      requires Valid() && newPath.Valid()
      ensures Lists(hits, Hits(View(), newPathId, newPath.dronesPath))
    {
      var usable := GetPathsCanBeUsed();
      assert forall p :: p in usable ==> p.Valid();
      hits := ScanConflicts(usable, newPath);
      OverlappingListed(usable, UsableIds(View(), newPathId), newPath.dronesPath);
    }

    /** Filtering listed paths by overlap lists the ids whose entries overlap. */
    lemma {:induction false} OverlappingListed(ps: seq<Path>, ids: seq<int>, hops: seq<int>)
      requires Valid() && Lists(ps, ids)
      ensures Lists(Overlapping(ps, hops), IntersectingIds(View(), ids, hops))
    {
      if ids != [] {
        var k := |ids| - 1;
        OverlappingListed(ps[..k], ids[..k], hops);
        assert ids[k] in paths && ps[k] == paths[ids[k]];
        assert ids[k] in View() && View()[ids[k]] == ps[k].View();
      }
    }

    /** Stores a new path under the next id and advances the counter. */
    method Store(p: Path)
      requires Valid() && p.Valid() && p.pathId == newPathId && p.speedDistances == speedDistances
      modifies this
      ensures Valid() && newPathId == old(newPathId) + 1
      ensures View() == old(View())[old(newPathId) := p.View()]
    {
      paths := paths[newPathId := p];
      newPathId := newPathId + 1;
    }

    /** Marks `p`, the path stored under `k`, as no longer usable. */
    method Retire(p: Path, ghost k: int)
      requires Valid() && k in paths && paths[k] == p
      modifies p
      ensures Valid() && paths == old(paths) && newPathId == old(newPathId)
      ensures View() == old(View())[k := old(View())[k].(usable := false)]
    {
      assert p.Valid();
      p.canBeUsed := false;
      assert p.Valid();
      forall j | j in paths && j != k ensures paths[j].View() == old(paths[j].View()) {
        assert paths[j].pathId != paths[k].pathId;
      }
    }

    /**
     * `update_path_distances`: replaces the entry by a freshly built path over
     * the same hops with the new distances, usable unless close to
     * disconnecting. Every busy flag of the entry is reset, even one that an
     * in-flight worker still holds.
     */
    method UpdatePathDistances(pathId: int, distances: seq<real>)
      requires Valid() && pathId in paths
      requires 0 < |distances| == |paths[pathId].dronesPath| - 1
      modifies this
      ensures Valid() && newPathId == old(newPathId)
      ensures View() == Refreshed(old(View()), pathId, distances, speedDistances)
    {
      ghost var t := View();
      assert paths[pathId].Valid();
      assert pathId in t && t[pathId].dronesPath == paths[pathId].dronesPath;
      ghost var refreshed := Refreshed(t, pathId, distances, speedDistances);
      var updatedPath := new Path(pathId, paths[pathId].dronesPath, distances, speedDistances);
      var close := updatedPath.IsPathCloseToDisconnect();
      if close {
        updatedPath.canBeUsed := false;
      }
      assert updatedPath.View() == refreshed[pathId];
      assert View() == t;
      Replace(updatedPath);
    }

    /** Stores `p` under its own id, in place of the entry there. */
    method Replace(p: Path)
      requires Valid() && p.Valid() && p.pathId in paths && p.speedDistances == speedDistances
      modifies this
      ensures Valid() && newPathId == old(newPathId)
      ensures View() == old(View())[p.pathId := p.View()]
    {
      paths := paths[p.pathId := p];
    }
  }
}
