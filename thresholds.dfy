/**
 * The three distance thresholds every component receives as the list
 * `speed_distances = [stable, close, radius]` (assembled in bee_ad_hoc.py from
 * `drone.stable_sending_speed_max_distance`, `drone.close_to_disconnect_radius_distance`
 * and `drone.drone_radius_distance`), and the per-hop penalty `d - stable + 1`
 * that the scout uses as an energy cost and the worker as a delay.
 */
module Thresholds {

  /** `speed_distances[0]`, `speed_distances[1]` and `speed_distances[2]`. */
  datatype SpeedDistances = SpeedDistances(stable: real, close: real, radius: real)
  {
    /** The ordering the parameter check establishes and the design assumes. */
    predicate Ordered()
    {
      stable < close < radius && 0.0 < radius
    }
  }

  /**
   * Cost of a hop of length `d`: one unit inside the stable band, and one more unit
   * for every unit of distance beyond it. The scout writes the test as `d < stable`,
   * the worker as `d > stable`; at `d == stable` both give 1.
   */
  function HopCost(d: real, stable: real): (c: real)
    ensures 1.0 <= c
    ensures d <= stable ==> c == 1.0
    ensures stable <= d ==> c == d - stable + 1.0
  {
    if d < stable then 1.0 else d - stable + 1.0
  }

  /** Farther hops never cost less, and beyond the stable band they cost strictly more. */
  lemma HopCostMonotone(d1: real, d2: real, stable: real)
    requires d1 <= d2
    ensures HopCost(d1, stable) <= HopCost(d2, stable)
    ensures stable <= d1 < d2 ==> HopCost(d1, stable) < HopCost(d2, stable)
  {
  }
}
