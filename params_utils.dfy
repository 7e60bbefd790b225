/**
 * The validation of the simulation parameters (params_utils.py): a chain of
 * guards, each returning `(False, message)` for the first violated bound, and
 * `(True, ...)` when all twelve hold.
 */
module ParamsUtils {
  import opened Thresholds

  /** The entries of the parameter dictionary that `check_params` reads. */
  datatype Params = Params(
    droneMovePeriod: int,
    droneCount: int,
    droneRadiusDistance: real,
    closeToDisconnectRadiusDistance: real,
    stableSendingSpeedMaxDistance: real,
    scoutCount: int,
    scoutEnergyLimit: int,
    dataCount: int,
    dataSize: int,
    dataGeneratePeriod: int,
    worldWidth: int,
    worldHeight: int)

  const AllCorrect := "All input parameters are correct"

  /** The messages of the failing guards, in source order. */
  const MovePeriodMessage := "drone.move_period cannot be less than one"
  const DroneCountMessage := "drone.count cannot be less than two"
  const RadiusMessage := "drone.drone_radius_distance cannot be less than one"
  const CloseRadiusMessage := "drone.close_to_disconnect_radius_distance cannot be more or equal drone.drone_radius_distance"
  const StableDistanceMessage := "drone.stable_sending_speed_max_distance be more or equal drone.close_to_disconnect_radius_distance"
  const ScoutCountMessage := "scout.count cannot be less than one"
  const EnergyLimitMessage := "scout.energy_limit cannot be less than one"
  const DataCountMessage := "data.count cannot be less than one"
  const DataSizeMessage := "data.size cannot be less than one"
  const GeneratePeriodMessage := "data.generate_period cannot be less than one"
  const WidthMessage := "world.width cannot be less than one"
  const HeightMessage := "world.height cannot be less than one"

  /** `check_params`: the first failing guard decides the message. */
  function CheckParams(p: Params): (r: (bool, string))
    ensures r.0 <==> r.1 == AllCorrect
    ensures r.0 ==> SpeedDistancesOf(p).Ordered()
    ensures r.0 ==> p.droneCount >= 2 && p.droneMovePeriod > 0 && p.scoutCount > 0 && p.scoutEnergyLimit > 0
    ensures r.0 ==> p.dataCount > 0 && p.dataSize > 0 && p.dataGeneratePeriod > 0
    ensures r.0 ==> p.worldWidth > 0 && p.worldHeight > 0
  {
    if p.droneMovePeriod <= 0 then
      (false, MovePeriodMessage)
    else if p.droneCount < 2 then
      (false, DroneCountMessage)
    else if p.droneRadiusDistance <= 0.0 then
      (false, RadiusMessage)
    else if p.closeToDisconnectRadiusDistance >= p.droneRadiusDistance then
      (false, CloseRadiusMessage)
    else if p.stableSendingSpeedMaxDistance >= p.closeToDisconnectRadiusDistance then
      (false, StableDistanceMessage)
    else if p.scoutCount <= 0 then
      (false, ScoutCountMessage)
    else if p.scoutEnergyLimit <= 0 then
      (false, EnergyLimitMessage)
    else if p.dataCount <= 0 then
      (false, DataCountMessage)
    else if p.dataSize <= 0 then
      (false, DataSizeMessage)
    else if p.dataGeneratePeriod <= 0 then
      (false, GeneratePeriodMessage)
    else if p.worldWidth <= 0 then
      (false, WidthMessage)
    else if p.worldHeight <= 0 then
      (false, HeightMessage)
    else
      (true, AllCorrect)
  }

  /**
   * Reference table of the twelve guards in source order: whether each one
   * fails, and the message it reports.
   */
  function Checks(p: Params): seq<(bool, string)>
  {
    [ (p.droneMovePeriod <= 0, MovePeriodMessage),
      (p.droneCount < 2, DroneCountMessage),
      (p.droneRadiusDistance <= 0.0, RadiusMessage),
      (p.closeToDisconnectRadiusDistance >= p.droneRadiusDistance,
       CloseRadiusMessage),
      (p.stableSendingSpeedMaxDistance >= p.closeToDisconnectRadiusDistance,
       StableDistanceMessage),
      (p.scoutCount <= 0, ScoutCountMessage),
      (p.scoutEnergyLimit <= 0, EnergyLimitMessage),
      (p.dataCount <= 0, DataCountMessage),
      (p.dataSize <= 0, DataSizeMessage),
      (p.dataGeneratePeriod <= 0, GeneratePeriodMessage),
      (p.worldWidth <= 0, WidthMessage),
      (p.worldHeight <= 0, HeightMessage) ]
  }

  /** Guard `i` of the table is the first that fails. */
  predicate FirstFailing(checks: seq<(bool, string)>, i: int)
  {
    0 <= i < |checks| && checks[i].0 && forall j :: 0 <= j < i ==> !checks[j].0
  }

  /**
   * `check_params` accepts exactly when no guard of the reference table fails,
   * and otherwise reports the message of the first failing guard, in source order.
   */
  lemma CheckParamsMatchesGuardTable(p: Params)
    ensures CheckParams(p).0 <==> forall i :: 0 <= i < |Checks(p)| ==> !Checks(p)[i].0
    ensures !CheckParams(p).0 ==> exists i :: FirstFailing(Checks(p), i) && CheckParams(p).1 == Checks(p)[i].1
  {
    var cs := Checks(p);
    var r := CheckParams(p);
    if !r.0 {
      var i :=
        if p.droneMovePeriod <= 0 then 0
        else if p.droneCount < 2 then 1
        else if p.droneRadiusDistance <= 0.0 then 2
        else if p.closeToDisconnectRadiusDistance >= p.droneRadiusDistance then 3
        else if p.stableSendingSpeedMaxDistance >= p.closeToDisconnectRadiusDistance then 4
        else if p.scoutCount <= 0 then 5
        else if p.scoutEnergyLimit <= 0 then 6
        else if p.dataCount <= 0 then 7
        else if p.dataSize <= 0 then 8
        else if p.dataGeneratePeriod <= 0 then 9
        else if p.worldWidth <= 0 then 10
        else 11;
      assert FirstFailing(cs, i) && r.1 == cs[i].1;
    }
  }

  /** The threshold triple the driver builds from the parameters (bee_ad_hoc.py). */
  function SpeedDistancesOf(p: Params): SpeedDistances
  {
    SpeedDistances(p.stableSendingSpeedMaxDistance, p.closeToDisconnectRadiusDistance, p.droneRadiusDistance)
  }
}
