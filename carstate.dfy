/**
 * The BYD state decoder: one snapshot of parsed signal values from the
 * powertrain bus and the camera bus becomes a `CarStateOut` record, and the
 * decoder keeps a few camera values for the command encoder to echo back.
 *
 * A bus snapshot is a total lookup from (message, signal) to the value the
 * parser decoded (`cp.vl[msg][sig]`).  Values are exact reals; the speed
 * filter the decoder consults is a parameter.
 */
module BydCarState {

  datatype Option<T> = None | Some(value: T)

  /** `cp.vl[message][signal]` for one bus. */
  type Signals = (string, string) -> real

  /** km/h to m/s. */
  const KPH_TO_MS: real := 1.0 / 3.6

  /** Ratio between the cluster's displayed speed and ground speed. */
  const HUD_MULTIPLIER: real := 1.068

  /** The lowest set speed (km/h) the cluster reports while cruise is available. */
  const MinSetSpeedKph: int := 30

  datatype WheelSpeeds = WheelSpeeds(fl: real, fr: real, rl: real, rr: real)

  datatype CruiseState = CruiseState(
    available: bool, enabled: bool, speed: real, speedCluster: real,
    standstill: bool, nonAdaptive: bool)

  /** The fields of the car state this decoder fills. */
  datatype CarStateOut = CarStateOut(
    steerFaultTemporary: bool,
    wheelSpeeds: WheelSpeeds,
    vEgoRaw: real, vEgo: real, aEgo: real, vEgoCluster: real,
    standstill: bool,
    /** The label the DBC value table gives the raw gear code, `None` when it has none. */
    gear: Option<string>,
    doorOpen: bool, seatbeltUnlatched: bool,
    gasPressed: bool, brake: real, brakePressed: bool,
    steeringAngleDeg: real, steeringTorque: real, steeringTorqueEps: real, steeringPressed: bool,
    stockAeb: bool, stockFcw: bool,
    cruiseState: CruiseState,
    leftBlinker: bool, rightBlinker: bool, genericToggle: bool, espDisabled: bool,
    leftBlindspot: bool, rightBlindspot: bool)

  /** Python's `bool(x)` on a number. */
  function Truthy(x: real): bool { x != 0.0 }

  /** Python's `int(x)` on a float: truncation toward zero. */
  function TruncToInt(x: real): (n: int)
    ensures 0.0 <= x ==> n as real <= x < n as real + 1.0
    ensures x < 0.0 ==> n as real - 1.0 < x <= n as real
  {
    if x >= 0.0 then x.Floor else -((-x).Floor)
  }

  /** `dict.get(key, None)`. */
  function Get(m: map<int, string>, key: int): (r: Option<string>)
    ensures r.None? <==> key !in m
    ensures r.Some? ==> key in m && r.value == m[key]
  {
    if key in m then Some(m[key]) else None
  }

  function MaxInt(a: int, b: int): int { if a >= b then a else b }

  /** The cruise fields, read from the camera bus. */
  function DecodeCruise(cam: Signals): (c: CruiseState)
    ensures c.available <==> cam("ACC_HUD_ADAS", "ACC_ON1") != 0.0 || cam("ACC_HUD_ADAS", "ACC_ON2") != 0.0
    ensures !c.available ==> c.speedCluster == 0.0
    ensures c.available ==> c.speedCluster >= MinSetSpeedKph as real * KPH_TO_MS
    ensures c.available && TruncToInt(cam("ACC_HUD_ADAS", "SET_SPEED")) >= MinSetSpeedKph ==>
      c.speedCluster == TruncToInt(cam("ACC_HUD_ADAS", "SET_SPEED")) as real * KPH_TO_MS
    ensures c.available && TruncToInt(cam("ACC_HUD_ADAS", "SET_SPEED")) < MinSetSpeedKph ==>
      c.speedCluster == MinSetSpeedKph as real * KPH_TO_MS
    ensures c.speed * HUD_MULTIPLIER == c.speedCluster
    ensures c.enabled <==> cam("ACC_CMD", "CMD_REQ_ACTIVE_LOW") == 0.0
    ensures c.standstill <==> cam("ACC_CMD", "STANDSTILL_STATE") != 0.0
    ensures !c.nonAdaptive
  {
    var available := Truthy(cam("ACC_HUD_ADAS", "ACC_ON1")) || Truthy(cam("ACC_HUD_ADAS", "ACC_ON2"));
    var speedCluster :=
      if available then MaxInt(TruncToInt(cam("ACC_HUD_ADAS", "SET_SPEED")), 30) as real * KPH_TO_MS
      else 0.0;
    CruiseState(
      available := available,
      enabled := !Truthy(cam("ACC_CMD", "CMD_REQ_ACTIVE_LOW")),
      speed := speedCluster / HUD_MULTIPLIER,
      speedCluster := speedCluster,
      standstill := Truthy(cam("ACC_CMD", "STANDSTILL_STATE")),
      nonAdaptive := false)
  }

  /**
   * `CarState.update` without the instance caching: every field of the
   * returned record from the current snapshot.  `speedFilter` stands for
   * `update_speed_kf`; `leftBlindspot`/`rightBlindspot` keep their default
   * unless the car has blind-spot monitoring.
   */
  function DecodeCarState(cp: Signals, cam: Signals, enableBsm: bool, shifterValues: map<int, string>,
                          speedFilter: real -> (real, real)): (r: CarStateOut)
    ensures r.steerFaultTemporary <==> cam("STEERING_MODULE_ADAS", "EPS_OK") == 0.0
    ensures r.wheelSpeeds.fl == cp("WHEEL_SPEED", "WHEELSPEED_FL") * KPH_TO_MS
    ensures r.wheelSpeeds.rl == cp("WHEEL_SPEED", "WHEELSPEED_BL") * KPH_TO_MS
    ensures r.vEgoRaw + r.vEgoRaw == r.wheelSpeeds.rl + r.wheelSpeeds.fl
    ensures r.standstill <==> r.vEgoRaw < 0.01
    ensures r.vEgoCluster == r.vEgo * HUD_MULTIPLIER
    ensures r.gear.None? <==> TruncToInt(cp("DRIVE_STATE", "GEAR")) !in shifterValues
    ensures r.doorOpen <==>
      || cp("METER_CLUSTER", "BACK_LEFT_DOOR") != 0.0 || cp("METER_CLUSTER", "FRONT_LEFT_DOOR") != 0.0
      || cp("METER_CLUSTER", "BACK_RIGHT_DOOR") != 0.0 || cp("METER_CLUSTER", "FRONT_RIGHT_DOOR") != 0.0
    ensures r.seatbeltUnlatched <==> cp("METER_CLUSTER", "SEATBELT_DRIVER") == 0.0
    ensures r.gasPressed <==> cp("PEDAL", "GAS_PEDAL") >= 0.01
    ensures r.brake == cp("PEDAL", "BRAKE_PEDAL") && (r.brakePressed <==> r.brake > 0.01)
    ensures r.steeringAngleDeg == cp("STEER_MODULE_2", "STEER_ANGLE_2")
    ensures r.steeringTorqueEps == cp("STEER_MODULE_2", "DRIVER_EPS_TORQUE")
    ensures r.steeringPressed <==> r.steeringTorqueEps > 6.0
    ensures !r.stockAeb && !r.stockFcw && !r.espDisabled
    ensures r.cruiseState == DecodeCruise(cam)
    ensures !enableBsm ==> !r.leftBlindspot && !r.rightBlindspot
    ensures enableBsm ==> (r.leftBlindspot <==> cp("BSM", "LEFT_APPROACH") != 0.0)
    ensures enableBsm ==> (r.rightBlindspot <==> cp("BSM", "RIGHT_APPROACH") != 0.0)
  {
    var epsOk := cam("STEERING_MODULE_ADAS", "EPS_OK");
    var wheelSpeeds := WheelSpeeds(
      fl := cp("WHEEL_SPEED", "WHEELSPEED_FL") * KPH_TO_MS,
      fr := cp("WHEEL_SPEED", "WHEELSPEED_FR") * KPH_TO_MS,
      rl := cp("WHEEL_SPEED", "WHEELSPEED_BL") * KPH_TO_MS,
      rr := cp("WHEEL_SPEED", "WHEELSPEED_BR") * KPH_TO_MS);
    var vEgoRaw := (wheelSpeeds.rl + wheelSpeeds.fl) / 2.0;
    var (vEgo, aEgo) := speedFilter(vEgoRaw);
    var canGear := TruncToInt(cp("DRIVE_STATE", "GEAR"));
    var brake := cp("PEDAL", "BRAKE_PEDAL");
    var steeringTorqueEps := cp("STEER_MODULE_2", "DRIVER_EPS_TORQUE");
    CarStateOut(
      steerFaultTemporary := !Truthy(epsOk),
      wheelSpeeds := wheelSpeeds,
      vEgoRaw := vEgoRaw, vEgo := vEgo, aEgo := aEgo, vEgoCluster := vEgo * HUD_MULTIPLIER,
      standstill := vEgoRaw < 0.01,
      gear := Get(shifterValues, canGear),
      doorOpen := Truthy(cp("METER_CLUSTER", "BACK_LEFT_DOOR")) || Truthy(cp("METER_CLUSTER", "FRONT_LEFT_DOOR"))
               || Truthy(cp("METER_CLUSTER", "BACK_RIGHT_DOOR")) || Truthy(cp("METER_CLUSTER", "FRONT_RIGHT_DOOR")),
      seatbeltUnlatched := cp("METER_CLUSTER", "SEATBELT_DRIVER") == 0.0,
      gasPressed := cp("PEDAL", "GAS_PEDAL") >= 0.01,
      brake := brake, brakePressed := brake > 0.01,
      steeringAngleDeg := cp("STEER_MODULE_2", "STEER_ANGLE_2"),
      steeringTorque := cp("STEERING_TORQUE", "MAIN_TORQUE"),
      steeringTorqueEps := steeringTorqueEps,
      steeringPressed := steeringTorqueEps > 6.0,
      stockAeb := false, stockFcw := false,
      cruiseState := DecodeCruise(cam),
      leftBlinker := Truthy(cp("STALKS", "LEFT_BLINKER")),
      rightBlinker := Truthy(cp("STALKS", "RIGHT_BLINKER")),
      genericToggle := Truthy(cp("STALKS", "GENERIC_TOGGLE")),
      espDisabled := false,
      leftBlindspot := enableBsm && Truthy(cp("BSM", "LEFT_APPROACH")),
      rightBlindspot := enableBsm && Truthy(cp("BSM", "RIGHT_APPROACH")))
  }

  /**
   * The remaining fields of the decoded record: the right-hand wheel speeds, the filtered speed pair, the
   * gear label of a mapped code, the raw steering torque and the stalk bits.
   */
  lemma DecodedStalksAndFilter(cp: Signals, cam: Signals, enableBsm: bool, shifterValues: map<int, string>,
                               speedFilter: real -> (real, real))
    ensures var r := DecodeCarState(cp, cam, enableBsm, shifterValues, speedFilter);
      && r.wheelSpeeds.fr == cp("WHEEL_SPEED", "WHEELSPEED_FR") * KPH_TO_MS
      && r.wheelSpeeds.rr == cp("WHEEL_SPEED", "WHEELSPEED_BR") * KPH_TO_MS
      && (r.vEgo, r.aEgo) == speedFilter(r.vEgoRaw)
      && (r.gear.Some? ==> r.gear.value == shifterValues[TruncToInt(cp("DRIVE_STATE", "GEAR"))])
      && r.steeringTorque == cp("STEERING_TORQUE", "MAIN_TORQUE")
      && (r.leftBlinker <==> cp("STALKS", "LEFT_BLINKER") != 0.0)
      && (r.rightBlinker <==> cp("STALKS", "RIGHT_BLINKER") != 0.0)
      && (r.genericToggle <==> cp("STALKS", "GENERIC_TOGGLE") != 0.0)
  {
  }

  /** The decoder instance: configuration read once, and the values cached by each update. */
  class CarState {
    const enableBsm: bool
    /** The DBC value tables for `DRIVE_STATE.GEAR` and `ACC_HUD_ADAS.SET_DISTANCE`. */
    const shifterValues: map<int, string>
    const setDistanceValues: map<int, string>

    var prevAngle: real
    var hudPassthrough: real
    var adasSettingsPt: real
    var lkaOn: real
    var epsOk: real

    constructor (enableBsm: bool, shifterValues: map<int, string>, setDistanceValues: map<int, string>)
      ensures this.enableBsm == enableBsm && this.shifterValues == shifterValues
      ensures this.setDistanceValues == setDistanceValues
      ensures prevAngle == 0.0 && hudPassthrough == 0.0 && adasSettingsPt == 0.0
      ensures lkaOn == 0.0 && epsOk == 0.0
    {
      this.enableBsm := enableBsm;
      this.shifterValues := shifterValues;
      this.setDistanceValues := setDistanceValues;
      prevAngle := 0.0;
      hudPassthrough := 0.0;
      adasSettingsPt := 0.0;
      lkaOn := 0.0;
      epsOk := 0.0;
    }

    /** `update`: cache the camera's HUD values and EPS health, decode, remember the angle. */
    method Update(cp: Signals, cam: Signals, speedFilter: real -> (real, real)) returns (ret: CarStateOut)
      modifies this
      ensures ret == DecodeCarState(cp, cam, enableBsm, shifterValues, speedFilter)
      ensures adasSettingsPt == cam("LKAS_HUD_ADAS", "SETTINGS")
      ensures hudPassthrough == cam("LKAS_HUD_ADAS", "TSR")
      ensures lkaOn == cam("LKAS_HUD_ADAS", "LKAS_ENABLED")
      ensures epsOk == cam("STEERING_MODULE_ADAS", "EPS_OK")
      ensures ret.steerFaultTemporary <==> epsOk == 0.0
      ensures prevAngle == ret.steeringAngleDeg
    {
      adasSettingsPt := cam("LKAS_HUD_ADAS", "SETTINGS");
      hudPassthrough := cam("LKAS_HUD_ADAS", "TSR");
      lkaOn := cam("LKAS_HUD_ADAS", "LKAS_ENABLED");
      epsOk := cam("STEERING_MODULE_ADAS", "EPS_OK");
      ret := DecodeCarState(cp, cam, enableBsm, shifterValues, speedFilter);
      prevAngle := ret.steeringAngleDeg;
    }
  }

  /** A raw gear code the value table does not map decodes to no gear and changes no other field. */
  lemma GearLookupMissIsIsolated(cp: Signals, cam: Signals, enableBsm: bool, table: map<int, string>,
                                 other: map<int, string>, speedFilter: real -> (real, real))
    requires TruncToInt(cp("DRIVE_STATE", "GEAR")) !in table
    ensures DecodeCarState(cp, cam, enableBsm, table, speedFilter).gear == None
    ensures DecodeCarState(cp, cam, enableBsm, table, speedFilter)
         == DecodeCarState(cp, cam, enableBsm, other, speedFilter).(gear := None)
  {
  }

  /** With cruise available and a set speed of 10 km/h the cluster speed is floored at 30 km/h. */
  lemma CruiseSpeedFloor(cam: Signals)
    requires cam("ACC_HUD_ADAS", "ACC_ON1") != 0.0
    requires cam("ACC_HUD_ADAS", "SET_SPEED") == 10.0
    ensures DecodeCruise(cam).speedCluster == 30.0 * KPH_TO_MS
    ensures DecodeCruise(cam).speedCluster != 10.0 * KPH_TO_MS
  {
  }

  /** Standstill in raw units: the two wheel signals sum to less than 0.072 km/h. */
  lemma StandstillInKph(cp: Signals, cam: Signals, enableBsm: bool, table: map<int, string>,
                        speedFilter: real -> (real, real))
    ensures DecodeCarState(cp, cam, enableBsm, table, speedFilter).standstill
        <==> cp("WHEEL_SPEED", "WHEELSPEED_BL") + cp("WHEEL_SPEED", "WHEELSPEED_FL") < 0.072
  {
  }
}
