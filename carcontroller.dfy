/**
 * The BYD steering controller: it recomputes the commanded steering angle
 * through the shared angle rate limiter on every other frame and holds it
 * in between.  It sends no CAN messages of its own.
 */
module BydCarController {
  import BydCan
  import BydCarState

  /** A speed breakpoint table: at speed `speeds[i]` (m/s) the limit is `values[i]`. */
  datatype BreakpointTable = BreakpointTable(speeds: seq<real>, values: seq<real>)

  /** `AngleSteeringLimits`: the angle ceiling and the rate tables for moving away from and toward center. */
  datatype AngleSteeringLimits = AngleSteeringLimits(
    steerAngleMax: real, angleRateUp: BreakpointTable, angleRateDown: BreakpointTable)

  /** `CarControllerParams.ANGLE_LIMITS`. */
  const ANGLE_LIMITS: AngleSteeringLimits := AngleSteeringLimits(
    220.0,
    BreakpointTable([0.0, 5.0, 15.0], [4.0, 3.0, 2.0]),
    BreakpointTable([0.0, 5.0, 15.0], [6.0, 4.0, 3.0]))

  /**
   * `apply_std_steer_angle_limits(target, previous, vEgo, measured, latActive, limits)`,
   * the shared rate limiter, which is not part of this model.
   */
  type AngleLimiter = (real, real, real, real, bool, AngleSteeringLimits) -> real

  /** The actuator commands of one frame. */
  datatype Actuators = Actuators(
    torque: real, torqueOutputCan: real, steeringAngleDeg: real, curvature: real,
    speed: real, accel: real)

  /** The parts of `CarControl` the controller reads. */
  datatype CarControl = CarControl(actuators: Actuators, latActive: bool)

  class CarController {
    /** The rate limiter the controller delegates to. */
    const limiter: AngleLimiter
    var applyAngle: real
    var frame: nat

    constructor (limiter: AngleLimiter)
      ensures this.limiter == limiter && applyAngle == 0.0 && frame == 0
    {
      this.limiter := limiter;
      applyAngle := 0.0;
      frame := 0;
    }

    /** `update`: on even frames pass the target through the limiter; always advance the frame. */
    method Update(cc: CarControl, cs: BydCarState.CarStateOut, nowNanos: int)
      returns (newActuators: Actuators, canSends: seq<BydCan.CanMsg>)
      modifies this
      ensures old(frame) % 2 == 0 ==>
        applyAngle == limiter(cc.actuators.steeringAngleDeg, old(applyAngle), cs.vEgo,
                              cs.steeringAngleDeg, cc.latActive, ANGLE_LIMITS)
      ensures old(frame) % 2 == 1 ==> applyAngle == old(applyAngle)
      ensures frame == old(frame) + 1
      ensures newActuators == cc.actuators.(steeringAngleDeg := applyAngle)
      ensures canSends == []
    {
      canSends := [];
      var actuators := cc.actuators;
      if frame % 2 == 0 {
        applyAngle := limiter(actuators.steeringAngleDeg, applyAngle, cs.vEgo, cs.steeringAngleDeg,
                              cc.latActive, ANGLE_LIMITS);
      }
      newActuators := actuators.(steeringAngleDeg := applyAngle);
      frame := frame + 1;
    }
  }

  /**
   * Four updates of a fresh controller with the same inputs: the applied
   * angle is recomputed on frames 0 and 2 and held on frames 1 and 3.
   */
  method FourFrames(limiter: AngleLimiter, cc: CarControl, cs: BydCarState.CarStateOut)
    returns (angles: seq<real>)
    ensures |angles| == 4
    ensures angles[0] == limiter(cc.actuators.steeringAngleDeg, 0.0, cs.vEgo, cs.steeringAngleDeg,
                                 cc.latActive, ANGLE_LIMITS)
    ensures angles[1] == angles[0]
    ensures angles[2] == limiter(cc.actuators.steeringAngleDeg, angles[1], cs.vEgo, cs.steeringAngleDeg,
                                 cc.latActive, ANGLE_LIMITS)
    ensures angles[3] == angles[2]
  {
    var c := new CarController(limiter);
    var a0, _ := c.Update(cc, cs, 0);
    var a1, _ := c.Update(cc, cs, 0);
    var a2, _ := c.Update(cc, cs, 0);
    var a3, _ := c.Update(cc, cs, 0);
    angles := [a0.steeringAngleDeg, a1.steeringAngleDeg, a2.steeringAngleDeg, a3.steeringAngleDeg];
  }

  /** The limits: a 220 degree ceiling; both tables tighten with speed, and moving toward center is allowed faster. */
  lemma AngleLimitTables()
    ensures ANGLE_LIMITS.steerAngleMax == 220.0
    ensures |ANGLE_LIMITS.angleRateUp.speeds| == |ANGLE_LIMITS.angleRateUp.values| == 3
    ensures |ANGLE_LIMITS.angleRateDown.speeds| == |ANGLE_LIMITS.angleRateDown.values| == 3
    ensures forall i :: 0 < i < 3 ==> ANGLE_LIMITS.angleRateUp.values[i] < ANGLE_LIMITS.angleRateUp.values[i - 1]
    ensures forall i :: 0 < i < 3 ==> ANGLE_LIMITS.angleRateDown.values[i] < ANGLE_LIMITS.angleRateDown.values[i - 1]
    ensures forall i :: 0 <= i < 3 ==> ANGLE_LIMITS.angleRateUp.values[i] < ANGLE_LIMITS.angleRateDown.values[i]
  {
  }
}
