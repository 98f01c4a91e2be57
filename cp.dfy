/**
 * The components of `CP.py`: an unclamped PID regulator, a unit-mass virtual
 * spring-damper and an actuator that holds the last control signal.
 */
module CP {
  import opened Wrappers
  import opened Control

  /**
   * One unclamped PID update with error `error`: the integral grows by
   * error*dt and the derivative is taken against the previous error. There is
   * no check on `dt`; only a zero step, which divides by zero, is excluded.
   */
  function UnclampedStep(kp: real, ki: real, kd: real, s: PidState, error: real, dt: real): (o: PidOutcome)
    requires dt != 0.0
    ensures o.state.integral - s.integral == error * dt
    ensures o.state.prevError == error
    // the derivative term, scaled back by dt, is kd times the change of error
    ensures o.output * dt == (kp * error + ki * o.state.integral) * dt + kd * (error - s.prevError)
  {
    var integral := s.integral + error * dt;
    var derivative := (error - s.prevError) / dt;
    DerivativeTimesStep(kd, error - s.prevError, dt);
    PidOutcome(PidState(integral, error), kp * error + ki * integral + kd * derivative)
  }

  lemma DerivativeTimesStep(kd: real, change: real, dt: real)
    requires dt != 0.0
    ensures kd * (change / dt) * dt == kd * change
  {
    assert (change / dt) * dt == change;
  }

  /**
   * For a positive `dt`, the unclamped update is `PIDController.update` of the
   * dataclass regulator with neither an integral nor an output limit.
   */
  lemma UnclampedAgreesWithUpdate(kp: real, ki: real, kd: real, s: PidState, setpoint: real, measurement: real, dt: real)
    requires dt > 0.0
    ensures PidStep(PidConfig(kp, ki, kd, None, None), s, setpoint, measurement, dt)
      == Success(UnclampedStep(kp, ki, kd, s, setpoint - measurement, dt))
  {
    var e := setpoint - measurement;
    var clamped := PidAdvance(PidConfig(kp, ki, kd, None, None), s, e, dt);
    var plain := UnclampedStep(kp, ki, kd, s, e, dt);
    assert clamped.state == plain.state;
    assert clamped.output == plain.output;
  }

  /** `PIDController`: gains fixed; `prev_error` and `integral` change with every `compute`. */
  class PIDController {
    const kp: real
    const ki: real
    const kd: real
    var prevError: real
    var integral: real

    function State(): PidState
      reads this
    {
      PidState(integral, prevError)
    }

    /** `__init__(kp, ki, kd)`: no accumulated error yet. */
    constructor (kp: real, ki: real, kd: real)
      ensures this.kp == kp && this.ki == ki && this.kd == kd
      ensures State() == PidInitial
    {
      this.kp := kp;
      this.ki := ki;
      this.kd := kd;
      prevError := 0.0;
      integral := 0.0;
    }

    /** `compute(setpoint, measured_value, dt)`. */
    method Compute(setpoint: real, measuredValue: real, dt: real) returns (output: real)
      requires dt != 0.0
      modifies this
      ensures var o := UnclampedStep(kp, ki, kd, old(State()), setpoint - measuredValue, dt);
        State() == o.state && output == o.output
    {
      var error := setpoint - measuredValue;
      integral := integral + error * dt;
      var derivative := (error - prevError) / dt;
      prevError := error;
      output := kp * error + ki * integral + kd * derivative;
    }
  }

  /**
   * One `VirtualSpringDamper.apply_force` on values: the unit-mass acceleration
   * F - k*x - b*v, velocity first, then position with the new velocity.
   */
  function SpringDamperStep(stiffness: real, damping: real, s: Kinematics, force: real, dt: real): (r: Kinematics)
    // the position advances with the velocity computed in the same call
    ensures r.position == s.position + r.velocity * dt
    // unit mass: the velocity change is the net force times dt
    ensures r.velocity - s.velocity == (force - stiffness * s.position - damping * s.velocity) * dt
  {
    var acceleration := force - stiffness * s.position - damping * s.velocity;
    var velocity := s.velocity + acceleration * dt;
    Kinematics(s.position + velocity * dt, velocity)
  }

  /**
   * The spring-damper is the admittance step with unit mass: it is the plant
   * step with mass 1 for every `dt`, and for a positive `dt` it is what
   * `AdmittanceController.step` returns.
   */
  lemma SpringDamperIsUnitMassAdmittance(stiffness: real, damping: real, s: Kinematics, force: real, dt: real)
    ensures SpringDamperStep(stiffness, damping, s, force, dt) == PlantStep(AdmittanceParams(stiffness, damping, 1.0), s, force, dt)
    ensures dt > 0.0 ==>
      AdmittanceStep(AdmittanceParams(stiffness, damping, 1.0), s, force, dt) == Success(SpringDamperStep(stiffness, damping, s, force, dt))
  {
    var unit := PlantStep(AdmittanceParams(stiffness, damping, 1.0), s, force, dt);
    var r := SpringDamperStep(stiffness, damping, s, force, dt);
    var net := force - damping * s.velocity - stiffness * s.position;
    assert net / 1.0 == force - stiffness * s.position - damping * s.velocity;
    assert unit.velocity == r.velocity;
    assert unit.position == s.position + unit.velocity * dt;
    assert r.position == s.position + r.velocity * dt;
  }

  /** `VirtualSpringDamper`: stiffness and damping fixed; position and velocity change. */
  class VirtualSpringDamper {
    const stiffness: real
    const damping: real
    var position: real
    var velocity: real

    function State(): Kinematics
      reads this
    {
      Kinematics(position, velocity)
    }

    /** `__init__(stiffness, damping)`: the system starts at rest. */
    constructor (stiffness: real, damping: real)
      ensures this.stiffness == stiffness && this.damping == damping
      ensures State() == Rest
    {
      this.stiffness := stiffness;
      this.damping := damping;
      position := 0.0;
      velocity := 0.0;
    }

    /** `apply_force(external_force, dt)`: advances the state and returns only the new position. */
    method ApplyForce(externalForce: real, dt: real) returns (newPosition: real)
      modifies this
      ensures State() == SpringDamperStep(stiffness, damping, old(State()), externalForce, dt)
      ensures newPosition == position
    {
      var acceleration := externalForce - stiffness * position - damping * velocity;
      velocity := velocity + acceleration * dt;
      position := position + velocity * dt;
      newPosition := position;
    }
  }

  /** `Actuator`: holds the force it was last told to produce. */
  class Actuator {
    var outputForce: real

    /** `__init__`: no force yet. */
    constructor ()
      ensures outputForce == 0.0
    {
      outputForce := 0.0;
    }

    /** `update_force(control_signal)`. */
    method UpdateForce(controlSignal: real)
      modifies this
      ensures outputForce == controlSignal
    {
      outputForce := controlSignal;
    }
  }
}
