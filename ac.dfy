/**
 * The stand-alone admittance controller of `AC.py`: the same semi-implicit
 * Euler mass-spring-damper as `AdmittanceController.step`, without the checks
 * on `dt` and on the mass.
 */
module AC {
  import opened Wrappers
  import opened Control

  /**
   * One `apply_force` on values. The division by the mass is unguarded, so a
   * zero mass is the one input the method cannot take; any other mass, of
   * either sign, and any `dt` are accepted.
   */
  function ApplyForceRule(k: real, b: real, m: real, s: Kinematics, force: real, dt: real): (r: Kinematics)
    requires m != 0.0
    // the position advances with the velocity computed in the same call
    ensures r.position == s.position + r.velocity * dt
    // the velocity change solves m*(v' - v) = (F - b*v - k*x)*dt
    ensures m * (r.velocity - s.velocity) == (force - b * s.velocity - k * s.position) * dt
  {
    var acceleration := (force - b * s.velocity - k * s.position) / m;
    var velocity := s.velocity + acceleration * dt;
    MassTimesAcceleration(m, force - b * s.velocity - k * s.position, dt);
    Kinematics(s.position + velocity * dt, velocity)
  }

  /** The two update equations determine the new state: the rule is their only solution. */
  lemma ApplyForceSolvesDynamics(k: real, b: real, m: real, s: Kinematics, force: real, dt: real, next: Kinematics)
    requires m != 0.0
    ensures ApplyForceRule(k, b, m, s, force, dt) == next <==>
      && m * (next.velocity - s.velocity) == (force - b * s.velocity - k * s.position) * dt
      && next.position == s.position + next.velocity * dt
  {
    var r := ApplyForceRule(k, b, m, s, force, dt);
    if m * (next.velocity - s.velocity) == (force - b * s.velocity - k * s.position) * dt
       && next.position == s.position + next.velocity * dt {
      MulCancelLeft(m, next.velocity - s.velocity, r.velocity - s.velocity);
      assert next.velocity == r.velocity;
    }
  }

  /**
   * For a positive `dt` and a positive mass, `apply_force` computes exactly
   * what the guarded `AdmittanceController.step` computes.
   */
  lemma ApplyForceAgreesWithStep(k: real, b: real, m: real, s: Kinematics, force: real, dt: real)
    requires dt > 0.0 && m > 0.0
    ensures AdmittanceStep(AdmittanceParams(k, b, m), s, force, dt) == Success(ApplyForceRule(k, b, m, s, force, dt))
  {
    var step := PlantStep(AdmittanceParams(k, b, m), s, force, dt);
    var rule := ApplyForceRule(k, b, m, s, force, dt);
    assert step.velocity == rule.velocity;
    assert step.position == rule.position;
  }

  /** No force applied to a system at rest leaves it at rest, for any parameters and time step. */
  lemma ZeroForceFromRest(k: real, b: real, m: real, dt: real)
    requires m != 0.0
    ensures ApplyForceRule(k, b, m, Rest, 0.0, dt) == Rest
  {
    assert (0.0 - b * 0.0 - k * 0.0) / m == 0.0;
  }

  /** `AdmittanceControl`: `k`, `b` and `m` are set once; position and velocity change. */
  class AdmittanceControl {
    const k: real
    const b: real
    const m: real
    var position: real
    var velocity: real

    function State(): Kinematics
      reads this
    {
      Kinematics(position, velocity)
    }

    /** `__init__(desired_stiffness, desired_damping, mass)`: the system starts at rest. */
    constructor (desiredStiffness: real, desiredDamping: real, mass: real)
      ensures k == desiredStiffness && b == desiredDamping && m == mass
      ensures State() == Rest
    {
      k := desiredStiffness;
      b := desiredDamping;
      m := mass;
      position := 0.0;
      velocity := 0.0;
    }

    /** `__init__` with the default `mass=1.0`. */
    constructor WithUnitMass(desiredStiffness: real, desiredDamping: real)
      ensures k == desiredStiffness && b == desiredDamping && m == 1.0
      ensures State() == Rest
    {
      k := desiredStiffness;
      b := desiredDamping;
      m := 1.0;
      position := 0.0;
      velocity := 0.0;
    }

    /** `apply_force`: velocity first, then position; returns the new pair. */
    method ApplyForce(externalForce: real, dt: real) returns (newPosition: real, newVelocity: real)
      requires m != 0.0
      modifies this
      ensures State() == ApplyForceRule(k, b, m, old(State()), externalForce, dt)
      ensures newPosition == position && newVelocity == velocity
    {
      var acceleration := (externalForce - b * velocity - k * position) / m;
      velocity := velocity + acceleration * dt;
      position := position + velocity * dt;
      newPosition, newVelocity := position, velocity;
    }
  }
}
