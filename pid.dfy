/**
 * The stand-alone regulator of `PID.py`: the unclamped PID law of `CP.py`,
 * computed term by term.
 */
module PID {
  import opened Control
  import CP

  /** The proportional, integral and derivative terms of one `compute`. */
  datatype Terms = Terms(p: real, i: real, d: real)

  /**
   * The three terms for state `s` and error `error`: the integral term uses the
   * integral after this step's increment, the derivative term the previous error.
   */
  function StepTerms(kp: real, ki: real, kd: real, s: PidState, error: real, dt: real): (t: Terms)
    requires dt != 0.0
    ensures t.p == kp * error
    ensures t.d * dt == kd * (error - s.prevError)
  {
    CP.DerivativeTimesStep(kd, error - s.prevError, dt);
    Terms(kp * error, ki * (s.integral + error * dt), kd * ((error - s.prevError) / dt))
  }

  /** Summing the terms gives the output that `CP.py`'s `compute` returns. */
  lemma TermsSumToUnclampedOutput(kp: real, ki: real, kd: real, s: PidState, error: real, dt: real)
    requires dt != 0.0
    ensures var t := StepTerms(kp, ki, kd, s, error, dt);
      t.p + t.i + t.d == CP.UnclampedStep(kp, ki, kd, s, error, dt).output
  {
  }

  /** `PIDController`: gains fixed; `prev_error` and `integral` change with every `compute`. */
  class PIDController {
    const kp: real
    const ki: real
    const kd: real
    var prevError: real
    var integral: real

    function State(): PidState
      reads this
    {
      PidState(integral, prevError)
    }

    /** `__init__(kp, ki, kd)`: no accumulated error yet. */
    constructor (kp: real, ki: real, kd: real)
      ensures this.kp == kp && this.ki == ki && this.kd == kd
      ensures State() == PidInitial
    {
      this.kp := kp;
      this.ki := ki;
      this.kd := kd;
      prevError := 0.0;
      integral := 0.0;
    }

    /**
     * `compute(setpoint, measured_value, dt)`: the new state and the output are
     * those of the unclamped update, so for a positive `dt` they are those of
     * `PIDController.update` without limits (`CP.UnclampedAgreesWithUpdate`).
     */
    method Compute(setpoint: real, measuredValue: real, dt: real) returns (output: real)
      requires dt != 0.0
      modifies this
      ensures var o := CP.UnclampedStep(kp, ki, kd, old(State()), setpoint - measuredValue, dt);
        State() == o.state && output == o.output
      ensures var t := StepTerms(kp, ki, kd, old(State()), setpoint - measuredValue, dt);
        output == t.p + t.i + t.d
    {
      var error := setpoint - measuredValue;
      var pTerm := kp * error;
      integral := integral + error * dt;
      var iTerm := ki * integral;
      var derivative := (error - prevError) / dt;
      var dTerm := kd * derivative;
      prevError := error;
      output := pTerm + iTerm + dTerm;
    }
  }
}
