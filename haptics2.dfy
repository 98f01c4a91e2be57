/**
 * The capstan tape drive of `Haptics/haptics2.py`: a capstan whose rpm gives
 * a linear speed, a tape clamped at its end, a motor whose power is clamped to
 * [0, 1], a speed sensor and a proportional speed controller.
 */
module Haptics2 {
  import opened Numerics

  /** Surface speed (m/s) of a capstan of diameter `diameter` (m) turning at `rpm`: circumference * rpm / 60. */
  function LinearSpeed(diameter: real, rpm: real): (r: real)
    ensures rpm == 0.0 ==> r == 0.0
    ensures diameter >= 0.0 && rpm >= 0.0 ==> r >= 0.0
    // one revolution per second moves the surface by one circumference
    ensures rpm == 60.0 ==> r == Pi * diameter
  {
    (Pi * diameter * rpm) / 60.0
  }

  /** `Capstan`: the diameter is fixed; the rpm is set from outside. */
  class Capstan {
    const diameter: real
    var rpm: real

    /** `__init__(diameter)`: the capstan starts at rest. */
    constructor (diameter: real)
      ensures this.diameter == diameter && rpm == 0.0
      ensures GetLinearSpeed() == 0.0
    {
      this.diameter := diameter;
      rpm := 0.0;
    }

    /** `get_linear_speed`. */
    function GetLinearSpeed(): (r: real)
      reads this
      ensures rpm == 0.0 ==> r == 0.0
      ensures diameter >= 0.0 && rpm >= 0.0 ==> r >= 0.0
    {
      LinearSpeed(diameter, rpm)
    }
  }

  /** `Tape.move` on values: advance by `delta`, stopping at the end of the tape; there is no stop at 0. */
  function TapeAdvance(length: real, position: real, delta: real): (r: real)
    ensures position + delta <= length ==> r == position + delta
    ensures position + delta > length ==> r == length
  {
    if position + delta > length then length else position + delta
  }

  /** A tape that starts on the tape and moves forward stays on it and never moves back. */
  lemma TapeAdvanceStaysOnTape(length: real, position: real, delta: real)
    requires 0.0 <= position <= length && delta >= 0.0
    ensures position <= TapeAdvance(length, position, delta) <= length
  {
  }

  /** There is no lower stop: moving backwards past 0 leaves the tape at a negative position. */
  lemma TapeHasNoLowerStop(length: real, position: real, delta: real)
    requires length >= 0.0 && position + delta < 0.0
    ensures TapeAdvance(length, position, delta) == position + delta < 0.0
  {
  }

  /** `Tape`: the length is fixed; the position changes with `move`. */
  class Tape {
    const length: real
    var position: real

    /** `__init__(length)`: the tape starts at position 0. */
    constructor (length: real)
      ensures this.length == length && position == 0.0
    {
      this.length := length;
      position := 0.0;
    }

    /** `move(speed, time)`: move by speed*time, then clamp at the end. */
    method Move(speed: real, time: real)
      modifies this
      ensures position == TapeAdvance(length, old(position), speed * time)
      ensures position <= length
    {
      position := position + speed * time;
      if position > length {
        position := length;
      }
    }
  }

  /** `max(0, min(power, 1))`. */
  function ClampPower(power: real): (r: real)
    ensures 0.0 <= r <= 1.0
    ensures 0.0 <= power <= 1.0 ==> r == power
    ensures power < 0.0 ==> r == 0.0
    ensures power > 1.0 ==> r == 1.0
  {
    Max(0.0, Min(power, 1.0))
  }

  /** Clamping twice is clamping once. */
  lemma ClampPowerIdempotent(power: real)
    ensures ClampPower(ClampPower(power)) == ClampPower(power)
  {
  }

  /** Clamping preserves order. */
  lemma ClampPowerMonotone(p: real, q: real)
    requires p <= q
    ensures ClampPower(p) <= ClampPower(q)
  {
  }

  /** `get_torque` on values: the power fraction of the maximum torque. */
  function Torque(power: real, maxTorque: real): (r: real)
    ensures 0.0 <= power <= 1.0 && maxTorque >= 0.0 ==> 0.0 <= r <= maxTorque
    ensures power == 0.0 ==> r == 0.0
    ensures power == 1.0 ==> r == maxTorque
  {
    PowerFractionBounds(power, maxTorque);
    power * maxTorque
  }

  lemma PowerFractionBounds(power: real, maxTorque: real)
    ensures 0.0 <= power <= 1.0 && maxTorque >= 0.0 ==> 0.0 <= power * maxTorque <= maxTorque
  {
    if 0.0 <= power <= 1.0 && maxTorque >= 0.0 {
      assert (1.0 - power) * maxTorque >= 0.0;
    }
  }

  /** `Motor`: the maximum torque is fixed; the power is kept in [0, 1]. */
  class Motor {
    const maxTorque: real
    var power: real

    predicate Valid()
      reads this
    {
      0.0 <= power <= 1.0
    }

    /** `__init__(max_torque)`: the motor starts unpowered. */
    constructor (maxTorque: real)
      ensures this.maxTorque == maxTorque && power == 0.0
      ensures Valid()
    {
      this.maxTorque := maxTorque;
      power := 0.0;
    }

    /** `set_power(power)`: store the clamped power. */
    method SetPower(power: real)
      modifies this
      ensures this.power == ClampPower(power)
      ensures Valid()
    {
      this.power := ClampPower(power);
    }

    /** `get_torque`. */
    function GetTorque(): (r: real)
      reads this
      ensures Valid() && maxTorque >= 0.0 ==> 0.0 <= r <= maxTorque
      ensures power == 0.0 ==> r == 0.0
    {
      Torque(power, maxTorque)
    }
  }

  /** `Sensor`: the last measured speed. */
  class Sensor {
    var speed: real

    /** `__init__`: nothing measured yet. */
    constructor ()
      ensures speed == 0.0
    {
      speed := 0.0;
    }

    /** `measure_speed(capstan)`: read the capstan's present linear speed. */
    method MeasureSpeed(capstan: Capstan)
      modifies this
      ensures speed == capstan.GetLinearSpeed()
    {
      speed := capstan.GetLinearSpeed();
    }
  }

  /** The proportional gain of `adjust_motor`. */
  const AdjustGain: real := 0.1

  /** The power `adjust_motor` sets: the old power plus 0.1 times the speed error, clamped. */
  function AdjustedPower(power: real, targetSpeed: real, speed: real): (r: real)
    ensures 0.0 <= r <= 1.0
  {
    ClampPower(power + AdjustGain * (targetSpeed - speed))
  }

  /**
   * The adjustment moves the power towards the target: never down when the
   * tape is too slow, never up when it is too fast, and not at all on target.
   */
  lemma AdjustTowardsTarget(power: real, targetSpeed: real, speed: real)
    requires 0.0 <= power <= 1.0
    ensures speed <= targetSpeed ==> AdjustedPower(power, targetSpeed, speed) >= power
    ensures speed >= targetSpeed ==> AdjustedPower(power, targetSpeed, speed) <= power
    ensures speed == targetSpeed ==> AdjustedPower(power, targetSpeed, speed) == power
  {
  }

  /** `Controller`: the target speed is fixed; the last error is recorded. */
  class Controller {
    const targetSpeed: real
    var error: real

    /** `__init__(target_speed)`: no error yet. */
    constructor (targetSpeed: real)
      ensures this.targetSpeed == targetSpeed && error == 0.0
    {
      this.targetSpeed := targetSpeed;
      error := 0.0;
    }

    /** `adjust_motor(sensor, motor)`: record the speed error and nudge the motor power by 0.1 of it. */
    method AdjustMotor(sensor: Sensor, motor: Motor)
      modifies this, motor
      ensures error == targetSpeed - sensor.speed
      ensures motor.power == AdjustedPower(old(motor.power), targetSpeed, sensor.speed)
      ensures motor.Valid()
    {
      error := targetSpeed - sensor.speed;
      motor.SetPower(motor.power + AdjustGain * error);
    }
  }
}
