/**
 * The control kernel of `interactive_haptics/control.py`: the fixed-step time
 * grid, the discrete PID regulator with anti-windup and output saturation, the
 * semi-implicit Euler admittance model, and the two fixed-step drivers.
 *
 * Python floats are modelled as `real`; a `ValueError` is a `Failure` carrying
 * one `ControlError` per message.
 */
module Control {
  import opened Wrappers
  import opened Numerics

  /** The `ValueError` conditions of the kernel, one per message. */
  datatype ControlError =
    | DurationNotPositive   // "duration must be > 0"
    | DtNotPositive         // "dt must be > 0"
    | MassNotPositive       // "mass must be > 0"
    | PlantMassNotPositive  // "plant_mass must be > 0"

  // ---------------------------------------------------------------------------
  // Time grid
  // ---------------------------------------------------------------------------

  /** `np.linspace(start, stop, num)`: `num` evenly spaced samples, both ends included. */
  function Linspace(start: real, stop: real, num: nat): (r: seq<real>)
    ensures |r| == num
    ensures num >= 1 ==> r[0] == start
    ensures num >= 2 ==> r[num - 1] == stop
  {
    if num == 1 then [start]
    else
      var r := seq(num, i => start + (i as real) * (stop - start) / ((num - 1) as real));
      assert num >= 2 ==> r[num - 1] == start + ((num - 1) as real) * (stop - start) / ((num - 1) as real);
      r
  }

  /** `int(duration / dt)`: truncation of a positive quotient, so the largest n with n*dt <= duration. */
  function StepCount(duration: real, dt: real): (n: nat)
    requires duration > 0.0 && dt > 0.0
    ensures (n as real) * dt <= duration < ((n + 1) as real) * dt
  {
    var q := FloorDiv(duration, dt);
    assert ((q + 1) as real) * dt == (q as real) * dt + dt;
    q
  }

  /** `_build_time_vector`: the grid 0, dt, ..., steps*dt with steps = int(duration/dt). */
  function BuildTimeVector(duration: real, dt: real): (r: Result<seq<real>, ControlError>)
    ensures duration <= 0.0 ==> r == Failure(DurationNotPositive)
    ensures duration > 0.0 && dt <= 0.0 ==> r == Failure(DtNotPositive)
    ensures r.Success? <==> duration > 0.0 && dt > 0.0
    ensures r.Success? ==> |r.value| == StepCount(duration, dt) + 1
  {
    if duration <= 0.0 then Failure(DurationNotPositive)
    else if dt <= 0.0 then Failure(DtNotPositive)
    else
      var steps := StepCount(duration, dt);
      Success(Linspace(0.0, (steps as real) * dt, steps + 1))
  }

  /** Entry i of the grid is exactly i*dt: it starts at 0, ends at steps*dt and never passes `duration`. */
  lemma TimeVectorEntries(duration: real, dt: real)
    requires duration > 0.0 && dt > 0.0
    ensures var t := BuildTimeVector(duration, dt).value;
      && (forall i :: 0 <= i < |t| ==> t[i] == (i as real) * dt)
      && t[0] == 0.0
      && t[|t| - 1] == (StepCount(duration, dt) as real) * dt <= duration
  {
    var steps := StepCount(duration, dt);
    var t := BuildTimeVector(duration, dt).value;
    forall i | 0 <= i < |t|
      ensures t[i] == (i as real) * dt
    {
      if steps > 0 {
        var s := steps as real;
        assert t[i] == 0.0 + (i as real) * (s * dt - 0.0) / s;
        assert (i as real) * (s * dt) / s == (i as real) * dt;
      }
    }
  }

  // ---------------------------------------------------------------------------
  // PID regulator
  // ---------------------------------------------------------------------------

  /** The fixed part of a regulator: gains and the two optional clamp magnitudes. */
  datatype PidConfig = PidConfig(kp: real, ki: real, kd: real, integralLimit: Option<real>, outputLimit: Option<real>)

  /** The mutable part of a regulator: `_integral` and `_prev_error`. */
  datatype PidState = PidState(integral: real, prevError: real)

  /** What one `update` leaves behind: the new state and the returned output. */
  datatype PidOutcome = PidOutcome(state: PidState, output: real)

  /** The state set by `__post_init__` and by `reset`. */
  const PidInitial: PidState := PidState(0.0, 0.0)

  /** An optional symmetric clamp `np.clip(x, -abs(limit), abs(limit))`; absent means no clamp. */
  function Saturate(x: real, limit: Option<real>): (r: real)
    ensures limit.None? ==> r == x
    ensures limit.Some? ==> Abs(r) <= Abs(limit.value)
    ensures limit.Some? && Abs(x) <= Abs(limit.value) ==> r == x
    // as `np.clip` does, an out-of-range value lands exactly on the nearer bound
    ensures limit.Some? && x > Abs(limit.value) ==> r == Abs(limit.value)
    ensures limit.Some? && x < -Abs(limit.value) ==> r == -Abs(limit.value)
  {
    match limit
    case None => x
    case Some(l) => Clip(x, -Abs(l), Abs(l))
  }

  /** The unclamped PID sum kp*e + ki*I + kd*d. */
  function PidLaw(kp: real, ki: real, kd: real, error: real, integral: real, derivative: real): real {
    kp * error + ki * integral + kd * derivative
  }

  /** The body of `update` after the `dt` check, for the error e = setpoint - measurement. */
  function PidAdvance(c: PidConfig, s: PidState, error: real, dt: real): (o: PidOutcome)
    requires dt > 0.0
    // the previous error is always recorded, whether or not a clamp fired
    ensures o.state.prevError == error
    // anti-windup: the stored integral stays within |integral_limit|
    ensures c.integralLimit.Some? ==> Abs(o.state.integral) <= Abs(c.integralLimit.value)
    // saturation: the output stays within |output_limit|
    ensures c.outputLimit.Some? ==> Abs(o.output) <= Abs(c.outputLimit.value)
  {
    var integral := Saturate(s.integral + error * dt, c.integralLimit);
    var derivative := (error - s.prevError) / dt;
    PidOutcome(PidState(integral, error), Saturate(PidLaw(c.kp, c.ki, c.kd, error, integral, derivative), c.outputLimit))
  }

  /** One `PIDController.update(setpoint, measurement, dt)` from state `s`. */
  function PidStep(c: PidConfig, s: PidState, setpoint: real, measurement: real, dt: real): (r: Result<PidOutcome, ControlError>)
    ensures r.Failure? <==> dt <= 0.0
    ensures r.Failure? ==> r.error == DtNotPositive
    ensures r.Success? ==> r.value.state.prevError == setpoint - measurement
    ensures r.Success? && c.integralLimit.Some? ==> Abs(r.value.state.integral) <= Abs(c.integralLimit.value)
    ensures r.Success? && c.outputLimit.Some? ==> Abs(r.value.output) <= Abs(c.outputLimit.value)
  {
    if dt <= 0.0 then Failure(DtNotPositive)
    else Success(PidAdvance(c, s, setpoint - measurement, dt))
  }

  /**
   * With no integral clamp the integral grows by exactly error*dt; with neither
   * clamp the output is the textbook PID law, the derivative taken against the
   * previous error.
   */
  lemma UnclampedPidLaw(c: PidConfig, s: PidState, setpoint: real, measurement: real, dt: real)
    requires dt > 0.0
    ensures var o := PidStep(c, s, setpoint, measurement, dt).value;
      var e := setpoint - measurement;
      && (c.integralLimit.None? ==> o.state.integral == s.integral + e * dt)
      && (c.integralLimit.None? && c.outputLimit.None? ==>
            o.output == c.kp * e + c.ki * (s.integral + e * dt) + c.kd * (e - s.prevError) / dt)
  {
  }

  /**
   * The output is formed from the integral as stored after its clamp, not from
   * the raw sum, and the output clamp puts an out-of-range output exactly on the
   * nearer bound.
   */
  lemma OutputFromClampedIntegral(c: PidConfig, s: PidState, setpoint: real, measurement: real, dt: real)
    requires dt > 0.0
    ensures var o := PidStep(c, s, setpoint, measurement, dt).value;
      var e := setpoint - measurement;
      var raw := c.kp * e + c.ki * o.state.integral + c.kd * ((e - s.prevError) / dt);
      && (c.outputLimit.None? ==> o.output == raw)
      && (c.outputLimit.Some? && Abs(raw) <= Abs(c.outputLimit.value) ==> o.output == raw)
      && (c.outputLimit.Some? && raw > Abs(c.outputLimit.value) ==> o.output == Abs(c.outputLimit.value))
      && (c.outputLimit.Some? && raw < -Abs(c.outputLimit.value) ==> o.output == -Abs(c.outputLimit.value))
  {
  }

  /** The clamp on the integral fires only on windup: a clamped integral sits exactly at the limit. */
  lemma IntegralClampOnlyOnWindup(c: PidConfig, s: PidState, setpoint: real, measurement: real, dt: real)
    requires dt > 0.0 && c.integralLimit.Some?
    ensures var raw := s.integral + (setpoint - measurement) * dt;
      var i := PidStep(c, s, setpoint, measurement, dt).value.state.integral;
      && (Abs(raw) <= Abs(c.integralLimit.value) ==> i == raw)
      && (raw > Abs(c.integralLimit.value) ==> i == Abs(c.integralLimit.value))
      && (raw < -Abs(c.integralLimit.value) ==> i == -Abs(c.integralLimit.value))
  {
  }

  /** A `PIDController`: gains and limits fixed at construction, integral and previous error mutable. */
  class PIDController {
    const kp: real
    const ki: real
    const kd: real
    const integralLimit: Option<real>
    const outputLimit: Option<real>
    var integral: real
    var prevError: real

    function Config(): PidConfig {
      PidConfig(kp, ki, kd, integralLimit, outputLimit)
    }

    function State(): PidState
      reads this
    {
      PidState(integral, prevError)
    }

    /** The dataclass constructor followed by `__post_init__`. */
    constructor (kp: real, ki: real, kd: real, integralLimit: Option<real>, outputLimit: Option<real>)
      ensures Config() == PidConfig(kp, ki, kd, integralLimit, outputLimit)
      ensures State() == PidInitial
    {
      this.kp := kp;
      this.ki := ki;
      this.kd := kd;
      this.integralLimit := integralLimit;
      this.outputLimit := outputLimit;
      integral := 0.0;
      prevError := 0.0;
    }

    /** `reset`: zero the integral and the previous error; gains and limits are constants. */
    method Reset()
      modifies this
      ensures State() == PidInitial
    {
      integral := 0.0;
      prevError := 0.0;
    }

    /** `update`: a failure leaves the state as it was; otherwise the state advances as `PidStep` says. */
    method Update(setpoint: real, measurement: real, dt: real) returns (r: Result<real, ControlError>)
      modifies this
      ensures dt <= 0.0 ==> r == Failure(DtNotPositive) && State() == old(State())
      ensures dt > 0.0 ==> r.Success?
      ensures var step := PidStep(Config(), old(State()), setpoint, measurement, dt);
        step.Success? ==> r == Success(step.value.output) && State() == step.value.state
    {
      if dt <= 0.0 {
        return Failure(DtNotPositive);
      }
      var error := setpoint - measurement;
      ghost var expected := PidAdvance(Config(), State(), error, dt);
      assert PidStep(Config(), State(), setpoint, measurement, dt) == Success(expected);
      // `Saturate` is the `if limit is not None: np.clip(...)` guard of the source
      integral := Saturate(integral + error * dt, integralLimit);
      var derivative := (error - prevError) / dt;
      var output := Saturate(PidLaw(kp, ki, kd, error, integral, derivative), outputLimit);
      assert expected == PidOutcome(PidState(integral, error), output);
      prevError := error;
      r := Success(output);
    }
  }

  /** One call of `update` with its arguments. */
  datatype PidInput = PidInput(setpoint: real, measurement: real, dt: real)

  /** What one `update` call answers from state `s`: its output, or the error it raises. */
  function UpdateAnswer(c: PidConfig, s: PidState, input: PidInput): (r: Result<real, ControlError>)
    ensures r.Failure? <==> input.dt <= 0.0
    ensures r.Failure? ==> r.error == DtNotPositive
    ensures r.Success? && c.outputLimit.Some? ==> Abs(r.value) <= Abs(c.outputLimit.value)
  {
    var step := PidStep(c, s, input.setpoint, input.measurement, input.dt);
    if step.Failure? then Failure(step.error) else Success(step.value.output)
  }

  /** The state one `update` call leaves behind; a call that raises leaves the state as it was. */
  function UpdateState(c: PidConfig, s: PidState, input: PidInput): (r: PidState)
    ensures input.dt <= 0.0 ==> r == s
    ensures input.dt > 0.0 ==> r.prevError == input.setpoint - input.measurement
  {
    var step := PidStep(c, s, input.setpoint, input.measurement, input.dt);
    if step.Failure? then s else step.value.state
  }

  /** The state after a sequence of `update` calls from `s`. */
  function StateAfter(c: PidConfig, s: PidState, inputs: seq<PidInput>): PidState
  {
    if |inputs| == 0 then s
    else UpdateState(c, StateAfter(c, s, inputs[..|inputs| - 1]), inputs[|inputs| - 1])
  }

  /** The answers to a sequence of `update` calls from `s`, one per call. */
  function Replay(c: PidConfig, s: PidState, inputs: seq<PidInput>): (r: seq<Result<real, ControlError>>)
    ensures |r| == |inputs|
  {
    if |inputs| == 0 then []
    else
      var earlier := inputs[..|inputs| - 1];
      Replay(c, s, earlier) + [UpdateAnswer(c, StateAfter(c, s, earlier), inputs[|inputs| - 1])]
  }

  /** Answer i of a replay is call i made in the state the first i calls left behind. */
  lemma {:induction false} ReplayAt(c: PidConfig, s: PidState, inputs: seq<PidInput>, i: nat)
    requires i < |inputs|
    ensures Replay(c, s, inputs)[i] == UpdateAnswer(c, StateAfter(c, s, inputs[..i]), inputs[i])
  {
    var n := |inputs|;
    if i < n - 1 {
      ReplayAt(c, s, inputs[..n - 1], i);
      assert inputs[..n - 1][..i] == inputs[..i];
    } else {
      assert inputs[..n - 1] == inputs[..i];
    }
  }

  /**
   * After `reset`, a regulator answers any input sequence exactly as a freshly
   * constructed regulator with the same gains and limits does: both give the
   * answers of `Replay` from the initial state.
   */
  method ReplayAfterReset(c: PIDController, inputs: seq<PidInput>)
    returns (afterReset: seq<Result<real, ControlError>>, fromFresh: seq<Result<real, ControlError>>)
    modifies c
    ensures afterReset == Replay(c.Config(), PidInitial, inputs)
    ensures fromFresh == Replay(c.Config(), PidInitial, inputs)
    ensures c.State() == StateAfter(c.Config(), PidInitial, inputs)
  {
    c.Reset();
    var f := new PIDController(c.kp, c.ki, c.kd, c.integralLimit, c.outputLimit);
    afterReset, fromFresh := [], [];
    for k := 0 to |inputs|
      invariant c.State() == StateAfter(c.Config(), PidInitial, inputs[..k])
      invariant f.State() == c.State()
      invariant afterReset == Replay(c.Config(), PidInitial, inputs[..k])
      invariant fromFresh == afterReset
    {
      assert inputs[..k + 1][..k] == inputs[..k];
      var a := c.Update(inputs[k].setpoint, inputs[k].measurement, inputs[k].dt);
      var b := f.Update(inputs[k].setpoint, inputs[k].measurement, inputs[k].dt);
      afterReset, fromFresh := afterReset + [a], fromFresh + [b];
    }
    assert inputs[..|inputs|] == inputs;
  }

  // ---------------------------------------------------------------------------
  // Admittance model
  // ---------------------------------------------------------------------------

  /** Virtual stiffness (N/m), damping (Ns/m) and mass (kg). */
  datatype AdmittanceParams = AdmittanceParams(stiffness: real, damping: real, mass: real)

  /** A position and a velocity. */
  datatype Kinematics = Kinematics(position: real, velocity: real)

  /** The origin at rest. */
  const Rest: Kinematics := Kinematics(0.0, 0.0)

  /** The semi-implicit Euler step of the mass-damper-spring `m*a = F - b*v - k*x`. */
  function PlantStep(p: AdmittanceParams, s: Kinematics, force: real, dt: real): (r: Kinematics)
    requires p.mass > 0.0
    // the position advances with the velocity computed in the same step
    ensures r.position == s.position + r.velocity * dt
  {
    var acceleration := (force - p.damping * s.velocity - p.stiffness * s.position) / p.mass;
    var velocity := s.velocity + acceleration * dt;
    var position := s.position + velocity * dt;
    Kinematics(position, velocity)
  }

  /** Multiplying the acceleration net/m back by the mass recovers the net force. */
  lemma MassTimesAcceleration(m: real, net: real, dt: real)
    requires m != 0.0
    ensures m * ((net / m) * dt) == net * dt
  {
    assert m * (net / m) == net;
  }

  /** `AdmittanceController.step` on values: the parameter checks, then one `PlantStep`. */
  function AdmittanceStep(p: AdmittanceParams, s: Kinematics, force: real, dt: real): (r: Result<Kinematics, ControlError>)
    ensures dt <= 0.0 ==> r == Failure(DtNotPositive)
    ensures dt > 0.0 && p.mass <= 0.0 ==> r == Failure(MassNotPositive)
    ensures r.Success? <==> dt > 0.0 && p.mass > 0.0
    // semi-implicit Euler: the position advances with the velocity already updated
    ensures r.Success? ==> r.value.position == s.position + r.value.velocity * dt
  {
    if dt <= 0.0 then Failure(DtNotPositive)
    else if p.mass <= 0.0 then Failure(MassNotPositive)
    else Success(PlantStep(p, s, force, dt))
  }

  /**
   * The step is the unique solution of the discrete dynamics
   * m*(v' - v) = (F - b*v - k*x)*dt and x' - x = v'*dt.
   */
  lemma AdmittanceStepSolvesDynamics(p: AdmittanceParams, s: Kinematics, force: real, dt: real, next: Kinematics)
    requires dt > 0.0 && p.mass > 0.0
    ensures AdmittanceStep(p, s, force, dt) == Success(next) <==>
      && p.mass * (next.velocity - s.velocity) == (force - p.damping * s.velocity - p.stiffness * s.position) * dt
      && next.position - s.position == next.velocity * dt
  {
    var net := force - p.damping * s.velocity - p.stiffness * s.position;
    var v := AdmittanceStep(p, s, force, dt).value.velocity;
    assert v == s.velocity + (net / p.mass) * dt;
    assert p.mass * (v - s.velocity) == net * dt;
    if p.mass * (next.velocity - s.velocity) == net * dt && next.position - s.position == next.velocity * dt {
      assert p.mass * (next.velocity - s.velocity) == p.mass * (v - s.velocity);
      MulCancelLeft(p.mass, next.velocity - s.velocity, v - s.velocity);
      assert next.velocity == v;
      assert next == AdmittanceStep(p, s, force, dt).value;
    }
  }

  lemma MulCancelLeft(m: real, x: real, y: real)
    requires m != 0.0 && m * x == m * y
    ensures x == y
  {
    assert m * (x - y) == 0.0;
  }

  /** With no force, the origin at rest is a fixed point of the step. */
  lemma RestIsEquilibrium(p: AdmittanceParams, dt: real)
    requires dt > 0.0 && p.mass > 0.0
    ensures AdmittanceStep(p, Rest, 0.0, dt) == Success(Rest)
  {
    assert (0.0 - p.damping * 0.0 - p.stiffness * 0.0) / p.mass == 0.0;
  }

  /** An `AdmittanceController`: parameters fixed, position and velocity mutable. */
  class AdmittanceController {
    const stiffness: real
    const damping: real
    const mass: real
    var position: real
    var velocity: real

    function Params(): AdmittanceParams {
      AdmittanceParams(stiffness, damping, mass)
    }

    function State(): Kinematics
      reads this
    {
      Kinematics(position, velocity)
    }

    /** The dataclass constructor; it does not check the mass (the step does). */
    constructor (stiffness: real, damping: real, mass: real, position: real, velocity: real)
      ensures Params() == AdmittanceParams(stiffness, damping, mass)
      ensures State() == Kinematics(position, velocity)
    {
      this.stiffness := stiffness;
      this.damping := damping;
      this.mass := mass;
      this.position := position;
      this.velocity := velocity;
    }

    /** `step`: a failure leaves the state as it was; otherwise it advances and returns the new pair. */
    method Step(externalForce: real, dt: real) returns (r: Result<(real, real), ControlError>)
      modifies this
      ensures var next := AdmittanceStep(Params(), old(State()), externalForce, dt);
        && (next.Failure? ==> r == Failure(next.error) && State() == old(State()))
        && (next.Success? ==> State() == next.value && r == Success((position, velocity)))
    {
      if dt <= 0.0 {
        return Failure(DtNotPositive);
      }
      if mass <= 0.0 {
        return Failure(MassNotPositive);
      }
      var acceleration := (externalForce - damping * velocity - stiffness * position) / mass;
      velocity := velocity + acceleration * dt;
      position := position + velocity * dt;
      r := Success((position, velocity));
    }
  }

  // ---------------------------------------------------------------------------
  // PID-versus-plant driver
  // ---------------------------------------------------------------------------

  /** The clamps `simulate_pid` gives its regulator. */
  const DriverIntegralLimit: real := 10.0
  const DriverOutputLimit: real := 120.0

  function DriverPidConfig(kp: real, ki: real, kd: real): PidConfig {
    PidConfig(kp, ki, kd, Some(DriverIntegralLimit), Some(DriverOutputLimit))
  }

  /** The closed loop between two samples: the regulator's state and the plant's x and v. */
  datatype LoopState = LoopState(pid: PidState, x: real, v: real)

  /** One loop iteration of `simulate_pid`: u from the regulator, then a semi-implicit plant step. */
  function LoopStep(c: PidConfig, plant: AdmittanceParams, target: real, dt: real, st: LoopState): (r: (LoopState, real))
    requires dt > 0.0 && plant.mass > 0.0
    ensures c.outputLimit.Some? ==> Abs(r.1) <= Abs(c.outputLimit.value)
    ensures c.integralLimit.Some? ==> Abs(r.0.pid.integral) <= Abs(c.integralLimit.value)
    ensures r.0.pid.prevError == target - st.x
    ensures r.0.x == st.x + r.0.v * dt
  {
    var o := PidStep(c, st.pid, target, st.x, dt).value;
    var k := PlantStep(plant, Kinematics(st.x, st.v), o.output, dt);
    (LoopState(o.state, k.position, k.velocity), o.output)
  }

  /** One regulator update followed by one plant step advances `LoopAfter` by one. */
  lemma LoopAdvance(c: PidConfig, plant: AdmittanceParams, target: real, dt: real, k: nat,
                    pid: PidState, x: real, v: real, pid': PidState, u: real)
    requires dt > 0.0 && plant.mass > 0.0
    requires LoopAfter(c, plant, target, dt, k) == LoopState(pid, x, v)
    requires PidStep(c, pid, target, x, dt) == Success(PidOutcome(pid', u))
    ensures var next := PlantStep(plant, Kinematics(x, v), u, dt);
      LoopAfter(c, plant, target, dt, k + 1) == LoopState(pid', next.position, next.velocity)
    ensures LoopStep(c, plant, target, dt, LoopAfter(c, plant, target, dt, k)).1 == u
  {
  }

  /** The closed loop after k iterations from a fresh regulator and the plant at rest. */
  function LoopAfter(c: PidConfig, plant: AdmittanceParams, target: real, dt: real, k: nat): (r: LoopState)
    requires dt > 0.0 && plant.mass > 0.0
    ensures k == 0 ==> r == LoopState(PidInitial, 0.0, 0.0)
    // anti-windup holds all along the run
    ensures c.integralLimit.Some? ==> Abs(r.pid.integral) <= Abs(c.integralLimit.value)
  {
    if k == 0 then LoopState(PidInitial, 0.0, 0.0)
    else LoopStep(c, plant, target, dt, LoopAfter(c, plant, target, dt, k - 1)).0
  }

  /** The first k iterations of the closed loop: each entry is the state after it and the effort it applied. */
  function LoopTrace(c: PidConfig, plant: AdmittanceParams, target: real, dt: real, k: nat): (t: seq<(LoopState, real)>)
    requires dt > 0.0 && plant.mass > 0.0
    ensures |t| == k
  {
    if k == 0 then []
    else LoopTrace(c, plant, target, dt, k - 1) + [LoopStep(c, plant, target, dt, LoopAfter(c, plant, target, dt, k - 1))]
  }

  lemma {:induction false} LoopTraceAt(c: PidConfig, plant: AdmittanceParams, target: real, dt: real, k: nat, i: nat)
    requires dt > 0.0 && plant.mass > 0.0 && i < k
    ensures LoopTrace(c, plant, target, dt, k)[i] == LoopStep(c, plant, target, dt, LoopAfter(c, plant, target, dt, i))
    ensures LoopTrace(c, plant, target, dt, k)[i].0 == LoopAfter(c, plant, target, dt, i + 1)
  {
    if i < k - 1 {
      LoopTraceAt(c, plant, target, dt, k - 1, i);
    }
  }

  /** The series `simulate_pid` returns, all indexed like the time grid. */
  datatype PidSimulation = PidSimulation(time: seq<real>, position: seq<real>, velocity: seq<real>,
                                         control: seq<real>, target: seq<real>)

  /** Writes sample `idx` of the PID run into the three output arrays, keeping the samples before it. */
  method RecordPidSample(position: array<real>, velocity: array<real>, control: array<real>, idx: nat,
                         x: real, v: real, u: real, ghost prefix: seq<(LoopState, real)>, ghost entry: (LoopState, real))
    requires position != velocity && velocity != control && position != control
    requires idx < position.Length && idx < velocity.Length && idx < control.Length
    requires |prefix| == idx && entry.0.x == x && entry.0.v == v && entry.1 == u
    requires forall i :: 0 <= i < idx ==> position[i] == prefix[i].0.x
    requires forall i :: 0 <= i < idx ==> velocity[i] == prefix[i].0.v
    requires forall i :: 0 <= i < idx ==> control[i] == prefix[i].1
    modifies position, velocity, control
    ensures forall i :: 0 <= i <= idx ==> position[i] == (prefix + [entry])[i].0.x
    ensures forall i :: 0 <= i <= idx ==> velocity[i] == (prefix + [entry])[i].0.v
    ensures forall i :: 0 <= i <= idx ==> control[i] == (prefix + [entry])[i].1
  {
    position[idx] := x;
    velocity[idx] := v;
    control[idx] := u;
  }

  /** One pass of the body of the `simulate_pid` loop: the regulator's update, then the plant step. */
  method PidLoopBody(pid: PIDController, ghost c: PidConfig, plant: AdmittanceParams, target: real, dt: real,
                     x: real, v: real, ghost k: nat)
    returns (x': real, v': real, u: real)
    requires dt > 0.0 && plant.mass > 0.0 && pid.Config() == c
    requires LoopState(pid.State(), x, v) == LoopAfter(c, plant, target, dt, k)
    modifies pid
    ensures LoopState(pid.State(), x', v') == LoopAfter(c, plant, target, dt, k + 1)
    ensures var step := LoopStep(c, plant, target, dt, LoopAfter(c, plant, target, dt, k));
      step.0.x == x' && step.0.v == v' && step.1 == u
  {
    ghost var before := pid.State();
    var res := pid.Update(target, x, dt);
    u := res.value;
    LoopAdvance(c, plant, target, dt, k, before, x, v, pid.State(), u);
    // a = (u - b*v - k*x)/m; v += a*dt; x += v*dt
    var next := PlantStep(plant, Kinematics(x, v), u, dt);
    x', v' := next.position, next.velocity;
  }

  /** The loop of `simulate_pid`: n iterations of the driver's regulator against the plant, recorded in fresh arrays. */
  method RunPidLoop(kp: real, ki: real, kd: real, target: real, dt: real, plant: AdmittanceParams, n: nat)
    returns (position: array<real>, velocity: array<real>, control: array<real>)
    requires dt > 0.0 && plant.mass > 0.0
    ensures fresh(position) && fresh(velocity) && fresh(control)
    ensures position.Length == n && velocity.Length == n && control.Length == n
    ensures forall i :: 0 <= i < n ==>
      var entry := LoopTrace(DriverPidConfig(kp, ki, kd), plant, target, dt, n)[i];
      position[i] == entry.0.x && velocity[i] == entry.0.v && control[i] == entry.1
  {
    var c := DriverPidConfig(kp, ki, kd);
    var pid := new PIDController(kp, ki, kd, Some(DriverIntegralLimit), Some(DriverOutputLimit));
    position := new real[n](_ => 0.0);
    velocity := new real[n](_ => 0.0);
    control := new real[n](_ => 0.0);
    var x, v := 0.0, 0.0;
    ghost var trace := [];
    for idx := 0 to n
      invariant pid.Config() == c
      invariant LoopState(pid.State(), x, v) == LoopAfter(c, plant, target, dt, idx)
      invariant trace == LoopTrace(c, plant, target, dt, idx)
      invariant forall i :: 0 <= i < idx ==> position[i] == trace[i].0.x
      invariant forall i :: 0 <= i < idx ==> velocity[i] == trace[i].0.v
      invariant forall i :: 0 <= i < idx ==> control[i] == trace[i].1
    {
      var u;
      x, v, u := PidLoopBody(pid, c, plant, target, dt, x, v, idx);
      ghost var entry := LoopStep(c, plant, target, dt, LoopAfter(c, plant, target, dt, idx));
      RecordPidSample(position, velocity, control, idx, x, v, u, trace, entry);
      trace := trace + [entry];
    }
  }

  /** `simulate_pid`: run the regulator against a mass-damper-spring plant on the time grid. */
  method SimulatePid(kp: real, ki: real, kd: real, target: real, duration: real, dt: real,
                     plantMass: real, plantDamping: real, plantStiffness: real)
    returns (r: Result<PidSimulation, ControlError>)
    ensures plantMass <= 0.0 ==> r == Failure(PlantMassNotPositive)
    ensures plantMass > 0.0 && BuildTimeVector(duration, dt).Failure? ==>
      r == Failure(BuildTimeVector(duration, dt).error)
    ensures r.Success? <==> plantMass > 0.0 && duration > 0.0 && dt > 0.0
    ensures r.Success? ==>
      var sim := r.value;
      var n := |sim.time|;
      && sim.time == BuildTimeVector(duration, dt).value
      && |sim.position| == n && |sim.velocity| == n && |sim.control| == n && |sim.target| == n
      && (forall i :: 0 <= i < n ==> sim.target[i] == target)
      && (forall i :: 0 <= i < n ==> -DriverOutputLimit <= sim.control[i] <= DriverOutputLimit)
    ensures r.Success? ==>
      var sim := r.value;
      var c := DriverPidConfig(kp, ki, kd);
      var plant := AdmittanceParams(plantStiffness, plantDamping, plantMass);
      forall i :: 0 <= i < |sim.time| ==>
        && sim.position[i] == LoopAfter(c, plant, target, dt, i + 1).x
        && sim.velocity[i] == LoopAfter(c, plant, target, dt, i + 1).v
        && sim.control[i] == LoopStep(c, plant, target, dt, LoopAfter(c, plant, target, dt, i)).1
  {
    if plantMass <= 0.0 {
      return Failure(PlantMassNotPositive);
    }
    var grid := BuildTimeVector(duration, dt);
    if grid.Failure? {
      return Failure(grid.error);
    }
    var time := grid.value;
    var c := DriverPidConfig(kp, ki, kd);
    var plant := AdmittanceParams(plantStiffness, plantDamping, plantMass);
    var n := |time|;
    var position, velocity, control := RunPidLoop(kp, ki, kd, target, dt, plant, n);
    var targetVector := seq(n, _ => target);
    r := Success(PidSimulation(time, position[..], velocity[..], control[..], targetVector));
    forall i | 0 <= i < n
      ensures r.value.position[i] == LoopAfter(c, plant, target, dt, i + 1).x
      ensures r.value.velocity[i] == LoopAfter(c, plant, target, dt, i + 1).v
      ensures r.value.control[i] == LoopStep(c, plant, target, dt, LoopAfter(c, plant, target, dt, i)).1
      ensures -DriverOutputLimit <= r.value.control[i] <= DriverOutputLimit
    {
      LoopTraceAt(c, plant, target, dt, n, i);
      var u := LoopStep(c, plant, target, dt, LoopAfter(c, plant, target, dt, i)).1;
      assert Abs(u) <= Abs(DriverOutputLimit);
    }
  }

  // ---------------------------------------------------------------------------
  // Admittance driver
  // ---------------------------------------------------------------------------

  /** `force_amplitude * np.sin(2π f t)`, with the sine supplied by the caller. */
  function ExternalForce(amplitude: real, frequency: real, sine: real -> real, t: real): (f: real)
    ensures amplitude == 0.0 ==> f == 0.0
    // a sine value in [-1, 1] keeps the force within the amplitude
    ensures -1.0 <= sine(2.0 * Pi * frequency * t) <= 1.0 ==> Abs(f) <= Abs(amplitude)
  {
    ScaledByUnitBounded(amplitude, sine(2.0 * Pi * frequency * t));
    amplitude * sine(2.0 * Pi * frequency * t)
  }

  lemma ScaledByUnitBounded(a: real, y: real)
    ensures -1.0 <= y <= 1.0 ==> Abs(a * y) <= Abs(a)
  {
    if -1.0 <= y <= 1.0 {
      var m := Abs(a);
      // |a*y| = |a|*|y| and |y| <= 1
      assert Abs(a * y) == m * Abs(y);
      NonNegativeProduct(m, 1.0 - Abs(y));
      assert m * (1.0 - Abs(y)) == m - m * Abs(y);
    }
  }

  lemma NonNegativeProduct(x: real, y: real)
    requires x >= 0.0 && y >= 0.0
    ensures x * y >= 0.0
  {
  }

  /** The force applied at every sample of a time grid. */
  function ForceSeries(amplitude: real, frequency: real, sine: real -> real, time: seq<real>): (f: seq<real>)
    ensures |f| == |time|
  {
    if |time| == 0 then []
    else ForceSeries(amplitude, frequency, sine, time[..|time| - 1]) + [ExternalForce(amplitude, frequency, sine, time[|time| - 1])]
  }

  /** Entry i of the series is the force at sample time[i]; with zero amplitude every entry is zero. */
  lemma {:induction false} ForceSeriesAt(amplitude: real, frequency: real, sine: real -> real, time: seq<real>, i: nat)
    requires i < |time|
    ensures ForceSeries(amplitude, frequency, sine, time)[i] == ExternalForce(amplitude, frequency, sine, time[i])
    ensures amplitude == 0.0 ==> ForceSeries(amplitude, frequency, sine, time)[i] == 0.0
  {
    if i < |time| - 1 {
      ForceSeriesAt(amplitude, frequency, sine, time[..|time| - 1], i);
    }
  }

  /** The admittance state after the first k forces, from rest. */
  function AdmittanceAfter(p: AdmittanceParams, forces: seq<real>, dt: real, k: nat): Kinematics
    requires dt > 0.0 && p.mass > 0.0 && k <= |forces|
  {
    if k == 0 then Rest
    else AdmittanceStep(p, AdmittanceAfter(p, forces, dt, k - 1), forces[k - 1], dt).value
  }

  /** The states after each of the first k forces: entry i is the state after force i. */
  function AdmittanceTrace(p: AdmittanceParams, forces: seq<real>, dt: real, k: nat): (t: seq<Kinematics>)
    requires dt > 0.0 && p.mass > 0.0 && k <= |forces|
    ensures |t| == k
  {
    if k == 0 then [] else AdmittanceTrace(p, forces, dt, k - 1) + [AdmittanceAfter(p, forces, dt, k)]
  }

  lemma {:induction false} AdmittanceTraceAt(p: AdmittanceParams, forces: seq<real>, dt: real, k: nat, i: nat)
    requires dt > 0.0 && p.mass > 0.0 && i < k <= |forces|
    ensures AdmittanceTrace(p, forces, dt, k)[i] == AdmittanceAfter(p, forces, dt, i + 1)
  {
    if i < k - 1 {
      AdmittanceTraceAt(p, forces, dt, k - 1, i);
    }
  }

  /** Zero force from rest keeps the state exactly at rest, however many steps are taken. */
  lemma {:induction false} ZeroForceStaysAtRest(p: AdmittanceParams, forces: seq<real>, dt: real, k: nat)
    requires dt > 0.0 && p.mass > 0.0 && k <= |forces|
    requires forall i :: 0 <= i < |forces| ==> forces[i] == 0.0
    ensures AdmittanceAfter(p, forces, dt, k) == Rest
  {
    if k > 0 {
      ZeroForceStaysAtRest(p, forces, dt, k - 1);
      RestIsEquilibrium(p, dt);
    }
  }

  /** The series `simulate_admittance` returns, all indexed like the time grid. */
  datatype AdmittanceSimulation = AdmittanceSimulation(time: seq<real>, position: seq<real>,
                                                       velocity: seq<real>, force: seq<real>)

  /** One pass of the body of the `simulate_admittance` loop: one controller step under force `f`. */
  method AdmittanceLoopBody(controller: AdmittanceController, ghost p: AdmittanceParams, ghost forces: seq<real>,
                            f: real, dt: real, ghost k: nat)
    returns (res: Result<(real, real), ControlError>)
    requires dt > 0.0 && controller.Params() == p && k < |forces| && forces[k] == f
    requires p.mass > 0.0 ==> controller.State() == AdmittanceAfter(p, forces, dt, k)
    modifies controller
    ensures res.Failure? <==> p.mass <= 0.0
    ensures res.Failure? ==> res.error == MassNotPositive
    ensures p.mass > 0.0 ==>
      var next := AdmittanceAfter(p, forces, dt, k + 1);
      controller.State() == next && res.value.0 == next.position && res.value.1 == next.velocity
  {
    res := controller.Step(f, dt);
  }

  /** Writes sample `idx` of a run into the three output arrays, keeping the samples before it. */
  method RecordSample(position: array<real>, velocity: array<real>, force: array<real>, idx: nat,
                      pos: real, vel: real, f: real, ghost prefix: seq<Kinematics>, ghost entry: Kinematics,
                      ghost forces: seq<real>)
    requires position != velocity && velocity != force && position != force
    requires idx < position.Length && idx < velocity.Length && idx < force.Length
    requires |prefix| == idx && entry.position == pos && entry.velocity == vel
    requires idx < |forces| && forces[idx] == f
    requires forall i :: 0 <= i < idx ==> force[i] == forces[i]
    requires forall i :: 0 <= i < idx ==> position[i] == prefix[i].position
    requires forall i :: 0 <= i < idx ==> velocity[i] == prefix[i].velocity
    modifies position, velocity, force
    ensures forall i :: 0 <= i <= idx ==> force[i] == forces[i]
    ensures forall i :: 0 <= i <= idx ==> position[i] == (prefix + [entry])[i].position
    ensures forall i :: 0 <= i <= idx ==> velocity[i] == (prefix + [entry])[i].velocity
  {
    position[idx] := pos;
    velocity[idx] := vel;
    force[idx] := f;
  }

  /**
   * The loop of `simulate_admittance`: a fresh controller at rest takes one step per sample of the
   * grid under that sample's force, recorded in fresh arrays; a failing step ends the run.
   */
  method RunAdmittanceLoop(stiffness: real, damping: real, mass: real, forceAmplitude: real,
                           forceFrequencyHz: real, time: seq<real>, dt: real, sine: real -> real)
    returns (r: Result<(array<real>, array<real>, array<real>), ControlError>)
    requires dt > 0.0 && |time| > 0
    ensures r.Failure? <==> mass <= 0.0
    ensures r.Failure? ==> r.error == MassNotPositive
    ensures r.Success? ==>
      var forces := ForceSeries(forceAmplitude, forceFrequencyHz, sine, time);
      var trace := AdmittanceTrace(AdmittanceParams(stiffness, damping, mass), forces, dt, |time|);
      && fresh(r.value.0) && fresh(r.value.1) && fresh(r.value.2)
      && r.value.0.Length == |time| && r.value.1.Length == |time| && r.value.2[..] == forces
      && (forall i :: 0 <= i < |time| ==> r.value.0[i] == trace[i].position && r.value.1[i] == trace[i].velocity)
  {
    var p := AdmittanceParams(stiffness, damping, mass);
    ghost var forces := ForceSeries(forceAmplitude, forceFrequencyHz, sine, time);
    var n := |time|;
    var position := new real[n](_ => 0.0);
    var velocity := new real[n](_ => 0.0);
    var force := new real[n](_ => 0.0);
    var controller := new AdmittanceController(stiffness, damping, mass, 0.0, 0.0);
    ghost var trace := [];
    for idx := 0 to n
      invariant controller.Params() == p
      invariant mass <= 0.0 ==> idx == 0
      invariant mass > 0.0 ==> controller.State() == AdmittanceAfter(p, forces, dt, idx)
      invariant mass > 0.0 ==> trace == AdmittanceTrace(p, forces, dt, idx)
      invariant forall i :: 0 <= i < idx ==> force[i] == forces[i]
      invariant forall i :: 0 <= i < idx ==> position[i] == trace[i].position
      invariant forall i :: 0 <= i < idx ==> velocity[i] == trace[i].velocity
    {
      var fExt := ExternalForce(forceAmplitude, forceFrequencyHz, sine, time[idx]);
      ForceSeriesAt(forceAmplitude, forceFrequencyHz, sine, time, idx);
      var res := AdmittanceLoopBody(controller, p, forces, fExt, dt, idx);
      if res.Failure? {
        return Failure(res.error);
      }
      var (pos, vel) := res.value;
      ghost var entry := AdmittanceAfter(p, forces, dt, idx + 1);
      RecordSample(position, velocity, force, idx, pos, vel, fExt, trace, entry, forces);
      trace := trace + [entry];
    }
    assert force[..] == forces;
    r := Success((position, velocity, force));
  }

  /** `simulate_admittance`: drive a fresh admittance model with a sinusoidal force on the time grid. */
  method SimulateAdmittance(stiffness: real, damping: real, mass: real, forceAmplitude: real,
                            forceFrequencyHz: real, duration: real, dt: real, sine: real -> real)
    returns (r: Result<AdmittanceSimulation, ControlError>)
    ensures BuildTimeVector(duration, dt).Failure? ==> r == Failure(BuildTimeVector(duration, dt).error)
    ensures BuildTimeVector(duration, dt).Success? && mass <= 0.0 ==> r == Failure(MassNotPositive)
    ensures r.Success? <==> duration > 0.0 && dt > 0.0 && mass > 0.0
    ensures r.Success? ==>
      var sim := r.value;
      var n := |sim.time|;
      && sim.time == BuildTimeVector(duration, dt).value
      && |sim.position| == n && |sim.velocity| == n
      && sim.force == ForceSeries(forceAmplitude, forceFrequencyHz, sine, sim.time)
    ensures r.Success? ==>
      var sim := r.value;
      var p := AdmittanceParams(stiffness, damping, mass);
      forall i :: 0 <= i < |sim.time| ==>
        && sim.position[i] == AdmittanceAfter(p, sim.force, dt, i + 1).position
        && sim.velocity[i] == AdmittanceAfter(p, sim.force, dt, i + 1).velocity
    ensures r.Success? && forceAmplitude == 0.0 ==>
      forall i :: 0 <= i < |r.value.time| ==> r.value.position[i] == 0.0 && r.value.velocity[i] == 0.0
  {
    var grid := BuildTimeVector(duration, dt);
    if grid.Failure? {
      return Failure(grid.error);
    }
    var time := grid.value;
    var p := AdmittanceParams(stiffness, damping, mass);
    ghost var forces := ForceSeries(forceAmplitude, forceFrequencyHz, sine, time);
    var run := RunAdmittanceLoop(stiffness, damping, mass, forceAmplitude, forceFrequencyHz, time, dt, sine);
    if run.Failure? {
      return Failure(run.error);
    }
    var (position, velocity, force) := run.value;
    var n := |time|;
    r := Success(AdmittanceSimulation(time, position[..], velocity[..], force[..]));
    forall i | 0 <= i < n
      ensures position[i] == AdmittanceAfter(p, forces, dt, i + 1).position
      ensures velocity[i] == AdmittanceAfter(p, forces, dt, i + 1).velocity
    {
      AdmittanceTraceAt(p, forces, dt, n, i);
    }
    if forceAmplitude == 0.0 {
      forall i | 0 <= i < n
        ensures position[i] == 0.0 && velocity[i] == 0.0
      {
        forall j | 0 <= j < |forces|
          ensures forces[j] == 0.0
        {
          ForceSeriesAt(forceAmplitude, forceFrequencyHz, sine, time, j);
        }
        ZeroForceStaysAtRest(p, forces, dt, i + 1);
      }
    }
  }
}
