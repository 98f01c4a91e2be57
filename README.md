# Haptics controllers in Dafny

This project models the numeric controllers of a small haptics repository and
proves properties of them.

The primary model is the control kernel of `interactive_haptics/control.py`
(module `Control`). It has five parts:

- the fixed-step time grid;
- the discrete PID regulator, with its optional integral clamp (anti-windup),
  output clamp and `reset`;
- the semi-implicit Euler admittance model (a virtual mass-spring-damper) with
  its checks on `dt` and on the mass;
- `simulate_pid`, which runs the regulator against a mass-damper-spring plant;
- `simulate_admittance`, which drives the admittance model with a sinusoidal
  force.

Each driver fills equal-length result series.

The other modules model earlier or stand-alone versions of the same ideas:

- `AC`: the unguarded admittance controller of `AC.py`.
- `CP`: the unclamped PID regulator, the unit-mass spring-damper and the
  actuator of `CP.py`.
- `PID`: the term-by-term PID regulator of `PID.py`.
- `Haptics2`: the capstan, tape, motor, sensor and proportional controller of
  `Haptics/haptics2.py`.
- `CapstanSim`: the numeric state of the capstan animation in
  `Haptics/capstan.py`.
- `Interaction`: the touch grid, raw buffer and empty-buffer guard of
  `haptic_ann_project/controllers/interaction2.py`.
- `VizTest`: the neuron layout and activation colour of
  `haptic_ann_project/viz_test.py`.

Two support modules sit underneath:

- `Wrappers` defines `Option` and `Result`.
- `Numerics` holds the Python primitives the sources use: `abs`, `min`, `max`,
  `np.clip`, `int()` of a positive quotient, the float `%` for a positive
  divisor, and `math.pi`.

How the model is built:

- Python floats are modelled as mathematical reals.
- A `ValueError` becomes a `Failure` carrying one `ControlError` per message.
- Every class whose methods update fields is a Dafny `class`. Each method is
  specified by a pure function of the old state: `PidStep`, `AdmittanceStep`,
  `ApplyForceRule`, `UnclampedStep`, `SpringDamperStep`, `TapeAdvance`,
  `ClampPower`, `AdjustedPower` and `Updated`.
- The lemmas and the driver contracts are proved about those functions.
- Fields the source never reassigns after construction (gains, limits,
  parameters) are `const`.

Three source facts shape the model:

- The stand-alone `AC.py`, `CP.py` and `PID.py` versions have no guards. Their
  step functions therefore accept any `dt` or mass except the zero value that
  divides by zero. For positive values they are proved equal to the guarded
  kernel (`AC.ApplyForceAgreesWithStep`, `CP.UnclampedAgreesWithUpdate`,
  `CP.SpringDamperIsUnitMassAdmittance`).
- `control.py` checks `plant_mass` in `simulate_pid` before it builds the time
  grid. `simulate_admittance` builds the grid first, constructs the controller
  unchecked, and fails on the first `step` when the mass is not positive. The
  model keeps both orders.
- In `interaction2.py` no code ever appends to `raw_data_buffer`. As written,
  `preprocess_and_infer` can therefore only answer `None`. The model keeps the
  buffer as a field and specifies both branches; the non-empty branch is an
  `infer` parameter.

## Model

| member | source | states |
|---|---|---|
| Numerics.FloorDiv | interactive_haptics/control.py:13 | the quotient q of a positive divisor m satisfies q*m <= a < q*m + m, and is non-negative for a non-negative dividend |
| Numerics.FloorMod | Haptics/capstan.py:28 | Python's float `%` for a positive divisor: the remainder lies in [0, m) and differs from the dividend by a whole multiple of m |
| Numerics.Abs | interactive_haptics/control.py:41 | `abs` is non-negative and equals x or -x |
| Numerics.Min | Haptics/haptics2.py:33 | `min` is at most both arguments and equals one of them |
| Numerics.Max | Haptics/haptics2.py:33 | `max` is at least both arguments and equals one of them |
| Numerics.Clip | interactive_haptics/control.py:42 | `np.clip` with ordered bounds lands in [lo, hi], leaves in-range values alone and maps values below or above the range onto the nearer bound |
| Control.Linspace | interactive_haptics/control.py:14 | `np.linspace` gives `num` samples, the first equal to `start` and the last (for two or more) equal to `stop` |
| Control.StepCount | interactive_haptics/control.py:13 | `int(duration/dt)` is the largest n with n*dt <= duration |
| Control.BuildTimeVector | interactive_haptics/control.py:8-14 | fails with the duration error when duration <= 0, else with the dt error when dt <= 0, succeeds exactly when both are positive, and then has steps+1 entries |
| Control.TimeVectorEntries | interactive_haptics/control.py:13-14 | entry i of the grid is exactly i*dt; the grid starts at 0 and ends at steps*dt, which does not exceed duration |
| Control.Saturate | interactive_haptics/control.py:40-49 | an absent limit leaves the value alone; a present limit bounds its magnitude by abs(limit) (the sign of the limit is ignored), leaves in-range values alone, and puts a value above or below the range exactly on the nearer bound, as `np.clip` does |
| Control.PidAdvance | interactive_haptics/control.py:37-51 | after an update the previous error is the current error, the integral stays within abs(integral_limit) and the output within abs(output_limit) when those are present |
| Control.PidStep | interactive_haptics/control.py:33-52 | `update` fails exactly when dt <= 0; on success it records setpoint - measurement as previous error and keeps both clamps |
| Control.UnclampedPidLaw | interactive_haptics/control.py:37-45 | without an integral limit the integral grows by exactly e*dt; with neither limit the output is kp*e + ki*(I + e*dt) + kd*(e - prev)/dt |
| Control.OutputFromClampedIntegral | interactive_haptics/control.py:44-49 | the output is kp*e + ki*I + kd*(e - prev)/dt with I the integral as stored after its clamp; with an output limit it is that value when in range and exactly +abs(limit) or -abs(limit) when above or below it |
| Control.IntegralClampOnlyOnWindup | interactive_haptics/control.py:38-42 | the integral clamp changes the integral only when it leaves [-abs(limit), abs(limit)], and then sets it exactly to the nearer bound |
| Control.PIDController.constructor | interactive_haptics/control.py:17-27 | the gains and limits are stored and the integral and previous error start at 0 |
| Control.PIDController.Reset | interactive_haptics/control.py:29-31 | `reset` zeroes the integral and the previous error (gains and limits are constants) |
| Control.PIDController.Update | interactive_haptics/control.py:33-52 | a dt <= 0 call fails and leaves the state unchanged; otherwise the output and the new state are those of `PidStep` |
| Control.UpdateAnswer | interactive_haptics/control.py:33-52 | one `update` call raises the dt error exactly when dt <= 0, and otherwise returns an output within abs(output_limit) when that is set |
| Control.UpdateState | interactive_haptics/control.py:33-52 | a call that raises leaves the state as it was; any other call records setpoint - measurement as the previous error |
| Control.Replay | interactive_haptics/control.py:33-52 | a sequence of `update` calls gives one answer per call |
| Control.ReplayAt | interactive_haptics/control.py:33-52 | answer i of a sequence of calls is call i made in the state the first i calls left behind |
| Control.ReplayAfterReset | interactive_haptics/control.py:25-31 | after `reset`, a regulator and a freshly constructed one with the same gains and limits both answer an input sequence with exactly the `Replay` answers from the initial state, and the reset regulator ends in the state those calls leave |
| Control.AdmittanceStep | interactive_haptics/control.py:63-76 | `step` fails with the dt error when dt <= 0, else with the mass error when mass <= 0, succeeds exactly when both are positive, and the new position uses the new velocity |
| Control.AdmittanceStepSolvesDynamics | interactive_haptics/control.py:69-75 | the successful step is the unique solution of m*(v' - v) = (F - b*v - k*x)*dt and x' - x = v'*dt |
| Control.RestIsEquilibrium | interactive_haptics/control.py:69-76 | zero force applied at rest leaves the state at rest |
| Control.PlantStep | interactive_haptics/control.py:69-75 | the semi-implicit Euler step: the new position advances with the velocity computed in the same step (the dynamics are stated by `AdmittanceStepSolvesDynamics`) |
| Control.AdmittanceController.constructor | interactive_haptics/control.py:55-61 | stiffness, damping, mass and the initial state are stored as given |
| Control.AdmittanceController.Step | interactive_haptics/control.py:63-76 | a failing step leaves the state unchanged; a successful one moves to the state of `AdmittanceStep` and returns exactly the new (position, velocity) |
| Control.LoopStep | interactive_haptics/control.py:103-106 | one driver iteration keeps the control effort within abs(output_limit) and the integral within abs(integral_limit), records target - x as previous error, and advances x with the new v |
| Control.LoopAfter | interactive_haptics/control.py:100-106 | the run starts with a fresh regulator and the plant at x = v = 0, and the regulator's integral stays within abs(integral_limit) after every iteration |
| Control.LoopAdvance | interactive_haptics/control.py:103-106 | one regulator update followed by one plant step is one iteration of the closed loop |
| Control.LoopTrace | interactive_haptics/control.py:102-110 | the recorded loop has one entry per iteration |
| Control.LoopTraceAt | interactive_haptics/control.py:102-110 | entry i of the recorded loop is iteration i applied to the state after i iterations |
| Control.PidLoopBody | interactive_haptics/control.py:103-106 | the loop body moves the regulator and the plant from the state after k iterations to the state after k+1 |
| Control.RecordPidSample | interactive_haptics/control.py:108-110 | writing sample idx keeps the earlier samples and adds the new position, velocity and control |
| Control.RunPidLoop | interactive_haptics/control.py:94-110 | the loop fills three fresh arrays of length n whose entries are the recorded closed loop |
| Control.SimulatePid | interactive_haptics/control.py:79-119 | rejects plant_mass <= 0 before the grid; all five series have the grid's length; target is constant; every control value lies in [-120, 120]; the series are those of the closed loop |
| Control.ForceSeries | interactive_haptics/control.py:138-139 | there is one force sample per time sample |
| Control.ExternalForce | interactive_haptics/control.py:139 | the force is 0 at zero amplitude, and a sine value in [-1, 1] keeps its magnitude within abs(amplitude) |
| Control.ForceSeriesAt | interactive_haptics/control.py:139 | force sample i is amplitude*sin(2*pi*f*t[i]) and is 0 when the amplitude is 0 |
| Control.AdmittanceTrace | interactive_haptics/control.py:138-143 | the recorded run has one state per force applied |
| Control.AdmittanceTraceAt | interactive_haptics/control.py:138-143 | entry i of the recorded run is the state after the first i+1 forces |
| Control.ZeroForceStaysAtRest | tests/test_control.py:31-39 | under zero force the model stays exactly at rest for any number of steps |
| Control.AdmittanceLoopBody | interactive_haptics/control.py:140 | the step fails exactly when the mass is not positive; otherwise it moves from the state after k forces to the state after k+1 and returns it |
| Control.RecordSample | interactive_haptics/control.py:141-143 | writing sample idx keeps the earlier samples and adds the new position, velocity and force |
| Control.RunAdmittanceLoop | interactive_haptics/control.py:132-143 | fails exactly when mass <= 0; otherwise three fresh arrays hold the force series and the recorded run |
| Control.SimulateAdmittance | interactive_haptics/control.py:122-150 | grid errors first, then the mass error; all four series have the grid's length; the positions and velocities are the run under the sampled forces; zero amplitude keeps every position and velocity at exactly 0 |
| AC.ApplyForceRule | AC.py:15-20 | the new position uses the new velocity, and the velocity change solves m*(v' - v) = (F - b*v - k*x)*dt, for any non-zero mass |
| AC.ApplyForceSolvesDynamics | AC.py:16-19 | the rule is the unique solution of the two update equations |
| AC.ApplyForceAgreesWithStep | AC.py:15-20 | for dt > 0 and m > 0, `apply_force` computes exactly what `AdmittanceController.step` computes |
| AC.ZeroForceFromRest | AC.py:17-19 | zero force applied at rest leaves the state at (0, 0) |
| AC.AdmittanceControl.constructor | AC.py:8-13 | k, b and m are stored and the system starts at rest |
| AC.AdmittanceControl.WithUnitMass | AC.py:8-13 | the default mass is 1.0 and the system starts at rest |
| AC.AdmittanceControl.ApplyForce | AC.py:15-20 | the state moves as `ApplyForceRule` says and the method returns the new pair; k, b and m are constants |
| CP.UnclampedStep | CP.py:14-19 | the integral grows by exactly error*dt, the previous error becomes the current error, and output*dt = (kp*e + ki*I')*dt + kd*(e - prev) |
| CP.UnclampedAgreesWithUpdate | CP.py:14-19 | for dt > 0 the unclamped update equals `PIDController.update` with neither limit |
| CP.PIDController.constructor | CP.py:7-12 | the gains are stored and prev_error and integral start at 0 |
| CP.PIDController.Compute | CP.py:14-19 | the new state and the output are those of `UnclampedStep` |
| CP.SpringDamperStep | CP.py:29-34 | the unit-mass update: the velocity changes by (F - k*x - b*v)*dt and the position advances with the new velocity |
| CP.SpringDamperIsUnitMassAdmittance | CP.py:29-34 | the unit-mass spring-damper is the plant step with mass 1, and for dt > 0 it is what `AdmittanceController.step` returns |
| CP.VirtualSpringDamper.constructor | CP.py:23-27 | stiffness and damping are stored and the system starts at rest |
| CP.VirtualSpringDamper.ApplyForce | CP.py:29-34 | the state moves as `SpringDamperStep` says and only the new position is returned |
| CP.Actuator.constructor | CP.py:38-39 | the output force starts at 0 |
| CP.Actuator.UpdateForce | CP.py:41-42 | the output force becomes the last control signal |
| PID.StepTerms | PID.py:27-36 | the proportional term is kp*e and the derivative term times dt is kd times the change of error |
| PID.TermsSumToUnclampedOutput | PID.py:41-42 | the sum of the three terms is the unclamped PID output |
| PID.PIDController.constructor | PID.py:4-13 | the gains are stored and prev_error and integral start at 0 |
| PID.PIDController.Compute | PID.py:15-43 | the integral grows by error*dt, prev_error becomes the current error, and the output is p_term + i_term + d_term, the unclamped update |
| Haptics2.LinearSpeed | Haptics/haptics2.py:9-12 | the speed is 0 when the rpm is 0, non-negative for non-negative inputs, and one circumference per second at 60 rpm |
| Haptics2.Capstan.constructor | Haptics/haptics2.py:5-7 | a fresh capstan has rpm 0 and linear speed 0 |
| Haptics2.Capstan.GetLinearSpeed | Haptics/haptics2.py:9-12 | the capstan's surface speed is 0 when it does not turn and non-negative for a non-negative diameter and rpm |
| Haptics2.TapeAdvance | Haptics/haptics2.py:20-24 | the tape moves by speed*time and stops at its length |
| Haptics2.TapeAdvanceStaysOnTape | Haptics/haptics2.py:20-24 | from a position in [0, length] a non-negative move stays in [0, length] and never goes back |
| Haptics2.TapeHasNoLowerStop | Haptics/haptics2.py:22-24 | on a tape of non-negative length, a move that ends below 0 is kept as it is, a negative position: there is no lower clamp |
| Haptics2.Tape.constructor | Haptics/haptics2.py:16-18 | the tape starts at position 0 |
| Haptics2.Tape.Move | Haptics/haptics2.py:20-24 | the position moves as `TapeAdvance` says and never exceeds the length |
| Haptics2.ClampPower | Haptics/haptics2.py:33 | the clamped power lies in [0, 1] and equals the input when the input is in range |
| Haptics2.ClampPowerIdempotent | Haptics/haptics2.py:33 | clamping twice equals clamping once |
| Haptics2.ClampPowerMonotone | Haptics/haptics2.py:33 | clamping preserves order |
| Haptics2.Torque | Haptics/haptics2.py:35-36 | the torque lies in [0, max_torque] for a power in [0, 1] and a non-negative max_torque |
| Haptics2.Motor.constructor | Haptics/haptics2.py:28-30 | the motor starts unpowered |
| Haptics2.Motor.SetPower | Haptics/haptics2.py:32-33 | the stored power is the clamped input, so it lies in [0, 1] |
| Haptics2.Motor.GetTorque | Haptics/haptics2.py:35-36 | a motor in its valid power range with a non-negative maximum delivers a torque in [0, max_torque], and none when unpowered |
| Haptics2.Sensor.constructor | Haptics/haptics2.py:40-41 | the measured speed starts at 0 |
| Haptics2.Sensor.MeasureSpeed | Haptics/haptics2.py:43-44 | the sensor's speed becomes the capstan's current linear speed |
| Haptics2.AdjustedPower | Haptics/haptics2.py:52-55 | the adjusted power lies in [0, 1] |
| Haptics2.AdjustTowardsTarget | Haptics/haptics2.py:52-55 | the power never falls when the tape is too slow, never rises when it is too fast, and stays put on target |
| Haptics2.Controller.constructor | Haptics/haptics2.py:48-50 | the target is stored and the error starts at 0 |
| Haptics2.Controller.AdjustMotor | Haptics/haptics2.py:52-55 | the error is target - measured speed and the motor power becomes clamp(power + 0.1*error), in [0, 1] |
| CapstanSim.Updated | Haptics/capstan.py:21-28 | one update raises the power by 0.1, sets rpm = 10*power, and leaves the angle in [0, 360) |
| CapstanSim.Iterate | Haptics/capstan.py:21-28 | no frames leave the initial state, and after any number of frames the angle lies in [0, 360) |
| CapstanSim.PowerAfterFrames | Haptics/capstan.py:23-24 | after n updates the power is 0.1*n and the rpm is n |
| CapstanSim.AngleAfterFrames | Haptics/capstan.py:27-28 | after n updates the angle is 3*n*(n+1) degrees reduced modulo 360, so it lies in [0, 360) |
| CapstanSim.FloorModAdd | Haptics/capstan.py:28 | reducing the angle modulo 360 before adding the next turn gives the same result as reducing the sum |
| CapstanSim.Simulation.constructor | Haptics/capstan.py:13-18 | the capstan sits at the window centre (200, 200) with angle, power and rpm 0 |
| CapstanSim.Simulation.UpdateSimulation | Haptics/capstan.py:21-28 | the state moves as `Updated` says; after the k-th call the power is 0.1*k, the rpm is k and the angle lies in [0, 360) |
| Interaction.InBounds | haptic_ann_project/controllers/interaction2.py:25 | touches are accepted only on a non-empty grid |
| Interaction.NegativeIsOutOfBounds | haptic_ann_project/controllers/interaction2.py:25 | negative coordinates fail the bounds check |
| Interaction.InteractionController.constructor | haptic_ann_project/controllers/interaction2.py:20-21 | the grid is a fresh all-zero 50 x 50 array and the buffer is empty |
| Interaction.InteractionController.CollectRawData | haptic_ann_project/controllers/interaction2.py:23-28 | an in-bounds touch sets cell [y, x], row then column, and no other cell; an out-of-bounds touch changes nothing; the buffer never changes |
| Interaction.InteractionController.PreprocessAndInfer | haptic_ann_project/controllers/interaction2.py:37-50 | the answer is `None` exactly when the buffer is empty, and otherwise the inference over the buffer |
| Interaction.InteractionController.ResetInteraction | haptic_ann_project/controllers/interaction2.py:52-56 | the buffer is emptied and the grid is untouched |
| VizTest.NeuronPosition | haptic_ann_project/viz_test.py:24-30 | in a window of non-negative size every neuron point has non-negative coordinates (inside the window: `PositionsInsideWindow`) |
| VizTest.CalculatePositions | haptic_ann_project/viz_test.py:21-33 | one list per layer, layer i holding layers[i] points, point j of layer i at ((W // (L+1))*(i+1), (H // (n+1))*(j+1)) |
| VizTest.PositionsInsideWindow | haptic_ann_project/viz_test.py:24-30 | in a window of positive size every point satisfies 0 <= x < W and 0 <= y < H |
| VizTest.LayerIsVerticalColumn | haptic_ann_project/viz_test.py:27-30 | the points of a layer share x, and y does not decrease with j |
| VizTest.DefaultLayout | haptic_ann_project/viz_test.py:10-11 | for the default 400 x 400 window and layers [3, 64, 32, 10], spacing_x is 80 and the row spacings are 100, 6, 12 and 36 |
| VizTest.Truncate | haptic_ann_project/viz_test.py:48 | Python's `int()` truncates toward zero: the floor for non-negative inputs, never larger in magnitude than the input |
| VizTest.ActivationColour | haptic_ann_project/viz_test.py:46-49 | red lies in [0, 255], green is 0, and red + blue = 255 |
| VizTest.ActivationColourEnds | haptic_ann_project/viz_test.py:48-49 | an activation <= 0 gives (0, 0, 255) and one >= 1 gives (255, 0, 0) |
| VizTest.ActivationColourMonotone | haptic_ann_project/viz_test.py:48 | a larger activation never gives less red |

## Left out

- Floating point: rounding, overflow, NaN and infinities are not modelled, because values are reals. The convergence of `simulate_pid` and the finiteness checks of `tests/test_control.py` are out of scope. Only the exact zero-force property of the admittance test is modelled.
- `np.sin` is a parameter `sine` of `SimulateAdmittance`; `np.pi` and `math.pi` are the decimal constant `Numerics.Pi`.
- Python default arguments are explicit parameters; only `AdmittanceControl`'s default mass has its own constructor.
- Dataclass gains, limits and parameters are `const`, because no code reassigns them after construction.
- `virtual_wall_force` and `simulate_virtual_wall` are imported by `interactive_haptics/__init__.py` and the tests but are not defined in `control.py`. They are not part of this model.
- `AC.AdmittanceControl.ApplyForce`: requires a non-zero mass. At zero mass the source raises `ZeroDivisionError`, which is not modelled.
- `CP.PIDController.Compute` and `PID.PIDController.Compute`: require a non-zero `dt`, for the same reason.
- The module-level drivers of `AC.py`, `CP.py` and `PID.py` and the `__main__` loops of `Haptics/haptics2.py` and `interaction2.py` are left out. They consist of plotting, `time.sleep`, `print` and `generate_user_force`.
- Pygame and Tk are left out: the capstan drawing, screen and font, `NeuralNetVisualizer.draw_network` (both definitions) and `update_activations`.
- Torch models, `InputHandler` preprocessing and the non-empty branch of `preprocess_and_infer` are left out. The `np.sum`, preprocessing and `model.predict` steps are one `infer` parameter.
- `Interaction.InteractionController.PreprocessAndInfer`, `CollectRawData`: the `print` warnings are not modelled.
- `CapstanSim.Simulation`: the `screen` and `font` fields are not modelled.
- Haptics2: the `Capstan.rpm` assignment in the `__main__` loop is not modelled as an operation, because the field is public and set from outside.
- The GUI (`interactive_haptics/gui.py`), `Hapkit_basics/main.c` and the other pygame or Tk toys are not part of this model.
