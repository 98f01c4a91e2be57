/**
 * The numeric state of the capstan animation in `Haptics/capstan.py`: each
 * frame raises the motor power by 0.1, derives the rpm from it and turns the
 * capstan by one second's worth of rotation, keeping the angle in [0, 360).
 */
module CapstanSim {
  import opened Numerics

  /** The window size (pixels). */
  const Width: int := 400
  const Height: int := 400

  /** Power step per frame and the rpm per unit of motor power. */
  const PowerStep: real := 0.1
  const RpmPerPower: real := 10.0

  /** The angle in degrees, the motor power and the rpm. */
  datatype SimState = SimState(angle: real, power: real, rpm: real)

  /** The state `__init__` sets up. */
  const Initial: SimState := SimState(0.0, 0.0, 0.0)

  /** One `update_simulation` on values. */
  function Updated(s: SimState): (r: SimState)
    ensures r.power == s.power + PowerStep
    ensures r.rpm == RpmPerPower * r.power
    ensures 0.0 <= r.angle < 360.0
  {
    var power := s.power + PowerStep;
    var rpm := power * RpmPerPower;
    // degrees turned in one second at `rpm`
    var angle := (rpm / 60.0) * 360.0;
    SimState(FloorMod(s.angle + angle, 360.0), power, rpm)
  }

  /** The state after `n` frames. */
  function Iterate(n: nat): (r: SimState)
    ensures n == 0 ==> r == Initial
    ensures 0.0 <= r.angle < 360.0
  {
    if n == 0 then Initial else Updated(Iterate(n - 1))
  }

  /** Degrees turned in the first n frames: frame k turns 6*k degrees. */
  function Turned(n: nat): real {
    3.0 * (n as real) * (n as real + 1.0)
  }

  lemma TurnedStep(n: nat)
    requires n > 0
    ensures Turned(n - 1) + 6.0 * (n as real) == Turned(n)
  {
    var m := (n - 1) as real;
    assert n as real == m + 1.0;
    assert 3.0 * m * (m + 1.0) + 6.0 * (m + 1.0) == 3.0 * (m + 1.0) * (m + 2.0);
  }

  /** After n frames the power is 0.1*n and the rpm is n. */
  lemma {:induction false} PowerAfterFrames(n: nat)
    ensures Iterate(n).power == PowerStep * (n as real)
    ensures Iterate(n).rpm == n as real
  {
    if n > 0 {
      PowerAfterFrames(n - 1);
      var m := (n - 1) as real;
      assert Iterate(n).power == PowerStep * m + PowerStep;
      assert n as real == m + 1.0;
    }
  }

  /**
   * After n frames the capstan has turned 3*n*(n+1) degrees in all, and the
   * angle is that total reduced modulo 360, so it lies in [0, 360).
   */
  lemma {:induction false} AngleAfterFrames(n: nat)
    ensures Iterate(n).angle == FloorMod(Turned(n), 360.0)
    ensures 0.0 <= Iterate(n).angle < 360.0
  {
    if n == 0 {
      assert FloorDiv(0.0, 360.0) == 0;
    } else {
      AngleAfterFrames(n - 1);
      PowerAfterFrames(n - 1);
      var prev := Iterate(n - 1);
      var rpm := (prev.power + PowerStep) * RpmPerPower;
      assert rpm == n as real;
      assert (rpm / 60.0) * 360.0 == 6.0 * (n as real);
      var turn := 6.0 * (n as real);
      calc {
        Iterate(n).angle;
        FloorMod(prev.angle + turn, 360.0);
        FloorMod(FloorMod(Turned(n - 1), 360.0) + turn, 360.0);
        { FloorModAdd(Turned(n - 1), turn); }
        FloorMod(Turned(n - 1) + turn, 360.0);
        { TurnedStep(n); }
        FloorMod(Turned(n), 360.0);
      }
    }
  }

  /** Reducing an angle before adding to it does not change the reduced sum. */
  lemma FloorModAdd(a: real, b: real)
    ensures FloorMod(FloorMod(a, 360.0) + b, 360.0) == FloorMod(a + b, 360.0)
  {
    var q1 := FloorDiv(a, 360.0);
    var r1 := FloorMod(a, 360.0);
    var q2 := FloorDiv(r1 + b, 360.0);
    var x := FloorMod(r1 + b, 360.0);
    var q3 := FloorDiv(a + b, 360.0);
    var y := FloorMod(a + b, 360.0);
    // x and y lie in [0, 360) and differ by a whole number of turns
    assert x - y == ((q3 - q1 - q2) as real) * 360.0;
  }

  /** `Simulation`: the screen and the font are not modelled. */
  class Simulation {
    const capstanCenter: (int, int)
    var capstanAngle: real
    var motorPower: real
    var rpm: real
    /** Frames drawn so far. */
    ghost var ticks: nat

    function State(): SimState
      reads this
    {
      SimState(capstanAngle, motorPower, rpm)
    }

    ghost predicate Valid()
      reads this
    {
      State() == Iterate(ticks)
    }

    /** `__init__(screen)`: the capstan sits at the window centre, not turning. */
    constructor ()
      ensures capstanCenter == (Width / 2, Height / 2)
      ensures State() == Initial
      ensures ticks == 0 && Valid()
    {
      capstanCenter := (Width / 2, Height / 2);
      capstanAngle := 0.0;
      motorPower := 0.0;
      rpm := 0.0;
      ticks := 0;
    }

    /** `update_simulation`. */
    method UpdateSimulation()
      requires Valid()
      modifies this
      ensures State() == Updated(old(State()))
      ensures ticks == old(ticks) + 1 && Valid()
      ensures motorPower == PowerStep * (ticks as real) && rpm == ticks as real
      ensures 0.0 <= capstanAngle < 360.0
    {
      motorPower := motorPower + PowerStep;
      rpm := motorPower * RpmPerPower;
      var angle := (rpm / 60.0) * 360.0;
      capstanAngle := FloorMod(capstanAngle + angle, 360.0);
      ticks := ticks + 1;
      PowerAfterFrames(ticks);
      AngleAfterFrames(ticks);
    }
  }
}
