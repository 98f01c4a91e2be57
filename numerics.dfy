/** Real-number helpers standing for the Python and NumPy primitives the sources use. */
module Numerics {

  /** `math.pi` / `np.pi`, written as the decimal that Python prints for it. */
  const Pi: real := 3.141592653589793

  /** Python's `abs` on a float. */
  function Abs(x: real): (r: real)
    ensures r >= 0.0
    ensures r == x || r == -x
  {
    if x < 0.0 then -x else x
  }

  /** Python's `min` of two floats. */
  function Min(a: real, b: real): (r: real)
    ensures r <= a && r <= b
    ensures r == a || r == b
  {
    if a <= b then a else b
  }

  /** Python's `max` of two floats. */
  function Max(a: real, b: real): (r: real)
    ensures r >= a && r >= b
    ensures r == a || r == b
  {
    if a >= b then a else b
  }

  /** `np.clip(x, lo, hi)`, that is `minimum(maximum(x, lo), hi)`, for an ordered pair of bounds. */
  function Clip(x: real, lo: real, hi: real): (r: real)
    requires lo <= hi
    ensures lo <= r <= hi
    ensures lo <= x <= hi ==> r == x
    ensures x < lo ==> r == lo
    ensures x > hi ==> r == hi
  {
    Min(Max(x, lo), hi)
  }

  /** The floor of a / m for a positive divisor, which `int()` gives for a non-negative quotient. */
  function FloorDiv(a: real, m: real): (q: int)
    requires m > 0.0
    ensures (q as real) * m <= a < (q as real) * m + m
    ensures a >= 0.0 ==> q >= 0
  {
    var k := (a / m).Floor;
    FloorDivBounds(a, m, k);
    k
  }

  /** Python's float `%` for a positive divisor: the remainder takes the sign of the divisor. */
  function FloorMod(a: real, m: real): (r: real)
    requires m > 0.0
    ensures 0.0 <= r < m
    ensures a - r == (FloorDiv(a, m) as real) * m
  {
    a - (FloorDiv(a, m) as real) * m
  }

  lemma FloorDivBounds(a: real, m: real, k: int)
    requires m > 0.0 && k == (a / m).Floor
    ensures (k as real) * m <= a < (k as real) * m + m
    ensures a >= 0.0 ==> k >= 0
  {
    var y := a / m;
    var kr := k as real;
    assert kr <= y < kr + 1.0;
    assert y * m == a;
    MulLeq(kr, y, m);
    MulLt(y, kr + 1.0, m);
    AddOneMul(kr, m);
    assert y * m < (kr + 1.0) * m;
    assert a < kr * m + m;
    if a >= 0.0 {
      assert 0.0 * m < (kr + 1.0) * m;
      MulCancelLt(0.0, kr + 1.0, m);
    }
  }

  lemma AddOneMul(x: real, m: real)
    ensures (x + 1.0) * m == x * m + m
  {
  }

  lemma MulLeq(x: real, y: real, m: real)
    requires x <= y && m > 0.0
    ensures x * m <= y * m
  {
  }

  lemma MulLt(x: real, y: real, m: real)
    requires x < y && m > 0.0
    ensures x * m < y * m
  {
  }

  lemma MulCancelLt(x: real, y: real, m: real)
    requires x * m < y * m && m > 0.0
    ensures x < y
  {
    if x >= y {
      MulLeq(y, x, m);
    }
  }
}
