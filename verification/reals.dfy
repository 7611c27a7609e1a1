/** Small facts about real numbers shared by the signal and sample modules. */
module Reals {

  function Abs(x: real): (r: real)
    ensures 0.0 <= r && (r == x || r == -x)
  {
    if x < 0.0 then -x else x
  }

  /** The larger of `x` and `y`. */
  function Max(x: real, y: real): (r: real)
    ensures x <= r && y <= r && (r == x || r == y)
  {
    if x < y then y else x
  }

  lemma MulNonNeg(x: real, y: real)
    requires 0.0 <= x && 0.0 <= y
    ensures 0.0 <= x * y
  {
  }

  lemma AbsMul(x: real, y: real)
    ensures Abs(x * y) == Abs(x) * Abs(y)
  {
    if x < 0.0 && y < 0.0 {
      assert x * y == (-x) * (-y);
      MulNonNeg(-x, -y);
    } else if x < 0.0 {
      assert -(x * y) == (-x) * y;
      MulNonNeg(-x, y);
    } else if y < 0.0 {
      assert -(x * y) == x * (-y);
      MulNonNeg(x, -y);
    } else {
      MulNonNeg(x, y);
    }
  }

  /** A value of magnitude at most 1, scaled by a gain in [0, 1], then by `level`. */
  lemma ScaledMagnitude(m: real, gain: real, level: real)
    requires -1.0 <= m <= 1.0 && 0.0 <= gain <= 1.0
    ensures Abs(m * (gain * level)) <= Abs(level)
  {
    var g := gain * Abs(level);
    AbsMul(gain, level);
    AbsMul(m, gain * level);
    MulNonNeg(gain, Abs(level));
    MulNonNeg(1.0 - gain, Abs(level));
    assert Abs(level) - g == (1.0 - gain) * Abs(level);
    MulNonNeg(1.0 - Abs(m), g);
    assert Abs(level) - Abs(m) * g == (1.0 - Abs(m)) * g + (Abs(level) - g);
  }
}
