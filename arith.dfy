/** Facts about integer multiplication and Euclidean division, each derived
    step by step so that no proof leans on the solver's nonlinear search. */
module Arith {

  /** Multiplying by a natural number keeps the order. */
  lemma {:induction false} MulMonotone(a: int, b: int, c: nat)
    requires a <= b
    ensures a * c <= b * c
  {
    if c > 0 {
      MulMonotone(a, b, c - 1);
      assert a * c == a * (c - 1) + a;
      assert b * c == b * (c - 1) + b;
    }
  }

  /** A non-zero multiple of `b` is at least `b` away from zero. */
  lemma MulAwayFromZero(d: int, b: int)
    requires b >= 0
    ensures d >= 1 ==> d * b >= b
    ensures d <= -1 ==> d * b <= -b
  {
    if d >= 1 {
      MulMonotone(1, d, b);
    } else if d <= -1 {
      MulMonotone(d, -1, b);
    }
  }

  /** Dividing a multiple of `b` by `b` is exact: `k * b / b == k`, remainder 0. */
  lemma DivOfMultiple(k: int, b: int)
    requires b >= 1
    ensures k * b / b == k && k * b % b == 0
  {
    var q, r := k * b / b, k * b % b;
    assert k * b == q * b + r && 0 <= r < b;
    assert (k - q) * b == r;
    MulAwayFromZero(k - q, b);
  }

  /** Division by a positive number keeps the order. */
  lemma DivMonotone(f: int, g: int, b: int)
    requires b >= 1 && f <= g
    ensures f / b <= g / b
  {
    var qf, qg := f / b, g / b;
    assert f == qf * b + f % b && g == qg * b + g % b;
    assert (qf - qg) * b == (f - g) + (g % b - f % b);
    MulAwayFromZero(qf - qg, b);
  }
}
