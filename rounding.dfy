/**
 * Integer model of `Math.round((k / m) * 100)` for a non-negative count `k`
 * out of a positive total `m`: the percentage rounded half-up.
 */
module Rounding {

  /** The percentage `100 * k / m` rounded half-up to an integer. */
  function RoundedPercent(k: int, m: int): (r: int)
    requires k >= 0 && m > 0
    ensures m * (2 * r - 1) <= 200 * k < m * (2 * r + 1)
  {
    var n := 200 * k + m;
    var q := n / (2 * m);
    assert n == 2 * m * q + n % (2 * m);
    q
  }

  /** A share of at most the whole is rounded to a percentage in [0, 100]. */
  lemma PercentInRange(k: int, m: int)
    requires 0 <= k <= m && m > 0
    ensures 0 <= RoundedPercent(k, m) <= 100
  {
    var r := RoundedPercent(k, m);
    if r > 100 {
      MulMonotone(m, 201, 2 * r - 1);
      assert false;
    }
    if r < 0 {
      MulMonotone(m, 2 * r + 1, -1);
      assert false;
    }
  }

  /** The whole is exactly 100 percent. */
  lemma PercentOfWhole(m: int)
    requires m > 0
    ensures RoundedPercent(m, m) == 100
  {
    var r := RoundedPercent(m, m);
    PercentInRange(m, m);
    if r < 100 {
      MulMonotone(m, 2 * r + 1, 200);
      assert false;
    }
  }

  /** Nothing is exactly 0 percent. */
  lemma PercentOfNothing(m: int)
    requires m > 0
    ensures RoundedPercent(0, m) == 0
  {
    var r := RoundedPercent(0, m);
    PercentInRange(0, m);
    if r > 0 {
      MulMonotone(m, 1, 2 * r - 1);
      assert false;
    }
  }

  /** The rounded percentage reaches `t` exactly when `200 * k >= m * (2 * t - 1)`. */
  lemma PercentAtLeast(k: int, m: int, t: int)
    requires k >= 0 && m > 0
    ensures RoundedPercent(k, m) >= t <==> 200 * k >= m * (2 * t - 1)
  {
    var r := RoundedPercent(k, m);
    if r >= t {
      MulMonotone(m, 2 * t - 1, 2 * r - 1);
    } else {
      MulMonotone(m, 2 * r + 1, 2 * t - 1);
    }
  }

  lemma MulMonotone(m: int, a: int, b: int)
    requires m > 0 && a <= b
    ensures m * a <= m * b
  {
    assert m * b - m * a == m * (b - a);
  }
}
