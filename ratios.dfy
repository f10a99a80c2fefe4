/**
 * Facts about the percentages and shares the views compute. Each isolates one
 * step of arithmetic with a divisor or a factor that is not a constant.
 */
module Ratios {

  /** Scaling both sides by a positive factor keeps an inequality. */
  lemma ScaleKeepsOrder(x: real, y: real, b: real)
    requires b > 0.0
    ensures x <= y <==> x * b <= y * b
    ensures x < y <==> x * b < y * b
  {
    if x <= y {
      assert (y - x) * b >= 0.0;
    } else {
      assert (x - y) * b > 0.0;
    }
  }

  /** A share of a sum is the sum of the shares. */
  lemma ShareOfSum(a: real, b: real, total: real, scale: real)
    requires total != 0.0
    ensures (a + b) / total * scale == a / total * scale + b / total * scale
  {
  }

  /** The whole is all of the scale. */
  lemma WholeShare(total: real, scale: real)
    requires total != 0.0
    ensures total / total * scale == scale
  {
  }

  /** Dividing and multiplying back by the same non-zero divisor gives the dividend. */
  lemma QuotientTimes(x: real, d: real)
    requires d != 0.0
    ensures x / d * d == x
  {
  }

  /** A quotient by a positive divisor passes a cut iff the dividend passes the cut times the divisor. */
  lemma QuotientAbove(r: real, d: real, n: real, cut: real)
    requires d > 0.0 && r * d == n
    ensures r > cut <==> n > cut * d
  {
    ScaleKeepsOrder(cut, r, d);
  }
}
