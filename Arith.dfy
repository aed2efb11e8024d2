/**
 * Facts about multiplication the level and percentage proofs rely on, stated
 * once over plain numbers so that each use stays small for the solver.
 */
module Arith {

  /** Multiplying by a non-negative factor keeps `<=`. */
  lemma MulLe(a: int, b: int, t: int)
    requires a <= b && t >= 0
    ensures a * t <= b * t
  {
  }

  /** A positive factor can be cancelled from `<=`. */
  lemma CancelLe(a: int, b: int, t: int)
    requires t > 0 && a * t <= b * t
    ensures a <= b
  {
    if a > b {
      MulLe(b + 1, a, t);
    }
  }

  /** A positive factor can be cancelled from `<`. */
  lemma CancelLt(a: int, b: int, t: int)
    requires t > 0 && a * t < b * t
    ensures a < b
  {
    if a >= b {
      MulLe(b, a, t);
    }
  }

  /** Squaring is monotone on non-negative numbers. */
  lemma SquareLe(a: int, b: int)
    requires 0 <= a <= b
    ensures a * a <= b * b
  {
    MulLe(a, b, a);
    MulLe(a, b, b);
  }

  /** The sign and size of a ratio over a positive divisor, and its percentage scaled back. */
  lemma RatioBounds(a: real, b: real)
    requires b > 0.0
    ensures 0.0 <= a < b ==> 0.0 <= a / b < 1.0
    ensures a < 0.0 ==> a / b < 0.0
    ensures (a / b * 100.0) * b == 100.0 * a
  {
    if 0.0 <= a < b {
      var r := a / b;
      assert r * b == a;
      assert (1.0 - r) * b == b - a;
      assert (1.0 - r) * b > 0.0;
    }
  }

  /** `p` is `part` as a percentage of `whole`: `p · whole == 100 · part`. */
  predicate IsPercentOf(p: real, part: int, whole: int) {
    p * (whole as real) == 100.0 * (part as real)
  }

  lemma PositiveProduct(a: real, b: real)
    requires a > 0.0 && b > 0.0
    ensures a * b > 0.0
  {
  }

  /** A percentage of a positive whole is 100 exactly when the part is the whole. */
  lemma FullPercent(p: real, part: int, whole: int)
    requires whole > 0 && IsPercentOf(p, part, whole)
    ensures p == 100.0 <==> part == whole
  {
    var w := whole as real;
    assert p * w == 100.0 * (part as real);
    if p > 100.0 {
      PositiveProduct(p - 100.0, w);
    } else if p < 100.0 {
      PositiveProduct(100.0 - p, w);
    }
  }
}
