/**
 * Primitives of the host language that the model leaves uninterpreted:
 * `math.sqrt` and the built-in `round(x, digits)`.  Nothing is assumed about
 * them; a lemma that needs `Sqrt` to be an exact square root says so with the
 * hypothesis `ExactSqrt()`.
 */
module Host {

  /** The value of `math.sqrt` at each argument. */
  const SqrtOf: real -> real

  /** The value of `round(x, digits)`. */
  const RoundOf: (real, int) -> real

  /** `math.sqrt(x)`, only ever applied to a non-negative argument in this model. */
  function Sqrt(x: real): real
    requires x >= 0.0
  {
    SqrtOf(x)
  }

  /** `round(x, digits)`. */
  function Round(x: real, digits: int): real
  {
    RoundOf(x, digits)
  }

  /** The hypothesis that `Sqrt` is the exact non-negative square root. */
  ghost predicate ExactSqrt()
  {
    forall x: real :: x >= 0.0 ==> Sqrt(x) >= 0.0 && Sqrt(x) * Sqrt(x) == x
  }

  /** Two non-negative numbers with equal squares are equal. */
  lemma SquareInjective(x: real, y: real)
    requires x >= 0.0 && y >= 0.0 && x * x == y * y
    ensures x == y
  {
    if x < y {
      MulStrict(x, y);
    } else if y < x {
      MulStrict(y, x);
    }
  }

  /** Squaring is strictly monotone on the non-negative reals. */
  lemma MulStrict(x: real, y: real)
    requires 0.0 <= x < y
    ensures x * x < y * y
  {
    PositiveProduct(y - x, y + x);
    assert (y - x) * (y + x) == y * y - x * x;
  }

  /** The product of two positive reals is positive. */
  lemma PositiveProduct(d: real, s: real)
    requires d > 0.0 && s > 0.0
    ensures d * s > 0.0
  {
  }

  /** Squares order the non-negative reals as the reals themselves. */
  lemma SquareMonotone(x: real, y: real)
    requires x >= 0.0 && y >= 0.0 && x * x <= y * y
    ensures x <= y
  {
    if y < x {
      MulStrict(y, x);
    }
  }
}
