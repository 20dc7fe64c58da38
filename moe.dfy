/**
 * Margin-of-error arithmetic for derived estimates of the American Community
 * Survey: the formulas of the ACS General Handbook, Appendix, pages A-14 and
 * A-15 (sums and differences, derived proportions, derived ratios), and the
 * percent / per-mille scalings applied to an estimate and its margin alike.
 */
module Moe {
  import opened Host

  /** `percentify`: a fraction as a percentage. */
  function Percentify(v: real): real
  {
    v * 100.0
  }

  /** `rateify`: a fraction as a rate per thousand. */
  function Rateify(v: real): real
  {
    v * 1000.0
  }

  /** The sum of two squares, the radicand of `moe_add`, is never negative. */
  lemma SumOfSquaresNonNegative(a: real, b: real)
    ensures a * a + b * b >= 0.0
  {
  }

  /** `moe_add`: the margin of error of a sum or a difference of two estimates. */
  function MoeAdd(moeA: real, moeB: real): real
  {
    SumOfSquaresNonNegative(moeA, moeB);
    Sqrt(moeA * moeA + moeB * moeB)
  }

  /** The radicand of the ratio formula: it too is never negative. */
  function RatioRadicand(numerator: real, denominator: real, numeratorMoe: real, denominatorMoe: real): (r: real)
    requires denominator != 0.0
    ensures r >= 0.0
  {
    var ratio := numerator / denominator;
    SumOfSquaresNonNegative(numeratorMoe, ratio * denominatorMoe);
    numeratorMoe * numeratorMoe + ratio * ratio * (denominatorMoe * denominatorMoe)
  }

  /** The radicand of the proportion formula; it may be negative. */
  function ProportionRadicand(numerator: real, denominator: real, numeratorMoe: real, denominatorMoe: real): real
    requires denominator != 0.0
  {
    var proportion := numerator / denominator;
    numeratorMoe * numeratorMoe - proportion * proportion * (denominatorMoe * denominatorMoe)
  }

  /** `moe_ratio`: the margin of error of a ratio of two estimates. */
  function MoeRatio(numerator: real, denominator: real, numeratorMoe: real, denominatorMoe: real): real
    requires denominator != 0.0
  {
    Sqrt(RatioRadicand(numerator, denominator, numeratorMoe, denominatorMoe)) / denominator
  }

  /**
   * `moe_proportion`: the margin of error of a proportion whose numerator is a
   * subset of its denominator.  `math.sqrt` raises on a negative radicand, and
   * the handler falls back to the ratio formula.
   */
  function MoeProportion(numerator: real, denominator: real, numeratorMoe: real, denominatorMoe: real): real
    requires denominator != 0.0
  {
    var radicand := ProportionRadicand(numerator, denominator, numeratorMoe, denominatorMoe);
    if radicand >= 0.0 then Sqrt(radicand) / denominator
    else MoeRatio(numerator, denominator, numeratorMoe, denominatorMoe)
  }

  /** Sum and difference share one margin, which does not depend on the order of the operands. */
  lemma MoeAddSymmetric(moeA: real, moeB: real)
    ensures MoeAdd(moeA, moeB) == MoeAdd(moeB, moeA)
    ensures MoeAdd(moeA, moeB) == MoeAdd(-moeA, moeB) == MoeAdd(moeA, -moeB)
  {
  }

  /** The proportion formula when its radicand is non-negative, and the fall-back otherwise. */
  lemma MoeProportionCases(numerator: real, denominator: real, numeratorMoe: real, denominatorMoe: real)
    requires denominator != 0.0
    ensures var p := numerator / denominator;
            var radicand := numeratorMoe * numeratorMoe - p * p * (denominatorMoe * denominatorMoe);
            && (radicand >= 0.0 ==> MoeProportion(numerator, denominator, numeratorMoe, denominatorMoe) == Sqrt(radicand) / denominator)
            && (radicand < 0.0 ==> MoeProportion(numerator, denominator, numeratorMoe, denominatorMoe) == MoeRatio(numerator, denominator, numeratorMoe, denominatorMoe))
  {
    var p := numerator / denominator;
    assert ProportionRadicand(numerator, denominator, numeratorMoe, denominatorMoe)
        == numeratorMoe * numeratorMoe - p * p * (denominatorMoe * denominatorMoe);
  }

  /**
   * With an exact square root, the margin of a sum lies between the larger of
   * the two margins and their sum, and is exactly |a| when the other margin is 0.
   */
  lemma MoeAddBounds(moeA: real, moeB: real)
    requires ExactSqrt()
    ensures var r := MoeAdd(moeA, moeB);
            && r >= 0.0 && r * r == moeA * moeA + moeB * moeB
            && Abs(moeA) <= r && Abs(moeB) <= r
            && r <= Abs(moeA) + Abs(moeB)
            && (moeB == 0.0 ==> r == Abs(moeA))
  {
    var r := MoeAdd(moeA, moeB);
    SumOfSquaresNonNegative(moeA, moeB);
    assert r >= 0.0 && r * r == moeA * moeA + moeB * moeB;
    var a, b := Abs(moeA), Abs(moeB);
    assert a * a == moeA * moeA && b * b == moeB * moeB;
    SumOfSquaresNonNegative(0.0, moeB);
    SquareMonotone(a, r);
    SquareMonotone(b, r);
    assert r * r <= (a + b) * (a + b) by {
      assert (a + b) * (a + b) == a * a + b * b + 2.0 * (a * b);
      NonNegativeProduct(a, b);
    }
    SquareMonotone(r, a + b);
    if moeB == 0.0 {
      SquareInjective(r, a);
    }
  }

  /**
   * With an exact square root and a positive denominator, the proportion margin
   * is never negative and never exceeds the ratio margin.
   */
  lemma ProportionAtMostRatio(numerator: real, denominator: real, numeratorMoe: real, denominatorMoe: real)
    requires ExactSqrt()
    requires denominator > 0.0
    ensures 0.0 <= MoeProportion(numerator, denominator, numeratorMoe, denominatorMoe)
                 <= MoeRatio(numerator, denominator, numeratorMoe, denominatorMoe)
  {
    var p := ProportionRadicand(numerator, denominator, numeratorMoe, denominatorMoe);
    var q := RatioRadicand(numerator, denominator, numeratorMoe, denominatorMoe);
    var ratio := numerator / denominator;
    NonNegativeProduct(ratio * ratio, denominatorMoe * denominatorMoe);
    assert p <= q;
    DivideNonNegative(Sqrt(q), denominator);
    if p >= 0.0 {
      SquareMonotone(Sqrt(p), Sqrt(q));
      DivideMonotone(Sqrt(p), Sqrt(q), denominator);
    }
  }

  function Abs(x: real): (r: real)
    ensures r >= 0.0 && r * r == x * x
  {
    if x < 0.0 then -x else x
  }

  lemma NonNegativeProduct(a: real, b: real)
    requires a >= 0.0 && b >= 0.0
    ensures a * b >= 0.0
  {
    if a > 0.0 && b > 0.0 {
      PositiveProduct(a, b);
    }
  }

  lemma DivideNonNegative(x: real, d: real)
    requires x >= 0.0 && d > 0.0
    ensures x / d >= 0.0
  {
  }

  lemma DivideMonotone(x: real, y: real, d: real)
    requires x <= y && d > 0.0
    ensures x / d <= y / d
  {
  }
}
