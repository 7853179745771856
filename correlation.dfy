/**
 * The propagation script's hand-written Pearson correlation: its guards, the
 * deviation sums it divides, and when the division happens at all.
 */
module Pearson {
  import opened PyNumbers

  /** `x * y`, named so that a square is handled as a product of two arguments. */
  function Product(x: real, y: real): real {
    x * y
  }

  function Sum(xs: seq<real>): real {
    if xs == [] then 0.0 else xs[0] + Sum(xs[1..])
  }

  function Mean(xs: seq<real>): real
    requires |xs| > 0
  {
    Sum(xs) / |xs| as real
  }

  /** `sum((a[i] - mean_a) * (b[i] - mean_b) for i in range(n))`. */
  function CoDeviation(a: seq<real>, b: seq<real>, meanA: real, meanB: real): real
    requires |a| == |b|
  {
    if a == [] then 0.0 else Product(a[0] - meanA, b[0] - meanB) + CoDeviation(a[1..], b[1..], meanA, meanB)
  }

  /** `sum((a[i] - mean_a) ** 2 for i in range(n))`. */
  function SquaredDeviation(a: seq<real>, mean: real): real {
    if a == [] then 0.0 else Product(a[0] - mean, a[0] - mean) + SquaredDeviation(a[1..], mean)
  }

  /** What the model needs of `math.sqrt` on the non-negative reals: non-negative, and zero only at zero. */
  ghost predicate IsSqrt(sqrt: real -> real) {
    forall x :: 0.0 <= x ==> 0.0 <= sqrt(x) && (sqrt(x) == 0.0 <==> x == 0.0)
  }

  predicate Constant(xs: seq<real>) {
    forall i, j :: 0 <= i < |xs| && 0 <= j < |xs| ==> xs[i] == xs[j]
  }

  /**
   * `correlation(a, b)`: 0 for series of different lengths or fewer than 3
   * points, 0 when the denominator is 0, otherwise the coefficient rounded to
   * 2 decimals. `sqrt` stands for `math.sqrt`.
   */
  function Correlation(a: seq<real>, b: seq<real>, sqrt: real -> real): real {
    if |a| != |b| || |a| < 3 then 0.0
    else
      var meanA := Mean(a);
      var meanB := Mean(b);
      var den := sqrt(Product(SquaredDeviation(a, meanA), SquaredDeviation(b, meanB)));
      if den != 0.0 then Round2(CoDeviation(a, b, meanA, meanB) / den) else 0.0
  }

  // ----- properties -----

  /** Series of different lengths, or shorter than three points, correlate to 0. */
  lemma CorrelationGuards(a: seq<real>, b: seq<real>, sqrt: real -> real)
    requires |a| != |b| || |a| < 3
    ensures Correlation(a, b, sqrt) == 0.0
  {
  }

  /** Two factors of the same sign give a positive product. */
  lemma ProductPositive(x: real, y: real)
    requires (x > 0.0 && y > 0.0) || (x < 0.0 && y < 0.0)
    ensures Product(x, y) > 0.0
  {
    if x < 0.0 {
      assert (-x) * (-y) > 0.0;
    }
  }

  lemma SquarePositive(d: real)
    ensures Product(d, d) >= 0.0
    ensures d != 0.0 ==> Product(d, d) > 0.0
    ensures d == 0.0 ==> Product(d, d) == 0.0
  {
    if d != 0.0 {
      ProductPositive(d, d);
    }
  }

  lemma {:induction false} SquaredDeviationNonNegative(a: seq<real>, mean: real)
    ensures SquaredDeviation(a, mean) >= 0.0
  {
    if a != [] {
      SquaredDeviationNonNegative(a[1..], mean);
      SquarePositive(a[0] - mean);
    }
  }

  /** A series sitting on the mean has no deviation. */
  lemma {:induction false} SquaredDeviationOfFlat(a: seq<real>, mean: real)
    requires forall i :: 0 <= i < |a| ==> a[i] == mean
    ensures SquaredDeviation(a, mean) == 0.0
  {
    if a != [] {
      assert forall i :: 0 <= i < |a[1..]| ==> a[1..][i] == a[i + 1];
      SquaredDeviationOfFlat(a[1..], mean);
      SquarePositive(a[0] - mean);
    }
  }

  /** One point off the mean makes the sum of squared deviations positive. */
  lemma {:induction false} SquaredDeviationOfOffPoint(a: seq<real>, mean: real, k: int)
    requires 0 <= k < |a| && a[k] != mean
    ensures SquaredDeviation(a, mean) > 0.0
  {
    var d := a[0] - mean;
    SquarePositive(d);
    SquaredDeviationNonNegative(a[1..], mean);
    assert SquaredDeviation(a, mean) == Product(d, d) + SquaredDeviation(a[1..], mean);
    if k > 0 {
      assert a[1..][k - 1] == a[k];
      SquaredDeviationOfOffPoint(a[1..], mean, k - 1);
    }
  }

  /** The sum of squared deviations is 0 exactly when every point equals the mean. */
  lemma SquaredDeviationZero(a: seq<real>, mean: real)
    ensures SquaredDeviation(a, mean) == 0.0 <==> forall i :: 0 <= i < |a| ==> a[i] == mean
  {
    if forall i :: 0 <= i < |a| ==> a[i] == mean {
      SquaredDeviationOfFlat(a, mean);
    } else {
      var k :| 0 <= k < |a| && a[k] != mean;
      SquaredDeviationOfOffPoint(a, mean, k);
    }
  }

  lemma {:induction false} SumOfConstant(xs: seq<real>, c: real)
    requires forall i :: 0 <= i < |xs| ==> xs[i] == c
    ensures Sum(xs) == |xs| as real * c
  {
    if xs != [] {
      assert forall i :: 0 <= i < |xs[1..]| ==> xs[1..][i] == xs[i + 1];
      SumOfConstant(xs[1..], c);
    }
  }

  /** A constant series is its own mean. */
  lemma MeanOfConstant(xs: seq<real>)
    requires |xs| > 0 && Constant(xs)
    ensures Mean(xs) == xs[0]
    ensures forall i :: 0 <= i < |xs| ==> xs[i] == Mean(xs)
  {
    SumOfConstant(xs, xs[0]);
  }

  /** If either series is constant the denominator is 0 and the correlation is reported as 0. */
  lemma ConstantSeriesCorrelateToZero(a: seq<real>, b: seq<real>, sqrt: real -> real)
    requires IsSqrt(sqrt)
    requires Constant(a) || Constant(b)
    ensures Correlation(a, b, sqrt) == 0.0
  {
    if |a| == |b| && |a| >= 3 {
      if Constant(a) {
        MeanOfConstant(a);
        SquaredDeviationZero(a, Mean(a));
      } else {
        MeanOfConstant(b);
        SquaredDeviationZero(b, Mean(b));
      }
      var p := Product(SquaredDeviation(a, Mean(a)), SquaredDeviation(b, Mean(b)));
      assert p == 0.0;
      assert sqrt(p) == 0.0;
    }
  }

  /**
   * Past the guards, the denominator is 0 only for a constant series: two
   * varying series of equal length (at least 3) are always divided.
   */
  lemma VaryingSeriesAreDivided(a: seq<real>, b: seq<real>, sqrt: real -> real)
    requires IsSqrt(sqrt)
    requires |a| == |b| >= 3
    requires !Constant(a) && !Constant(b)
    ensures var den := sqrt(Product(SquaredDeviation(a, Mean(a)), SquaredDeviation(b, Mean(b))));
      den > 0.0 && Correlation(a, b, sqrt) == Round2(CoDeviation(a, b, Mean(a), Mean(b)) / den)
  {
    var p := Product(SquaredDeviation(a, Mean(a)), SquaredDeviation(b, Mean(b)));
    VaryingSeriesDeviate(a);
    VaryingSeriesDeviate(b);
    ProductPositive(SquaredDeviation(a, Mean(a)), SquaredDeviation(b, Mean(b)));
    assert 0.0 <= p && p != 0.0;
    assert 0.0 <= sqrt(p) && sqrt(p) != 0.0;
  }

  /** A series that is not constant has a positive sum of squared deviations. */
  lemma VaryingSeriesDeviate(a: seq<real>)
    requires |a| > 0 && !Constant(a)
    ensures SquaredDeviation(a, Mean(a)) > 0.0
  {
    SquaredDeviationNonNegative(a, Mean(a));
    SquaredDeviationZero(a, Mean(a));
    var i, j :| 0 <= i < |a| && 0 <= j < |a| && a[i] != a[j];
    assert a[i] != Mean(a) || a[j] != Mean(a);
  }

  lemma {:induction false} CoDeviationSymmetric(a: seq<real>, b: seq<real>, meanA: real, meanB: real)
    requires |a| == |b|
    ensures CoDeviation(a, b, meanA, meanB) == CoDeviation(b, a, meanB, meanA)
  {
    if a != [] {
      CoDeviationSymmetric(a[1..], b[1..], meanA, meanB);
    }
  }

  /** The correlation of SPX with an asset is the correlation of the asset with SPX. */
  lemma CorrelationSymmetric(a: seq<real>, b: seq<real>, sqrt: real -> real)
    ensures Correlation(a, b, sqrt) == Correlation(b, a, sqrt)
  {
    if |a| == |b| && |a| >= 3 {
      CoDeviationSymmetric(a, b, Mean(a), Mean(b));
      assert Product(SquaredDeviation(a, Mean(a)), SquaredDeviation(b, Mean(b)))
          == Product(SquaredDeviation(b, Mean(b)), SquaredDeviation(a, Mean(a)));
    }
  }
}
