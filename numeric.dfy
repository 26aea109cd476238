/** Sums of real sequences (numpy's `np.sum` over a 1-d array) and two facts
    about reciprocals that the rating arithmetic relies on. */
module Numeric {

  /** The sum of the entries of `s`; entries that are never negative have a
      sum that is never negative. */
  function Sum(s: seq<real>): (r: real)
    ensures (forall i :: 0 <= i < |s| ==> 0.0 <= s[i]) ==> 0.0 <= r
  {
    if s == [] then 0.0 else s[0] + Sum(s[1..])
  }

  lemma {:induction false} SumConcat(a: seq<real>, b: seq<real>)
    ensures Sum(a + b) == Sum(a) + Sum(b)
  {
    if a == [] {
      assert a + b == b;
    } else {
      assert (a + b)[1..] == a[1..] + b;
      SumConcat(a[1..], b);
    }
  }

  /** A sum of probabilities strictly between 0 and 1 lies between 0 and the
      number of terms, strictly so when there is at least one term. */
  lemma {:induction false} SumOfProbabilities(s: seq<real>)
    requires forall i :: 0 <= i < |s| ==> 0.0 < s[i] < 1.0
    ensures 0.0 <= Sum(s) <= |s| as real
    ensures |s| > 0 ==> 0.0 < Sum(s) < |s| as real
  {
    if s != [] {
      SumOfProbabilities(s[1..]);
    }
  }

  /** 1/d is bracketed by 1/hi and 1/lo when d is in [lo, hi). */
  lemma ReciprocalBetween(d: real, lo: real, hi: real)
    requires 0.0 < lo <= d < hi
    ensures 1.0 / hi < 1.0 / d <= 1.0 / lo
  {
    assert 1.0 / d * d == 1.0;
    assert 1.0 / hi * hi == 1.0;
    assert 1.0 / lo * lo == 1.0;
  }

  /** A product with a positive factor is positive only if the other factor is. */
  lemma PositiveFactor(a: real, b: real)
    requires b > 0.0 && a * b > 0.0
    ensures a > 0.0
  {
  }

  /** Multiplying by a positive factor keeps the order of non-negative reals. */
  lemma ProductIncreasing(e: real, a: real, b: real)
    requires 0.0 < e && 0.0 <= a < b
    ensures 0.0 <= e * a < e * b
  {
    var ea, eb := e * a, e * b;
    assert eb - ea == e * (b - a);
  }

  /** Multiplying by a non-negative factor keeps the order. */
  lemma ScaleMonotone(c: real, a: real, b: real)
    requires 0.0 <= c && a <= b
    ensures c * a <= c * b
  {
    var ca, cb := c * a, c * b;
    assert cb - ca == c * (b - a);
  }

  /** A factor in (0, 1/2] keeps the sign of x and at most half its size. */
  lemma AtMostHalf(c: real, x: real)
    requires 0.0 < c <= 0.5
    ensures 0.0 <= x ==> 0.0 <= c * x <= x / 2.0
    ensures x <= 0.0 ==> x / 2.0 <= c * x <= 0.0
  {
    if 0.0 <= x {
      ScaleMonotone(x, 0.0, c);
      ScaleMonotone(x, c, 0.5);
    } else {
      ScaleMonotone(-x, 0.0, c);
      ScaleMonotone(-x, c, 0.5);
    }
  }

  /** 1/(1+x) strictly decreases as x grows over the positive reals. */
  lemma ReciprocalDecreasing(x: real, y: real)
    requires 0.0 < x < y
    ensures 1.0 / (1.0 + y) < 1.0 / (1.0 + x)
  {
    ReciprocalBetween(1.0 + x, 1.0 + x, 1.0 + y);
  }

  /** Squaring is monotone on the non-negative reals, and so is its inverse. */
  lemma SquareMonotone(x: real, y: real)
    requires 0.0 <= x && 0.0 <= y
    ensures x <= y ==> x * x <= y * y
    ensures x < y ==> x * x < y * y
    ensures x * x < y * y ==> x < y
  {
    var xx, xy, yy := x * x, x * y, y * y;
    if x < y {
      assert xx <= xy < yy;
    } else if y < x {
      assert yy <= xy < xx;
    }
  }

  /** A non-negative m with m*m == a*b (a geometric mean) lies between a and b. */
  lemma GeometricMeanBetween(a: real, b: real, m: real)
    requires 0.0 <= a <= b && 0.0 <= m
    requires m * m == a * b
    ensures a <= m <= b
  {
    assert a * a <= a * b <= b * b;
    SquareMonotone(m, a);
    SquareMonotone(b, m);
  }
}
