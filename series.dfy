/** The series cache of the predictor: partial sums of the geometric series
    with ratio 5/7 (`pre_sum_of_sigma`) and the damping coefficient derived
    from them (`adjustment_for_delta_coefficient`). Both are exact rational
    arithmetic here; the memoisation of the source changes no result and is
    not modelled. */
module Series {
  import opened Numeric

  /** The ValueError raised for a negative index, carrying the index. */
  datatype SeriesError = NegativeIndex(k: int)

  datatype Result<T> = Ok(value: T) | Err(error: SeriesError)

  /** The ratio of the geometric series. */
  const Ratio: real := 5.0 / 7.0

  /** (5/7)^k */
  function RatioPow(k: nat): (r: real)
    ensures 0.0 < r <= 1.0
  {
    if k == 0 then 1.0 else Ratio * RatioPow(k - 1)
  }

  lemma {:induction false} RatioPowDecreasing(j: nat, k: nat)
    requires j < k
    ensures RatioPow(k) < RatioPow(j)
  {
    if j + 1 < k {
      RatioPowDecreasing(j, k - 1);
    }
  }

  /** `pre_sum_of_sigma(k)`: the sum of (5/7)^i for i = 0..k, computed by the
      recurrence S(0) = 1, S(k) = (5/7)^k + S(k-1). A negative index is the
      error case. The closed form 7/2 * (1 - (5/7)^(k+1)) bounds the sum in
      [1, 7/2). */
  function PreSumOfSigma(k: int): (r: Result<real>)
    ensures r.Ok? <==> k >= 0
    ensures r.Err? ==> r.error == NegativeIndex(k)
    ensures r.Ok? ==> r.value == 3.5 * (1.0 - RatioPow(k + 1))
    ensures r.Ok? ==> 1.0 <= r.value < 3.5
    decreases if k < 0 then 0 else k
  {
    if k < 0 then Err(NegativeIndex(k))
    else if k >= 1 then Ok(RatioPow(k) + PreSumOfSigma(k - 1).value)
    else Ok(1.0)
  }

  /** The first n powers (5/7)^0, ..., (5/7)^(n-1). */
  function Powers(n: nat): (s: seq<real>)
    ensures |s| == n
  {
    seq(n, i requires 0 <= i < n => RatioPow(i))
  }

  /** The recursive partial sum agrees with the forward sum
      `sum((5/7)**i for i in range(k+1))` named as its alternative. */
  lemma {:induction false} PreSumIsForwardSum(k: nat)
    ensures PreSumOfSigma(k) == Ok(Sum(Powers(k + 1)))
  {
    if k == 0 {
      assert Powers(1) == [1.0];
    } else {
      PreSumIsForwardSum(k - 1);
      assert Powers(k + 1) == Powers(k) + [RatioPow(k)];
      SumConcat(Powers(k), [RatioPow(k)]);
    }
  }

  /** The partial sums strictly increase with k. */
  lemma PreSumIncreasing(j: nat, k: nat)
    requires j < k
    ensures PreSumOfSigma(j).value < PreSumOfSigma(k).value
  {
    RatioPowDecreasing(j + 1, k + 1);
  }

  /** `adjustment_for_delta_coefficient(k)`: 1 / (1 + S(k)), failing as the
      series does on a negative index. Newcomers get 1/2; the value stays
      strictly above the limit 2/9. */
  function AdjustmentForDeltaCoefficient(k: int): (r: Result<real>)
    ensures r.Ok? <==> k >= 0
    ensures r.Err? ==> r.error == NegativeIndex(k)
    ensures r.Ok? ==> 2.0 / 9.0 < r.value <= 0.5
    ensures k == 0 ==> r == Ok(0.5)
  {
    match PreSumOfSigma(k)
    case Err(e) => Err(e)
    case Ok(s) =>
      ReciprocalBetween(1.0 + s, 2.0, 4.5);
      Ok(1.0 / (1.0 + s))
  }

  /** More prior contests give a strictly smaller damping coefficient. */
  lemma CoefficientDecreasing(j: nat, k: nat)
    requires j < k
    ensures AdjustmentForDeltaCoefficient(k).value < AdjustmentForDeltaCoefficient(j).value
  {
    PreSumIncreasing(j, k);
    var sj, sk := PreSumOfSigma(j).value, PreSumOfSigma(k).value;
    ReciprocalBetween(1.0 + sj, 1.0 + sj, 1.0 + sk);
  }

  /** The coefficient exceeds 2/9 by less than (5/7)^(k+1): it converges to
      2/9 geometrically. */
  lemma CoefficientNearLimit(k: nat)
    ensures 0.0 < AdjustmentForDeltaCoefficient(k).value - 2.0 / 9.0 < RatioPow(k + 1)
  {
    var q := RatioPow(k + 1);
    var d := 1.0 + PreSumOfSigma(k).value;
    var c := AdjustmentForDeltaCoefficient(k).value;
    assert d == 4.5 - 3.5 * q;
    assert c * d == 1.0;
    assert q <= Ratio;
    assert d >= 2.0;
    var g := c - 2.0 / 9.0;
    assert g * d == 7.0 / 9.0 * q;
    assert q * (d - 7.0 / 9.0) > 0.0;
    assert (q - g) * d == q * (d - 7.0 / 9.0);
    PositiveFactor(q - g, d);
    PositiveFactor(g, d);
  }

  /** From 60 prior contests on, the coefficient is within 10^-6 of 2/9. */
  lemma CoefficientSettledBy60(k: nat)
    requires k >= 60
    ensures AdjustmentForDeltaCoefficient(k).value - 2.0 / 9.0 < 0.000001
  {
    CoefficientNearLimit(k);
    RatioPowDecreasing(42, k + 1);
    RatioPowSevenSteps(0);
    RatioPowSevenSteps(7);
    RatioPowSevenSteps(14);
    RatioPowSevenSteps(21);
    RatioPowSevenSteps(28);
    RatioPowSevenSteps(35);
  }

  /** Seven more factors of 5/7 shrink a power by more than a factor of ten. */
  lemma {:induction false} RatioPowSevenSteps(n: nat)
    ensures RatioPow(n + 7) < RatioPow(n) / 10.0
  {
    if n == 0 {
      assert RatioPow(7) == 78125.0 / 823543.0;
    } else {
      RatioPowSevenSteps(n - 1);
      assert RatioPow(n + 7) == Ratio * RatioPow(n - 1 + 7);
    }
  }
}
