/** The Elo win-probability model (`expected_win_rate`): for a vector of
    ratings and one candidate rating, element by element, the probability
    1 / (1 + 10^((scalar - rating) / 400)) that the holder of `rating` beats
    the holder of `scalar`.

    10^x has no closed form over the reals, so it is a parameter `pow10`
    of which only three facts are known (IsPow10): it is positive, it maps 0
    to 1, and it is strictly increasing. */
module WinRate {
  import opened Numeric

  /** What the model knows of 10^x. */
  ghost predicate IsPow10(pow10: real -> real)
  {
    && pow10(0.0) == 1.0
    && (forall x :: pow10(x) > 0.0)
    && (forall x, y :: x < y ==> pow10(x) < pow10(y))
  }

  /** 10^x as the model knows it can exist: the function 1 + x for x >= 0
      and 1 / (1 - x) below 0 has all three properties, so the contracts
      that assume them are not vacuous. */
  lemma {:induction false} Pow10Exists()
    ensures exists pow10: real -> real :: IsPow10(pow10)
  {
    var f: real -> real := x => if x >= 0.0 then 1.0 + x else 1.0 / (1.0 - x);
    forall x | x < 0.0
      ensures 0.0 < f(x) < 1.0
    {
      ReciprocalBetween(1.0 - x, 1.0 - x, 2.0 - x);
      ReciprocalBetween(1.0 - x, 1.0, 2.0 - x);
    }
    forall x, y | x < y
      ensures f(x) < f(y)
    {
      if y < 0.0 {
        ReciprocalDecreasing(-y, -x);
        assert 1.0 + -y == 1.0 - y && 1.0 + -x == 1.0 - x;
      }
    }
    assert IsPow10(f);
  }

  /** The Elo scale. */
  const EloScale: real := 400.0

  /** Probability that a contestant rated `rating` beats one rated `scalar`:
      a probability strictly between 0 and 1, exactly 1/2 between equals. */
  function WinRate(pow10: real -> real, rating: real, scalar: real): (p: real)
    requires IsPow10(pow10)
    ensures 0.0 < p < 1.0
    ensures rating == scalar ==> p == 0.5
  {
    var e := pow10((scalar - rating) / EloScale);
    ReciprocalBetween(1.0 + e, 1.0, 1.0 + e + 1.0);
    1.0 / (1.0 + e)
  }

  /** A stronger opponent lowers the win probability. */
  lemma WinRateDecreasing(pow10: real -> real, rating: real, s1: real, s2: real)
    requires IsPow10(pow10)
    requires s1 < s2
    ensures WinRate(pow10, rating, s2) < WinRate(pow10, rating, s1)
  {
    var x1, x2 := (s1 - rating) / EloScale, (s2 - rating) / EloScale;
    assert pow10(x1) < pow10(x2);
    ReciprocalDecreasing(pow10(x1), pow10(x2));
  }

  /** `expected_win_rate(vector, scalar)`: one win probability per entry. */
  function ExpectedWinRate(pow10: real -> real, vector: seq<real>, scalar: real): (r: seq<real>)
    requires IsPow10(pow10)
    ensures |r| == |vector|
    ensures forall i :: 0 <= i < |r| ==> 0.0 < r[i] < 1.0
    ensures forall i :: 0 <= i < |r| && vector[i] == scalar ==> r[i] == 0.5
  {
    seq(|vector|, i requires 0 <= i < |vector| => WinRate(pow10, vector[i], scalar))
  }

  /** Entry by entry, the win probabilities strictly decrease in `scalar`. */
  lemma ExpectedWinRateDecreasing(pow10: real -> real, vector: seq<real>, s1: real, s2: real)
    requires IsPow10(pow10)
    requires s1 < s2
    ensures forall i :: 0 <= i < |vector| ==>
      ExpectedWinRate(pow10, vector, s2)[i] < ExpectedWinRate(pow10, vector, s1)[i]
  {
    forall i | 0 <= i < |vector|
      ensures ExpectedWinRate(pow10, vector, s2)[i] < ExpectedWinRate(pow10, vector, s1)[i]
    {
      WinRateDecreasing(pow10, vector[i], s1, s2);
    }
  }

  /** `np.sum(expected_win_rate(ratings, x))`: how many of `ratings` are
      expected to beat a contestant rated x: between 0 and the field size,
      strictly so over a non-empty field. */
  function WinSum(pow10: real -> real, ratings: seq<real>, x: real): (r: real)
    requires IsPow10(pow10)
    ensures 0.0 <= r <= |ratings| as real
    ensures ratings != [] ==> 0.0 < r < |ratings| as real
  {
    SumOfProbabilities(ExpectedWinRate(pow10, ratings, x));
    Sum(ExpectedWinRate(pow10, ratings, x))
  }

  lemma WinSumCons(pow10: real -> real, ratings: seq<real>, x: real)
    requires IsPow10(pow10)
    requires ratings != []
    ensures WinSum(pow10, ratings, x) == WinRate(pow10, ratings[0], x) + WinSum(pow10, ratings[1..], x)
  {
    assert ExpectedWinRate(pow10, ratings, x)[1..] == ExpectedWinRate(pow10, ratings[1..], x);
  }

  /** Over a non-empty field the expected number of contestants who beat the
      candidate rating strictly decreases as that rating grows; this is what makes bisection valid. */
  lemma {:induction false} WinSumDecreasing(pow10: real -> real, ratings: seq<real>, x: real, y: real)
    requires IsPow10(pow10)
    requires ratings != [] && x < y
    ensures WinSum(pow10, ratings, y) < WinSum(pow10, ratings, x)
  {
    WinSumCons(pow10, ratings, x);
    WinSumCons(pow10, ratings, y);
    WinRateDecreasing(pow10, ratings[0], x, y);
    if |ratings| > 1 {
      WinSumDecreasing(pow10, ratings[1..], x, y);
    }
  }

  /** `ratings` without its entry at index i. */
  function Without(ratings: seq<real>, i: int): (r: seq<real>)
    requires 0 <= i < |ratings|
    ensures |r| == |ratings| - 1
  {
    ratings[..i] + ratings[i + 1..]
  }

  /** The self term of the sum contributes exactly 1/2: summing over the
      whole field equals 1/2 plus the sum over everybody else. */
  lemma {:induction false} SelfTermIsHalf(pow10: real -> real, ratings: seq<real>, i: int)
    requires IsPow10(pow10)
    requires 0 <= i < |ratings|
    ensures WinSum(pow10, ratings, ratings[i])
         == 0.5 + Sum(ExpectedWinRate(pow10, Without(ratings, i), ratings[i]))
  {
    var x := ratings[i];
    var all := ExpectedWinRate(pow10, ratings, x);
    var others := ExpectedWinRate(pow10, Without(ratings, i), x);
    assert all == all[..i] + [all[i]] + all[i + 1..];
    assert others == all[..i] + all[i + 1..];
    SumConcat(all[..i] + [all[i]], all[i + 1..]);
    SumConcat(all[..i], [all[i]]);
    SumConcat(all[..i], all[i + 1..]);
  }
}
