/** The per-contestant rating solver of `predict_contest`: the expected rank
    from the win-probability sum, its geometric mean with the actual rank,
    and the bisection on [0, 4000] for the rating at which the expected
    number of contestants who beat that rating meets the mean rank minus one.

    sqrt is a parameter like 10^x: of it the model knows only that it gives
    the non-negative square root of a non-negative number (IsSqrt). */
module Solver {
  import opened Numeric
  import opened WinRate

  ghost predicate IsSqrt(sqrt: real -> real)
  {
    forall x :: 0.0 <= x ==> 0.0 <= sqrt(x) && sqrt(x) * sqrt(x) == x
  }

  /** sqrt is strictly increasing on the non-negative reals. */
  lemma SqrtIncreasing(sqrt: real -> real, a: real, b: real)
    requires IsSqrt(sqrt)
    requires 0.0 <= a < b
    ensures sqrt(a) < sqrt(b)
  {
    SquareMonotone(sqrt(a), sqrt(b));
  }

  /** The expected rank of contestant i: the win-probability sum over the
      whole field, including the contestant itself, plus 1/2. The self term is
      exactly 1/2, so this is 1 plus the sum over everybody else, and it lies
      between 1 and the field size. */
  function ExpectedRank(pow10: real -> real, ratings: seq<real>, i: int): (r: real)
    requires IsPow10(pow10)
    requires 0 <= i < |ratings|
    ensures r == 1.0 + Sum(ExpectedWinRate(pow10, Without(ratings, i), ratings[i]))
    ensures 1.0 <= r <= |ratings| as real
  {
    SelfTermIsHalf(pow10, ratings, i);
    SumOfProbabilities(ExpectedWinRate(pow10, Without(ratings, i), ratings[i]));
    WinSum(pow10, ratings, ratings[i]) + 0.5
  }

  /** sqrt of a product of non-negative factors is its non-negative root. */
  lemma SqrtOfProduct(sqrt: real -> real, a: real, b: real)
    requires IsSqrt(sqrt)
    requires 0.0 <= a && 0.0 <= b
    ensures 0.0 <= sqrt(a * b) && sqrt(a * b) * sqrt(a * b) == a * b
  {
    var p := a * b;
    assert 0.0 <= p;
  }

  /** `mean_rank = sqrt(expected_rank * rank)`: the geometric mean of the
      expected and the actual rank, so it lies between the two. */
  function MeanRank(sqrt: real -> real, expectedRank: real, rank: real): (m: real)
    requires IsSqrt(sqrt)
    requires 0.0 <= expectedRank && 0.0 <= rank
    ensures expectedRank <= rank ==> expectedRank <= m <= rank
    ensures rank <= expectedRank ==> rank <= m <= expectedRank
  {
    var m := sqrt(expectedRank * rank);
    SqrtOfProduct(sqrt, expectedRank, rank);
    if expectedRank <= rank then
      GeometricMeanBetween(expectedRank, rank, m);
      m
    else
      GeometricMeanBetween(rank, expectedRank, m);
      m
  }

  /** For a fixed positive expected rank, a worse actual rank gives a
      strictly larger mean rank. */
  lemma MeanRankIncreasing(sqrt: real -> real, expectedRank: real, r1: real, r2: real)
    requires IsSqrt(sqrt)
    requires 0.0 < expectedRank && 0.0 <= r1 < r2
    ensures MeanRank(sqrt, expectedRank, r1) < MeanRank(sqrt, expectedRank, r2)
  {
    ProductIncreasing(expectedRank, r1, r2);
    SqrtIncreasing(sqrt, expectedRank * r1, expectedRank * r2);
  }

  /** The bisection's constants: the search interval, the iteration budget
      and the width at which it stops. */
  const SearchLow: real := 0.0
  const SearchHigh: real := 4000.0
  const MaxIteration: int := 25
  const Tolerance: real := 0.1

  /** Width of the search interval after `passes` halvings. */
  function Width(passes: nat): (w: real)
    ensures w > 0.0
  {
    if passes == 0 then SearchHigh - SearchLow else Width(passes - 1) / 2.0
  }

  lemma {:induction false} WidthDecreasing(j: nat, k: nat)
    requires j <= k
    ensures Width(k) <= Width(j)
  {
    if j < k {
      WidthDecreasing(j, k - 1);
    }
  }

  /** Width of the interval the loop ends with: 4000 / 2^16. */
  const FinalWidth: real := 4000.0 / 65536.0

  /** The width test stops the loop after exactly 16 halvings:
      4000 / 2^15 > 0.1 >= 4000 / 2^16. */
  lemma WidthThreshold(k: nat)
    ensures Width(k) > Tolerance <==> k < 16
    ensures Width(16) == FinalWidth
  {
    assert Width(15) == 4000.0 / 32768.0;
    assert Width(16) == 4000.0 / 65536.0;
    if k < 16 {
      WidthDecreasing(k, 15);
    } else {
      WidthDecreasing(16, k);
    }
  }

  /** `f` strictly decreases. */
  ghost predicate StrictlyDecreasing(f: real -> real)
  {
    forall x, y :: x < y ==> f(y) < f(x)
  }

  /** The objective of the bisection, `np.sum(expected_win_rate(ratings, x))`
      as a function of the candidate rating x. */
  function Objective(pow10: real -> real, ratings: seq<real>): (f: real -> real)
    requires IsPow10(pow10)
  {
    x => WinSum(pow10, ratings, x)
  }

  /** Over a non-empty field the objective strictly decreases. */
  lemma ObjectiveDecreasing(pow10: real -> real, ratings: seq<real>)
    requires IsPow10(pow10)
    requires ratings != []
    ensures StrictlyDecreasing(Objective(pow10, ratings))
  {
    forall x, y | x < y
      ensures Objective(pow10, ratings)(y) < Objective(pow10, ratings)(x)
    {
      WinSumDecreasing(pow10, ratings, x, y);
    }
  }

  /** The `while` loop of the solver, written as a function of its state
      (lo, hi, mid, max_iteration): the value of `mid` when the loop exits. */
  function Bisect(objective: real -> real, target: real,
                  lo: real, hi: real, mid: real, maxIteration: int): real
    decreases maxIteration + 1
  {
    if hi - lo > Tolerance && maxIteration >= 0 then
      var m := lo + (hi - lo) / 2.0;
      var below := objective(m) < target;
      Bisect(objective, target, if below then lo else m, if below then m else hi, m,
             maxIteration - 1)
    else
      mid
  }

  /** The solver's answer for `target`, starting from [0, 4000] with 25
      iterations allowed. The loop always runs, so the initial `mid` (0 here,
      unbound in the source) is never returned. */
  function ExpectedRating(objective: real -> real, target: real): (r: real)
    ensures SearchLow < r < SearchHigh
  {
    BisectWithin(objective, target, SearchLow, SearchHigh, SearchLow, MaxIteration);
    Bisect(objective, target, SearchLow, SearchHigh, SearchLow, MaxIteration)
  }

  /** A loop that runs returns a midpoint strictly inside the interval it
      started from. */
  lemma {:induction false} BisectWithin(objective: real -> real, target: real,
                                        lo: real, hi: real, mid: real, maxIteration: int)
    requires hi - lo > Tolerance && maxIteration >= 0
    ensures lo < Bisect(objective, target, lo, hi, mid, maxIteration) < hi
    decreases maxIteration + 1
  {
    var m := lo + (hi - lo) / 2.0;
    if objective(m) < target {
      if m - lo > Tolerance && maxIteration - 1 >= 0 {
        BisectWithin(objective, target, lo, m, m, maxIteration - 1);
      }
    } else {
      if hi - m > Tolerance && maxIteration - 1 >= 0 {
        BisectWithin(objective, target, m, hi, m, maxIteration - 1);
      }
    }
  }

  /** A higher target never yields a higher answer. */
  lemma {:induction false} BisectMonotone(objective: real -> real, t1: real, t2: real,
                                          lo: real, hi: real, mid: real, maxIteration: int)
    requires t1 <= t2
    requires lo <= mid <= hi
    ensures Bisect(objective, t2, lo, hi, mid, maxIteration)
         <= Bisect(objective, t1, lo, hi, mid, maxIteration)
    decreases maxIteration + 1
  {
    if hi - lo > Tolerance && maxIteration >= 0 {
      var m := lo + (hi - lo) / 2.0;
      if objective(m) < t1 {
        BisectMonotone(objective, t1, t2, lo, m, m, maxIteration - 1);
      } else if t2 <= objective(m) {
        BisectMonotone(objective, t1, t2, m, hi, m, maxIteration - 1);
      }
      else {
        // The search for t1 goes up from m and the one for t2 down from m.
        if hi - m > Tolerance && maxIteration - 1 >= 0 {
          BisectWithin(objective, t1, m, hi, m, maxIteration - 1);
        }
        if m - lo > Tolerance && maxIteration - 1 >= 0 {
          BisectWithin(objective, t2, lo, m, m, maxIteration - 1);
        }
      }
    }
  }

  lemma ExpectedRatingMonotone(objective: real -> real, t1: real, t2: real)
    requires t1 <= t2
    ensures ExpectedRating(objective, t2) <= ExpectedRating(objective, t1)
  {
    BisectMonotone(objective, t1, t2, SearchLow, SearchHigh, SearchLow, MaxIteration);
  }

  /** The state the loop keeps after `passes` halvings: the budget left, an
      interval of width 4000/2^passes inside [0, 4000] whose ends bracket the
      target (the objective at the lower end is at least the target unless
      that end is 0, at the upper end below it unless that end is 4000), and
      `mid` one of the two ends once a pass has run. */
  ghost predicate SearchState(objective: real -> real, target: real,
                              lo: real, hi: real, mid: real, maxIteration: int, passes: nat)
  {
    && passes <= 16 && maxIteration == MaxIteration - passes
    && hi - lo == Width(passes)
    && 0.0 <= lo && hi <= 4000.0
    && (passes > 0 ==> (mid == lo || mid == hi) && 0.0 < mid < 4000.0)
    && (lo > 0.0 ==> objective(lo) >= target)
    && (hi < 4000.0 ==> objective(hi) < target)
  }

  /** The answer is one end of a bracketing interval of width 4000/2^16: if
      the objective there is at least the target, it is below the target
      (or off the range) one final width higher, and the other way round. */
  ghost predicate BracketsTarget(objective: real -> real, target: real, r: real)
  {
    && 0.0 < r < 4000.0
    && (objective(r) >= target ==>
          r + FinalWidth == 4000.0 || objective(r + FinalWidth) < target)
    && (objective(r) < target ==>
          r - FinalWidth == 0.0 || objective(r - FinalWidth) >= target)
  }

  /** Before 16 halvings the loop goes on, and one more pass keeps the
      state. */
  lemma SearchStateNext(objective: real -> real, target: real,
                        lo: real, hi: real, mid: real, maxIteration: int, passes: nat)
    requires SearchState(objective, target, lo, hi, mid, maxIteration, passes)
    requires passes < 16
    ensures hi - lo > Tolerance && maxIteration >= 0
    ensures var m := lo + (hi - lo) / 2.0;
      && (objective(m) < target ==>
            SearchState(objective, target, lo, m, m, maxIteration - 1, passes + 1))
      && (objective(m) >= target ==>
            SearchState(objective, target, m, hi, m, maxIteration - 1, passes + 1))
  {
    WidthThreshold(passes);
  }

  /** After 16 halvings the loop stops, and its last midpoint brackets the
      target. */
  lemma SearchStateLast(objective: real -> real, target: real,
                        lo: real, hi: real, mid: real, maxIteration: int, passes: nat)
    requires SearchState(objective, target, lo, hi, mid, maxIteration, passes)
    requires passes == 16
    ensures hi - lo <= Tolerance
    ensures BracketsTarget(objective, target, mid)
  {
    WidthThreshold(passes);
  }

  /** From any state the loop keeps, the loop's answer brackets the target. */
  lemma {:induction false} BisectBrackets(objective: real -> real, target: real,
                                          lo: real, hi: real, mid: real, maxIteration: int,
                                          passes: nat)
    requires SearchState(objective, target, lo, hi, mid, maxIteration, passes)
    ensures BracketsTarget(objective, target, Bisect(objective, target, lo, hi, mid, maxIteration))
    decreases 16 - passes
  {
    if passes < 16 {
      SearchStateNext(objective, target, lo, hi, mid, maxIteration, passes);
      var m := lo + (hi - lo) / 2.0;
      if objective(m) < target {
        BisectBrackets(objective, target, lo, m, m, maxIteration - 1, passes + 1);
      } else {
        BisectBrackets(objective, target, m, hi, m, maxIteration - 1, passes + 1);
      }
    } else {
      SearchStateLast(objective, target, lo, hi, mid, maxIteration, passes);
    }
  }

  /** The solver's answer is strictly inside (0, 4000) and brackets the
      target within 4000/2^16. */
  lemma ExpectedRatingBrackets(objective: real -> real, target: real)
    ensures BracketsTarget(objective, target, ExpectedRating(objective, target))
  {
    BisectBrackets(objective, target, SearchLow, SearchHigh, SearchLow, MaxIteration, 0);
  }

  /** When the objective strictly decreases, the answer is within 4000/2^16
      of any exact solution in [0, 4000]. */
  lemma ExpectedRatingNearRoot(objective: real -> real, target: real, root: real)
    requires StrictlyDecreasing(objective)
    requires 0.0 <= root <= 4000.0 && objective(root) == target
    ensures var r := ExpectedRating(objective, target);
      r - FinalWidth <= root <= r + FinalWidth
  {
    ExpectedRatingBrackets(objective, target);
    var r := ExpectedRating(objective, target);
    if objective(r) >= target {
      assert r <= root;
    } else {
      assert root <= r;
    }
  }

  /** One unfolding of the loop's function, with the two branches apart. */
  lemma BisectStep(objective: real -> real, target: real,
                   lo: real, hi: real, mid: real, maxIteration: int)
    requires hi - lo > Tolerance && maxIteration >= 0
    ensures var m := lo + (hi - lo) / 2.0;
      && (objective(m) < target ==>
            Bisect(objective, target, lo, hi, mid, maxIteration)
            == Bisect(objective, target, lo, m, m, maxIteration - 1))
      && (objective(m) >= target ==>
            Bisect(objective, target, lo, hi, mid, maxIteration)
            == Bisect(objective, target, m, hi, m, maxIteration - 1))
  {
  }

  /** One pass of the bisection loop: probe the midpoint and keep the half
      in which the objective crosses the target. The pass keeps the loop's
      state, one halving further, and the loop's function goes on from the
      new state to the same answer. */
  method SearchPass(objective: real -> real, target: real,
                    lo: real, hi: real, mid: real, maxIteration: int, ghost passes: nat)
    returns (lo': real, hi': real, mid': real)
    requires SearchState(objective, target, lo, hi, mid, maxIteration, passes)
    requires hi - lo > Tolerance && maxIteration >= 0
    ensures SearchState(objective, target, lo', hi', mid', maxIteration - 1, passes + 1)
    ensures Bisect(objective, target, lo', hi', mid', maxIteration - 1)
         == Bisect(objective, target, lo, hi, mid, maxIteration)
  {
    WidthThreshold(passes);
    SearchStateNext(objective, target, lo, hi, mid, maxIteration, passes);
    mid' := lo + (hi - lo) / 2.0;
    var approximation := objective(mid');
    BisectStep(objective, target, lo, hi, mid, maxIteration);
    if approximation < target {
      lo', hi' := lo, mid';
    } else {
      lo', hi' := mid', hi;
    }
  }

  /** The bisection loop of `predict_contest`, equal to the function that
      specifies it. It makes exactly 16 passes (`passes`), so its budget of
      25 never binds, and it returns the last midpoint, which brackets the
      target within 4000/2^16. */
  method SearchExpectedRating(objective: real -> real, target: real)
    returns (expectedRating: real, ghost passes: nat)
    ensures expectedRating == ExpectedRating(objective, target)
    ensures passes == 16
    ensures BracketsTarget(objective, target, expectedRating)
  {
    var lo, hi := SearchLow, SearchHigh;
    var maxIteration := MaxIteration;
    var mid := SearchLow;
    passes := 0;
    while hi - lo > Tolerance && maxIteration >= 0
      invariant SearchState(objective, target, lo, hi, mid, maxIteration, passes)
      invariant Bisect(objective, target, lo, hi, mid, maxIteration) == ExpectedRating(objective, target)
      decreases maxIteration + 1
    {
      lo, hi, mid := SearchPass(objective, target, lo, hi, mid, maxIteration, passes);
      maxIteration := maxIteration - 1;
      passes := passes + 1;
    }
    WidthThreshold(passes);
    SearchStateLast(objective, target, lo, hi, mid, maxIteration, passes);
    expectedRating := mid;
  }

  /** `target = mean_rank - 1` for contestant i; never negative, since both
      the expected and the actual rank are at least 1. */
  function Target(pow10: real -> real, sqrt: real -> real, ratings: seq<real>, ranks: seq<int>, i: int): (t: real)
    requires IsPow10(pow10) && IsSqrt(sqrt)
    requires |ranks| == |ratings| && 0 <= i < |ratings|
    requires ranks[i] >= 1
    ensures t >= 0.0
  {
    MeanRank(sqrt, ExpectedRank(pow10, ratings, i), ranks[i] as real) - 1.0
  }

  /** `expected_rating` of contestant i: strictly inside (0, 4000). */
  function ContestantExpectedRating(pow10: real -> real, sqrt: real -> real,
                                    ratings: seq<real>, ranks: seq<int>, i: int): (r: real)
    requires IsPow10(pow10) && IsSqrt(sqrt)
    requires |ranks| == |ratings| && 0 <= i < |ratings|
    requires ranks[i] >= 1
    ensures 0.0 < r < 4000.0
  {
    ExpectedRating(Objective(pow10, ratings), Target(pow10, sqrt, ratings, ranks, i))
  }

  /** Between two contestants with the same old rating, the better-ranked one
      has the smaller target. */
  lemma BetterRankLowerTarget(pow10: real -> real, sqrt: real -> real,
                              ratings: seq<real>, ranks: seq<int>, i: int, j: int)
    requires IsPow10(pow10) && IsSqrt(sqrt)
    requires |ranks| == |ratings| && 0 <= i < |ratings| && 0 <= j < |ratings|
    requires 1 <= ranks[i] < ranks[j]
    requires ratings[i] == ratings[j]
    ensures Target(pow10, sqrt, ratings, ranks, i) < Target(pow10, sqrt, ratings, ranks, j)
  {
    var e := ExpectedRank(pow10, ratings, i);
    assert ExpectedRank(pow10, ratings, j) == e by {
      assert WinSum(pow10, ratings, ratings[j]) == WinSum(pow10, ratings, ratings[i]);
    }
    MeanRankIncreasing(sqrt, e, ranks[i] as real, ranks[j] as real);
  }

  /** Between two contestants with the same old rating, the better-ranked one
      gets an expected rating at least as high. */
  lemma BetterRankNoLowerExpectedRating(pow10: real -> real, sqrt: real -> real,
                                        ratings: seq<real>, ranks: seq<int>, i: int, j: int)
    requires IsPow10(pow10) && IsSqrt(sqrt)
    requires |ranks| == |ratings| && 0 <= i < |ratings| && 0 <= j < |ratings|
    requires 1 <= ranks[i] < ranks[j]
    requires ratings[i] == ratings[j]
    ensures ContestantExpectedRating(pow10, sqrt, ratings, ranks, j)
         <= ContestantExpectedRating(pow10, sqrt, ratings, ranks, i)
  {
    BetterRankLowerTarget(pow10, sqrt, ratings, ranks, i, j);
    ExpectedRatingMonotone(Objective(pow10, ratings), Target(pow10, sqrt, ratings, ranks, i),
                           Target(pow10, sqrt, ratings, ranks, j));
  }
}
