/** `predict_contest`: for every record of a finished contest, the expected
    rating from the solver, the damping coefficient from the number of
    contests attended before, the rating change and the new rating, all
    written back into the records with one shared prediction time. The
    contest name decides whether the users' ratings are overwritten at once.

    The records arrive as an array of distinct objects, sorted by rank, and
    the database reads and writes around them are not modelled: the
    prediction time is a parameter, and the method returns the flag that
    decides whether the users are updated at once. */
module Predictor {
  import opened Numeric
  import opened Series
  import opened WinRate
  import opened Solver

  /** One contestant's row of a contest (a `ContestRecordPredict`): the
      inputs the predictor reads and the three fields it writes. */
  class ContestRecord {
    var rank: int
    var oldRating: real
    var attendedContestsCount: int
    var deltaRating: real
    var newRating: real
    var predictTime: int

    constructor(rank: int, oldRating: real, attendedContestsCount: int)
      ensures this.rank == rank && this.oldRating == oldRating
      ensures this.attendedContestsCount == attendedContestsCount
      ensures deltaRating == 0.0 && newRating == 0.0 && predictTime == 0
    {
      this.rank := rank;
      this.oldRating := oldRating;
      this.attendedContestsCount := attendedContestsCount;
      deltaRating := 0.0;
      newRating := 0.0;
      predictTime := 0;
    }
  }

  // The contest-name flag

  /** Python's `str.lower` on one character, for the characters whose
      lower case can start with "b" or "i": A-Z map to a-z, and the capital
      I with dot above (U+0130) maps to two characters, "i" and the
      combining dot above (U+0307). Every other character is kept. */
  function LowerChar(c: char): (s: string)
    ensures 1 <= |s| <= 2
    ensures !('A' <= c <= 'Z') && c != '\U{0130}' ==> s == [c]
  {
    if 'A' <= c <= 'Z' then [(c as int + 32) as char]
    else if c == '\U{0130}' then "i\U{0307}"
    else [c]
  }

  /** `s` has no capital letter A-Z and no U+0130. */
  predicate HasNoCapital(s: string)
  {
    forall i :: 0 <= i < |s| ==> !('A' <= s[i] <= 'Z') && s[i] != '\U{0130}'
  }

  /** The model's lower-casing of a string, character by character with
      LowerChar: at most twice as long, and unchanged when it has no capital
      letter A-Z and no U+0130. */
  function Lower(s: string): (r: string)
    ensures |s| <= |r| <= 2 * |s|
    ensures HasNoCapital(s) ==> r == s
  {
    if s == [] then [] else LowerChar(s[0]) + Lower(s[1..])
  }

  /** The first character of a lower-cased character is b exactly for b
      and B, and i exactly for i, I and the dotted capital I. */
  lemma LowerCharHead(c: char)
    ensures LowerChar(c)[0] == 'b' <==> c in "bB"
    ensures LowerChar(c)[0] == 'i' <==> c in "iI\U{0130}"
  {
  }

  /** A lower-cased name starts with "bi" exactly when the name's first
      character is b or B and its second is i, I or the dotted capital I. */
  lemma LowerStartsWithBi(contestName: string)
    ensures "bi" <= Lower(contestName) <==>
      && |contestName| >= 2
      && contestName[0] in "bB"
      && contestName[1] in "iI\U{0130}"
  {
    if |contestName| >= 1 {
      var c := contestName[0];
      var lowered := Lower(contestName);
      var rest := Lower(contestName[1..]);
      assert lowered == LowerChar(c) + rest;
      LowerCharHead(c);
      assert lowered[0] == LowerChar(c)[0];
      if c == '\U{0130}' {
        assert lowered[0] == 'i';
      } else if |contestName| >= 2 {
        var d := contestName[1];
        assert rest == LowerChar(d) + Lower(contestName[2..]);
        LowerCharHead(d);
        assert lowered[1] == LowerChar(d)[0];
      } else {
        assert rest == [];
        assert |lowered| == 1;
      }
    }
  }

  /** `update_user_using_prediction`: the lower-cased contest name starts
      with "bi" (biweekly contests), that is, the name itself starts with b
      or B followed by i, I or the dotted capital I. */
  predicate UpdateUsersImmediately(contestName: string): (b: bool)
    ensures b <==>
      && |contestName| >= 2
      && contestName[0] in "bB"
      && contestName[1] in "iI\U{0130}"
  {
    LowerStartsWithBi(contestName);
    "bi" <= Lower(contestName)
  }

  // The per-contestant arrays

  /** The records' objects, as a set for frames. */
  function Objects(records: array<ContestRecord>): set<ContestRecord>
    reads records
  {
    set i | 0 <= i < records.Length :: records[i]
  }

  /** The records are distinct objects. */
  predicate Distinct(records: array<ContestRecord>)
    reads records
  {
    forall i, j :: 0 <= i < j < records.Length ==> records[i] != records[j]
  }

  /** `rank_array`, `rating_array` and `k_array`. */
  function Ranks(records: array<ContestRecord>): (r: seq<int>)
    reads records, Objects(records)
    ensures |r| == records.Length
  {
    seq(records.Length, i reads records, Objects(records) requires 0 <= i < records.Length =>
      records[i].rank)
  }

  function OldRatings(records: array<ContestRecord>): (r: seq<real>)
    reads records, Objects(records)
    ensures |r| == records.Length
  {
    seq(records.Length, i reads records, Objects(records) requires 0 <= i < records.Length =>
      records[i].oldRating)
  }

  function AttendedCounts(records: array<ContestRecord>): (r: seq<int>)
    reads records, Objects(records)
    ensures |r| == records.Length
  {
    seq(records.Length, i reads records, Objects(records) requires 0 <= i < records.Length =>
      records[i].attendedContestsCount)
  }

  /** Every rank is at least 1. */
  predicate PositiveRanks(ranks: seq<int>)
  {
    forall i :: 0 <= i < |ranks| ==> ranks[i] >= 1
  }

  /** Every attended-contest count is a valid series index. */
  predicate NoNegativeCount(counts: seq<int>)
  {
    forall i :: 0 <= i < |counts| ==> counts[i] >= 0
  }

  /** `expected_rating_list` as the loop builds it, one entry per contestant. */
  function ExpectedRatings(pow10: real -> real, sqrt: real -> real,
                           ratings: seq<real>, ranks: seq<int>): (r: seq<real>)
    requires IsPow10(pow10) && IsSqrt(sqrt)
    requires |ranks| == |ratings| && PositiveRanks(ranks)
    ensures |r| == |ratings|
  {
    seq(|ratings|, i requires 0 <= i < |ratings| =>
      ContestantExpectedRating(pow10, sqrt, ratings, ranks, i))
  }

  /** `coefficient_of_delta_list`, one damping coefficient per contestant. */
  function Coefficients(counts: seq<int>): (r: seq<real>)
    requires NoNegativeCount(counts)
    ensures |r| == |counts|
    ensures forall i :: 0 <= i < |r| ==> 2.0 / 9.0 < r[i] <= 0.5
  {
    seq(|counts|, i requires 0 <= i < |counts| => AdjustmentForDeltaCoefficient(counts[i]).value)
  }

  /** How far the expected rating lies above the old one (negative when below). */
  function Gap(previous: real, expected: real): real
  {
    expected - previous
  }

  /** `delta_rating_array = coefficient * (expected - old)`, element-wise. */
  function DeltaRatings(coefficients: seq<real>, expected: seq<real>, ratings: seq<real>): (r: seq<real>)
    requires |coefficients| == |expected| == |ratings|
    ensures |r| == |ratings|
  {
    seq(|ratings|, i requires 0 <= i < |ratings| => coefficients[i] * Gap(ratings[i], expected[i]))
  }

  /** `new_rating_array = old + delta`, element-wise. */
  function NewRatings(ratings: seq<real>, deltas: seq<real>): (r: seq<real>)
    requires |deltas| == |ratings|
    ensures |r| == |ratings|
  {
    seq(|ratings|, i requires 0 <= i < |ratings| => ratings[i] + deltas[i])
  }

  /** A rating change `delta` from `previous` towards `expected` has the
      sign of expected - previous and at most half its size, so the new
      rating previous + delta lies between the two. */
  predicate DampedChange(previous: real, expected: real, delta: real)
  {
    && (previous <= expected ==>
          0.0 <= delta <= (expected - previous) / 2.0 && previous <= previous + delta <= expected)
    && (expected <= previous ==>
          (expected - previous) / 2.0 <= delta <= 0.0 && expected <= previous + delta <= previous)
  }

  /** A change of the sign of expected - previous and at most half its size
      keeps the new rating between the two. */
  lemma HalfStep(previous: real, expected: real, delta: real)
    requires 0.0 <= expected - previous ==> 0.0 <= delta <= (expected - previous) / 2.0
    requires expected - previous <= 0.0 ==> (expected - previous) / 2.0 <= delta <= 0.0
    ensures DampedChange(previous, expected, delta)
  {
  }

  /** A damping coefficient in (0, 1/2] gives such a change. */
  lemma DampedStep(c: real, previous: real, expected: real)
    requires 0.0 < c <= 0.5
    ensures DampedChange(previous, expected, c * Gap(previous, expected))
  {
    var g := expected - previous;
    assert Gap(previous, expected) == g;
    AtMostHalf(c, g);
    HalfStep(previous, expected, c * g);
  }

  /** Element by element, each rating change has the sign of expected - old
      and at most half its size, so each new rating lies between the old and
      the expected rating. */
  lemma NewRatingsBetween(counts: seq<int>, expected: seq<real>, ratings: seq<real>)
    requires NoNegativeCount(counts)
    requires |counts| == |expected| == |ratings|
    ensures var deltas := DeltaRatings(Coefficients(counts), expected, ratings);
      var updated := NewRatings(ratings, deltas);
      forall i :: 0 <= i < |ratings| ==>
        DampedChange(ratings[i], expected[i], deltas[i]) && updated[i] == ratings[i] + deltas[i]
  {
    var coefficients := Coefficients(counts);
    var deltas := DeltaRatings(coefficients, expected, ratings);
    forall i | 0 <= i < |ratings|
      ensures DampedChange(ratings[i], expected[i], deltas[i])
    {
      DampedStep(coefficients[i], ratings[i], expected[i]);
    }
  }

  /** Two contestants with the same old rating and the same coefficient keep
      the order of their expected ratings in their new ratings. */
  lemma NewRatingsOrdered(coefficients: seq<real>, expected: seq<real>, ratings: seq<real>,
                          i: int, j: int)
    requires |coefficients| == |expected| == |ratings|
    requires 0 <= i < |ratings| && 0 <= j < |ratings|
    requires coefficients[i] == coefficients[j] && 0.0 <= coefficients[i]
    requires ratings[i] == ratings[j] && expected[j] <= expected[i]
    ensures var updated := NewRatings(ratings, DeltaRatings(coefficients, expected, ratings));
      updated[j] <= updated[i]
  {
    var c, previous := coefficients[i], ratings[i];
    ScaleMonotone(c, Gap(previous, expected[j]), Gap(previous, expected[i]));
  }

  /** Between two contestants with the same old rating and the same number
      of contests attended, the better-ranked one gets a new rating at least
      as high. */
  lemma BetterRankNoLowerNewRating(pow10: real -> real, sqrt: real -> real,
                                   ranks: seq<int>, ratings: seq<real>, counts: seq<int>,
                                   i: int, j: int)
    requires IsPow10(pow10) && IsSqrt(sqrt)
    requires |ranks| == |ratings| == |counts|
    requires PositiveRanks(ranks) && NoNegativeCount(counts)
    requires 0 <= i < |ratings| && 0 <= j < |ratings|
    requires ranks[i] < ranks[j] && ratings[i] == ratings[j] && counts[i] == counts[j]
    ensures var expected := ExpectedRatings(pow10, sqrt, ratings, ranks);
      var updated := NewRatings(ratings, DeltaRatings(Coefficients(counts), expected, ratings));
      updated[j] <= updated[i]
  {
    var expected := ExpectedRatings(pow10, sqrt, ratings, ranks);
    assert expected[i] == ContestantExpectedRating(pow10, sqrt, ratings, ranks, i);
    assert expected[j] == ContestantExpectedRating(pow10, sqrt, ratings, ranks, j);
    BetterRankNoLowerExpectedRating(pow10, sqrt, ratings, ranks, i, j);
    NewRatingsOrdered(Coefficients(counts), expected, ratings, i, j);
  }

  /** The solved values of the first loop. */
  datatype Solved = Solved(expectedRatings: seq<real>, coefficients: seq<real>)

  /** The body of the first loop for contestant i: expected rank, mean
      rank, target, and the bisection for the expected rating. */
  method SolveContestant(pow10: real -> real, sqrt: real -> real,
                         ranks: seq<int>, ratings: seq<real>, i: int)
    returns (expectedRating: real)
    requires IsPow10(pow10) && IsSqrt(sqrt)
    requires |ranks| == |ratings| && 0 <= i < |ratings| && ranks[i] >= 1
    ensures expectedRating == ContestantExpectedRating(pow10, sqrt, ratings, ranks, i)
    ensures PositiveRanks(ranks) ==> expectedRating == ExpectedRatings(pow10, sqrt, ratings, ranks)[i]
  {
    var expectedRank := ExpectedRank(pow10, ratings, i);
    var meanRank := MeanRank(sqrt, expectedRank, ranks[i] as real);
    var target := meanRank - 1.0;
    ghost var passes;
    expectedRating, passes := SearchExpectedRating(Objective(pow10, ratings), target);
  }

  lemma PrefixExtend<T>(s: seq<T>, i: int)
    requires 0 <= i < |s|
    ensures s[..i + 1] == s[..i] + [s[i]]
  {
  }

  /** One more contestant adds its coefficient at the end of the list. */
  lemma CoefficientsExtend(counts: seq<int>, k: int)
    requires NoNegativeCount(counts) && k >= 0
    ensures NoNegativeCount(counts + [k])
    ensures Coefficients(counts + [k]) == Coefficients(counts) + [AdjustmentForDeltaCoefficient(k).value]
  {
  }

  /** The first loop of `predict_contest`: for each contestant, its expected
      rating by bisection and its damping coefficient. It fails, with the
      series' error, at the first contestant whose attended-contest count is
      negative; otherwise the lists are the ones the functions above define. */
  method SolveContestants(pow10: real -> real, sqrt: real -> real,
                          ranks: seq<int>, ratings: seq<real>, counts: seq<int>)
    returns (result: Result<Solved>)
    requires IsPow10(pow10) && IsSqrt(sqrt)
    requires |ranks| == |ratings| == |counts| && PositiveRanks(ranks)
    ensures result.Ok? <==> NoNegativeCount(counts)
    ensures result.Err? ==>
      (exists i :: && 0 <= i < |counts| && counts[i] < 0
                   && NoNegativeCount(counts[..i]) && result.error == NegativeIndex(counts[i]))
    ensures result.Ok? ==>
      && result.value.expectedRatings == ExpectedRatings(pow10, sqrt, ratings, ranks)
      && result.value.coefficients == Coefficients(counts)
  {
    ghost var expected := ExpectedRatings(pow10, sqrt, ratings, ranks);
    var expectedRatingList: seq<real> := [];
    var coefficientOfDeltaList: seq<real> := [];
    for i := 0 to |ranks|
      invariant NoNegativeCount(counts[..i])
      invariant expectedRatingList == expected[..i]
      invariant coefficientOfDeltaList == Coefficients(counts[..i])
    {
      var expectedRating := SolveContestant(pow10, sqrt, ranks, ratings, i);
      var coefficientOfDelta := AdjustmentForDeltaCoefficient(counts[i]);
      if coefficientOfDelta.Err? {
        return Err(coefficientOfDelta.error);
      }
      PrefixExtend(counts, i);
      PrefixExtend(expected, i);
      CoefficientsExtend(counts[..i], counts[i]);
      expectedRatingList := expectedRatingList + [expectedRating];
      coefficientOfDeltaList := coefficientOfDeltaList + [coefficientOfDelta.value];
    }
    assert counts[..|ranks|] == counts;
    return Ok(Solved(expectedRatingList, coefficientOfDeltaList));
  }

  /** The second loop of `predict_contest`: record i receives delta i, new
      rating i and the shared prediction time; nothing else changes. */
  method StoreResults(records: array<ContestRecord>, deltas: seq<real>, newRatings: seq<real>,
                      predictTime: int)
    requires Distinct(records)
    requires |deltas| == |newRatings| == records.Length
    modifies Objects(records)
    ensures forall i :: 0 <= i < records.Length ==>
      && records[i].deltaRating == deltas[i]
      && records[i].newRating == newRatings[i]
      && records[i].predictTime == predictTime
    ensures forall i :: 0 <= i < records.Length ==>
      && records[i].rank == old(records[i].rank)
      && records[i].oldRating == old(records[i].oldRating)
      && records[i].attendedContestsCount == old(records[i].attendedContestsCount)
  {
    for i := 0 to records.Length
      invariant forall k :: 0 <= k < i ==>
        && records[k].deltaRating == deltas[k]
        && records[k].newRating == newRatings[k]
        && records[k].predictTime == predictTime
      invariant forall k :: 0 <= k < records.Length ==>
        && records[k].rank == old(records[k].rank)
        && records[k].oldRating == old(records[k].oldRating)
        && records[k].attendedContestsCount == old(records[k].attendedContestsCount)
    {
      var record := records[i];
      record.deltaRating := deltas[i];
      record.newRating := newRatings[i];
      record.predictTime := predictTime;
    }
  }

  /** The numeric body of `predict_contest`. With a negative attended-contest
      count the series fails before any record is written. Otherwise every
      record gets its rating change and new rating as the functions above
      define them, and the shared prediction time; the result is the flag
      that sends the new ratings to the users at once. */
  method PredictContest(pow10: real -> real, sqrt: real -> real, contestName: string,
                        records: array<ContestRecord>, predictTime: int)
    returns (result: Result<bool>)
    requires IsPow10(pow10) && IsSqrt(sqrt)
    requires Distinct(records) && PositiveRanks(Ranks(records))
    modifies Objects(records)
    ensures result.Ok? <==> NoNegativeCount(old(AttendedCounts(records)))
    ensures result.Err? ==> unchanged(Objects(records))
    ensures result.Ok? ==> result.value == UpdateUsersImmediately(contestName)
    ensures result.Ok? ==>
      var ratings := old(OldRatings(records));
      var expected := ExpectedRatings(pow10, sqrt, ratings, old(Ranks(records)));
      var deltas := DeltaRatings(Coefficients(old(AttendedCounts(records))), expected, ratings);
      var updated := NewRatings(ratings, deltas);
      forall i :: 0 <= i < records.Length ==>
        && records[i].deltaRating == deltas[i]
        && records[i].newRating == updated[i]
        && records[i].predictTime == predictTime
        && records[i].rank == old(records[i].rank)
        && records[i].oldRating == old(records[i].oldRating)
        && records[i].attendedContestsCount == old(records[i].attendedContestsCount)
  {
    var updateUserUsingPrediction := UpdateUsersImmediately(contestName);
    var rankArray := Ranks(records);
    var ratingArray := OldRatings(records);
    var kArray := AttendedCounts(records);
    var solved := SolveContestants(pow10, sqrt, rankArray, ratingArray, kArray);
    if solved.Err? {
      return Err(solved.error);
    }
    var deltaRatingArray := DeltaRatings(solved.value.coefficients, solved.value.expectedRatings, ratingArray);
    var newRatingArray := NewRatings(ratingArray, deltaRatingArray);
    StoreResults(records, deltaRatingArray, newRatingArray, predictTime);
    return Ok(updateUserUsingPrediction);
  }
}
