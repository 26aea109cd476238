# Contest rating prediction, modelled in Dafny

This project models the rating arithmetic of the contest rating predictor in
`app/core/predictor.py`. When a contest ends, every contestant's record has
a rank, an old rating and a count of contests attended before. For each
contestant the predictor does the following:

- It sums Elo win probabilities against the whole field to get an expected rank.
- It takes the geometric mean of the expected rank and the actual rank.
- It bisects on `[0, 4000]` for the rating at which the expected number of contestants who beat that rating meets the mean rank minus one. That rating is the expected rating.
- It damps the move from the old rating towards the expected rating. The damping coefficient is `1 / (1 + Σ_{i=0..k} (5/7)^i)`, where k is the number of contests attended before.
- It writes the rating change, the new rating and one shared prediction time back into each record.
- For biweekly contests (a name starting with "bi" once lower-cased), it flags the new ratings to be copied to the users at once.

The model has five modules:

- `Numeric` (`numeric.dfy`): sums of reals and small facts of ordered-field arithmetic that the proofs share.
- `Series` (`series.dfy`): `pre_sum_of_sigma` and `adjustment_for_delta_coefficient`. These are exact rational functions with an error result for a negative index.
- `WinRate` (`win_rate.dfy`): `expected_win_rate` and its sum. 10^x is a parameter `pow10` of which only three facts are known (`IsPow10`): it is positive, it maps 0 to 1, and it is strictly increasing.
- `Solver` (`solver.dfy`): the per-contestant solver.
  - The bisection loop is a `while` loop (`SearchExpectedRating`). It is proved equal to a recursive function of the loop state (`Bisect`), and its bracketing, width and pass count are proved outright.
  - sqrt is a parameter constrained by `IsSqrt`.
- `Predictor` (`predictor.dfy`): the body of `predict_contest`.
  - A `ContestRecord` class holds the fields the predictor reads and writes.
  - The records are an `array` of such objects.
  - The first loop builds the expected-rating and coefficient lists (`SolveContestants`).
  - The second loop writes the results into the records in place (`StoreResults`).
  - The contest-name flag is modelled as a string predicate.

Arithmetic is exact over `real`.

Where the code departs from what a reader might expect, the model follows the code:

- The solver returns the last `mid` it computed (`app/core/predictor.py:96`), an endpoint of the final interval, not its midpoint.
- The loop budget of 25 iterations never binds. The width test alone stops the loop after exactly 16 halvings.
- A strictly better rank does not always give a strictly higher new rating, for equal old ratings and equal counts: the bisection returns a point of a grid of width 4000/2^16, so two different targets can give the same expected rating. Only the non-strict order is proved.
- The contest is stamped with a fresh `utcnow()` (`app/core/predictor.py:139`), not with the prediction time written into the records.

## Model

| member | source | states |
|---|---|---|
| Numeric.Sum | app/core/predictor.py:90 | `np.sum`: a sum of entries that are never negative is never negative |
| Series.PreSumOfSigma | app/core/predictor.py:14-23 | fails with the negative index exactly when k < 0; otherwise equals the closed form 7/2·(1-(5/7)^(k+1)) and lies in [1, 7/2) |
| Series.PreSumIsForwardSum | app/core/predictor.py:29 | the recursive partial sum equals the forward sum of (5/7)^i for i in 0..k |
| Series.PreSumIncreasing | app/core/predictor.py:23 | the partial sums strictly increase with k |
| Series.AdjustmentForDeltaCoefficient | app/core/predictor.py:26-35 | fails exactly on a negative count, with the series' error; otherwise lies in (2/9, 1/2], and is exactly 1/2 at k = 0 |
| Series.CoefficientDecreasing | app/core/predictor.py:31-35 | more prior contests give a strictly smaller coefficient |
| Series.CoefficientNearLimit | app/core/predictor.py:31 | the coefficient exceeds 2/9 by a positive amount below (5/7)^(k+1), so it converges to 2/9 |
| Series.CoefficientSettledBy60 | app/core/predictor.py:31 | from k = 60 on, the coefficient is within 10^-6 of 2/9 |
| WinRate.Pow10Exists | app/core/predictor.py:47 | some function is positive, maps 0 to 1 and strictly increases, so the 10^x the model assumes can exist |
| WinRate.WinRate | app/core/predictor.py:47 | a win probability is strictly between 0 and 1, and exactly 1/2 between equal ratings |
| WinRate.WinRateDecreasing | app/core/predictor.py:47 | a higher opponent rating gives a strictly lower win probability |
| WinRate.ExpectedWinRate | app/core/predictor.py:38-47 | one entry per input rating; each in (0, 1); exactly 1/2 where the rating equals the scalar |
| WinRate.ExpectedWinRateDecreasing | app/core/predictor.py:38-47 | entry by entry, strictly decreasing in the scalar |
| WinRate.WinSum | app/core/predictor.py:82 | `np.sum(expected_win_rate(...))` lies between 0 and the field size, strictly so over a non-empty field |
| WinRate.WinSumDecreasing | app/core/predictor.py:90 | over a non-empty field, the summed win probabilities strictly decrease in the candidate rating |
| WinRate.SelfTermIsHalf | app/core/predictor.py:80-82 | the sum over the whole field at a contestant's own rating is 1/2 plus the sum over everybody else |
| Solver.ExpectedRank | app/core/predictor.py:80-82 | the expected rank is 1 plus the win-probability sum over the other contestants, and lies in [1, n] |
| Solver.MeanRank | app/core/predictor.py:83 | the mean rank lies between the expected rank and the actual rank |
| Solver.MeanRankIncreasing | app/core/predictor.py:83 | for a fixed positive expected rank, a worse actual rank gives a strictly larger mean rank |
| Solver.WidthThreshold | app/core/predictor.py:85-88 | the interval width exceeds 0.1 exactly before 16 halvings; after 16 it is 4000/2^16 |
| Solver.Objective | app/core/predictor.py:90 | the summed win probabilities as a function of the candidate rating; no contract of its own: ObjectiveDecreasing states that it strictly decreases |
| Solver.ObjectiveDecreasing | app/core/predictor.py:90 | the bisection's objective strictly decreases over a non-empty field |
| Solver.Bisect | app/core/predictor.py:88-95 | the `while` loop as a function of its state (lo, hi, mid, max_iteration); no contract of its own: BisectWithin, BisectMonotone, BisectBrackets and SearchExpectedRating state what it does |
| Solver.ExpectedRating | app/core/predictor.py:85-96 | the solver's answer from [0, 4000] with a budget of 25 lies strictly inside (0, 4000) |
| Solver.BisectWithin | app/core/predictor.py:88-95 | a loop that runs returns a midpoint strictly inside the interval it starts from |
| Solver.BisectMonotone | app/core/predictor.py:88-95 | from the same state, a higher target never gives a higher answer |
| Solver.ExpectedRatingMonotone | app/core/predictor.py:85-96 | a higher target never gives a higher expected rating |
| Solver.SearchStateNext | app/core/predictor.py:88-95 | before 16 halvings the loop guard holds, and either branch of a pass keeps the bracketing state with half the width and one iteration fewer |
| Solver.SearchStateLast | app/core/predictor.py:88-96 | after 16 halvings the guard fails, and the last mid brackets the target |
| Solver.BisectBrackets | app/core/predictor.py:88-96 | from any bracketing state, the loop's answer is inside (0, 4000) and brackets the target within 4000/2^16 |
| Solver.ExpectedRatingBrackets | app/core/predictor.py:85-96 | the expected rating is inside (0, 4000) and brackets the target within 4000/2^16 |
| Solver.ExpectedRatingNearRoot | app/core/predictor.py:85-96 | for a strictly decreasing objective, the expected rating is within 4000/2^16 of any exact solution in [0, 4000] |
| Solver.SearchPass | app/core/predictor.py:89-95 | one pass keeps lo ≤ hi inside [0, 4000], halves the width, keeps mid at one end and the ends bracketing the target, and leads to the same final answer |
| Solver.SearchExpectedRating | app/core/predictor.py:85-96 | the loop returns the function's answer after exactly 16 passes, never exhausting the budget, and that answer brackets the target |
| Solver.ContestantExpectedRating | app/core/predictor.py:80-96 | contestant i's expected rating lies strictly inside (0, 4000) |
| Solver.Target | app/core/predictor.py:87 | the target mean rank minus one is never negative |
| Solver.BetterRankLowerTarget | app/core/predictor.py:82-87 | for equal old ratings, a strictly better rank gives a strictly smaller target |
| Solver.BetterRankNoLowerExpectedRating | app/core/predictor.py:79-96 | for equal old ratings, a strictly better rank gives an expected rating at least as high |
| Predictor.ContestRecord.constructor | app/core/predictor.py:71-73 | a record holds the rank, old rating and attended count it was made with |
| Predictor.LowerChar | app/core/predictor.py:60 | lower-casing a character gives one or two characters and keeps lower-case letters |
| Predictor.LowerCharHead | app/core/predictor.py:60 | a lowered character starts with "b" exactly for b and B, and with "i" exactly for i, I and U+0130 |
| Predictor.Lower | app/core/predictor.py:60 | the model's lower-casing (A-Z and U+0130 only) gives a string at most twice as long, and leaves a string without A-Z and U+0130 unchanged |
| Predictor.LowerStartsWithBi | app/core/predictor.py:60 | a lowered name starts with "bi" exactly when the name's first character is b or B and its second is i, I or U+0130 |
| Predictor.UpdateUsersImmediately | app/core/predictor.py:60 | the flag holds exactly when the name's first character is b or B and its second is i, I or U+0130 |
| Predictor.Ranks | app/core/predictor.py:71 | one rank per record |
| Predictor.OldRatings | app/core/predictor.py:72 | one old rating per record |
| Predictor.AttendedCounts | app/core/predictor.py:73 | one attended count per record |
| Predictor.ExpectedRatings | app/core/predictor.py:79-98 | one expected rating per contestant |
| Predictor.Coefficients | app/core/predictor.py:97-99 | one coefficient per contestant, each in (2/9, 1/2] |
| Predictor.DeltaRatings | app/core/predictor.py:103-105 | one rating change per contestant, aligned with the records |
| Predictor.NewRatings | app/core/predictor.py:106 | one new rating per contestant, aligned with the records |
| Predictor.HalfStep | app/core/predictor.py:106 | a change of the sign of expected minus old and at most half its size leaves the new rating between the two |
| Predictor.DampedStep | app/core/predictor.py:103-106 | a coefficient in (0, 1/2] moves the rating towards the expected rating by at most half the gap, so the result lies between the two |
| Predictor.NewRatingsBetween | app/core/predictor.py:101-106 | every delta has the sign of expected minus old and at most half its size, and every new rating is old plus delta, between the old and the expected rating |
| Predictor.NewRatingsOrdered | app/core/predictor.py:103-106 | with equal old ratings and coefficients, new ratings keep the order of expected ratings |
| Predictor.BetterRankNoLowerNewRating | app/core/predictor.py:79-106 | for equal old ratings and equal counts, a strictly better rank gives a new rating at least as high |
| Predictor.SolveContestant | app/core/predictor.py:80-96 | the loop body's expected rating equals contestant i's specified expected rating |
| Predictor.SolveContestants | app/core/predictor.py:75-99 | succeeds exactly when no count is negative; otherwise fails with the first negative count; on success the two lists are the specified expected ratings and coefficients |
| Predictor.StoreResults | app/core/predictor.py:110-113 | record i receives delta i, new rating i and the shared prediction time; rank, old rating and count are unchanged |
| Predictor.PredictContest | app/core/predictor.py:51-113 | fails exactly on a negative count, leaving every record untouched; otherwise writes the specified delta, new rating and prediction time into each record, changes no input field, and returns the "bi" flag |

## Left out

- Database access is not modelled: the record query, `record.save`, the user updates and the contest update (`app/core/predictor.py:62-69`, `114-142`). The records are an input array, and the prediction time is a parameter. The user updates are reduced to the flag that `PredictContest` returns. With an empty record array, no record changes, and the contest stamp at line 136 would still run.
- The `asyncio.gather` fan-outs, logging, the `exception_logger_reraise` decorator, `@lru_cache` memoisation and numba compilation are not modelled. None of them changes a value the model computes, but the recursion behind the cache can raise, as the next two lines say.
- PreSumOfSigma: the RecursionError for large k is not modelled. The recursion at `app/core/predictor.py:23` goes k frames deep, and the 128-entry cache does not hold the whole chain, so an uncached k near Python's recursion limit (1000 by default) raises. The model returns a value for every k >= 0.
- AdjustmentForDeltaCoefficient: inherits the same unmodelled RecursionError for large k through `pre_sum_of_sigma` (`app/core/predictor.py:35`).
- IEEE-754 rounding is not modelled. All arithmetic is exact over `real`.
- 10^x and sqrt are parameters, constrained only by `IsPow10` and `IsSqrt`. No concrete rating value is computed.
- PredictContest: ranks are required to be at least 1, as the contest data gives them. Rank 0 would give target -1, and a negative rank would give NaN from `np.sqrt`, which the model does not represent.
- PredictContest: records are required to be distinct objects. The source's list could alias one object twice, and the last write would win.
- LowerChar: models `str.lower` only for A-Z and U+0130. These are the only characters whose lower case can start with "b" or "i". Every other character is kept as it is.
- Lower: lowers only A-Z and U+0130, as LowerChar does, so it equals `str.lower` only on names without other capitals (`"Ä".lower()` is `"ä"` in Python, but Lower keeps `"Ä"`). UpdateUsersImmediately stays exact, because only B, I and U+0130 lower-case to something starting with "b" or "i".
- Solver.BetterRankNoLowerExpectedRating: proves "at least as high", not "strictly higher": bisection on a grid of width 4000/2^16 can map two different targets to the same point.
- Predictor.BetterRankNoLowerNewRating: proves "at least as high" for the same reason.
- The initial value of `mid` (unbound in the source until the loop runs) is 0 in the model. The loop always runs, so that value is never returned.
