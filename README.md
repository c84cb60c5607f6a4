# Grade computation (moodletools) in Dafny

This project models the grade-computation engine of moodletools, the class
`GradeComputation` in `GradeComputation.py`. An engine is built from two
thresholds, `min_threshold_percent` (default 50) and `max_threshold_percent`
(default 90). For a percentage score it returns a `ComputedGrade` record:

- the percentage itself;
- the numeric grade on the German scale (1.0 best, 4.0 worst pass, 5.0 fail);
- the group index 0 to 4 and its label ("sehr gut", "gut", "befriedigend",
  "ausreichend", "nicht ausreichend");
- a failed flag.

Below `min` the grade is 5.0. At or above `max` it is 1.0. In between it is
interpolated as `4.0 - 3 * ratio` and truncated to one decimal.

The source is pure, so the model is pure too. It lives in one module,
`Grading` (file `grading.dfy`):

- the engine is a datatype `GradeComputation` holding the two thresholds;
  `ComputeGrade` and `Grade` are its member functions;
- the two static helpers `_truncate` and `_gradestr` are the module-level
  functions `Truncate` and `GradeStr`;
- the namedtuple is the datatype `ComputedGrade`, and the tuple that
  `_gradestr` returns is the datatype `GradeClass`.

Percentages, thresholds and grades are Dafny `real`s. Python's `int` truncates
toward zero, and `Truncate` models exactly that for every real. A lemma shows
that on the non-negative values the engine passes to it, this is the floor of
the scaled value.

For finite thresholds and percentages whose differences do not overflow, the
engine demands nothing of its thresholds. The interpolation branch is reached
only when `min <= percent < max`, so the divisor `max - min` is positive
there. The model works on real numbers, which are all of that kind, and so
has no precondition on the thresholds.

Between the thresholds the untruncated grade lies in (1.0, 4.0]. After
truncation it can be exactly 1.0 below `max` (89.9 % with the defaults), so
the interpolated grades cover [1.0, 4.0]. No grade lies strictly between 4.0
and 5.0, so the ladder's fail branch is reached only by the 5.0 below `min`.

The labels are the German strings at GradeComputation.py:38-46.

## Model

| member | source | states |
|---|---|---|
| `Grading.TruncateTowardZero` | GradeComputation.py:33 | Python's `int`: for x >= 0 the result n satisfies n <= x < n + 1; for x < 0 it satisfies n - 1 < x <= n |
| `Grading.Truncate` | GradeComputation.py:31-33 | the result is a multiple of 0.1; for value >= 0 it lies in [0, value] and value - result < 0.1; for value < 0 it lies in [value, 0] and result - value < 0.1 |
| `Grading.TruncateIsFloorOnNonNegative` | GradeComputation.py:33 | for value >= 0, truncation toward zero equals floor(value * 10) / 10 |
| `Grading.TruncateFixesTenths` | GradeComputation.py:32-33 | a multiple of 0.1 is returned unchanged |
| `Grading.TruncateIdempotent` | GradeComputation.py:32-33 | truncating twice gives the same as truncating once |
| `Grading.TruncateMonotone` | GradeComputation.py:32-33 | v1 <= v2 implies Truncate(v1) <= Truncate(v2) |
| `Grading.TruncateIsGreatestTenthBelow` | GradeComputation.py:32-33 | for value >= 0, every multiple of 0.1 at most value is at most Truncate(value): the result is the greatest such multiple |
| `Grading.TruncateAtMostTenth` | GradeComputation.py:32-33 | for value >= 0 and a multiple of 0.1 t: Truncate(value) <= t iff value < t + 0.1 |
| `Grading.GradeStr` | GradeComputation.py:35-46 | the group is in 0..4, the label is the fixed label of that group, and failed holds iff the group is 4 |
| `Grading.GroupCountsExceededCutoffs` | GradeComputation.py:36-46 | the group equals the number of the bounds 1.5, 2.5, 3.5, 4.0 that the grade lies strictly above |
| `Grading.GroupMonotone` | GradeComputation.py:36-46 | g1 <= g2 implies group(g1) <= group(g2) |
| `Grading.LabelIdentifiesGroup` | GradeComputation.py:36-46 | two grades get the same label iff they get the same group |
| `Grading.FailsIffAboveFour` | GradeComputation.py:43-46 | the ladder marks a grade failed iff it is above 4.0 |
| `Grading.GradeComputation.ComputeGrade` | GradeComputation.py:48-55 | total for any real thresholds (finite values, no overflow); the grade is a multiple of 0.1 in [1.0, 5.0]; it is 5.0 below min and at most 4.0 from min on, so no grade lies strictly between 4.0 and 5.0 |
| `Grading.GradeComputation.Ratio` | GradeComputation.py:53-54 | reached only with min <= percent < max; the ratio lies in [0, 1) and ratio * (max - min) == percent - min |
| `Grading.GradeComputation.RatioMonotone` | GradeComputation.py:54 | between the thresholds, p1 <= p2 implies ratio(p1) <= ratio(p2) |
| `Grading.GradeComputation.ExactGrade` | GradeComputation.py:54-55 | the untruncated grade 4 - 3 * ratio lies in (1.0, 4.0] |
| `Grading.GradeComputation.Grade` | GradeComputation.py:57-60 | percent is returned unchanged; grade is ComputeGrade(percent); group, label and failed are GradeStr of that grade; failed holds iff percent < min |
| `Grading.GradeComputation.BelowMinFails` | GradeComputation.py:49-50 | percent < min gives grade 5.0, group 4, "nicht ausreichend", failed |
| `Grading.GradeComputation.AtOrAboveMaxIsBest` | GradeComputation.py:51-52 | percent >= max and percent >= min give grade 1.0, group 0, "sehr gut", not failed |
| `Grading.GradeComputation.AtMinIsSufficient` | GradeComputation.py:53-55 | with min < max, percent == min gives grade 4.0, group 3, "ausreichend", not failed |
| `Grading.GradeComputation.InterpolationPasses` | GradeComputation.py:53-55 | between the thresholds the grade is in [1.0, 4.0], the group at most 3 and the result not failed |
| `Grading.GradeComputation.InterpolationIsGreatestTenthBelowExact` | GradeComputation.py:54-55 | between the thresholds the grade is the greatest multiple of 0.1 not above 4 - 3 * ratio |
| `Grading.GradeComputation.ComputeGradeMonotone` | GradeComputation.py:48-55 | p1 <= p2 implies ComputeGrade(p1) >= ComputeGrade(p2), for any thresholds |
| `Grading.GradeComputation.GradeGroupMonotone` | GradeComputation.py:57-60 | p1 <= p2 implies the group of p2 is at most the group of p1 |
| `Grading.GradeComputation.EarnsGradeIff` | GradeComputation.py:53-55 | between the thresholds and for any multiple of 0.1 g: ComputeGrade(percent) <= g iff percent > min + (3.9 - g) / 3 * (max - min), the grade key a percentage must pass |
| `Grading.DefaultScenarios` | GradeComputation.py:27-29 | with the default thresholds 50 and 90: 95 and 100 give 1.0, 50 gives 4.0, 49.999 and 0 give 5.0 (failed), 70 gives 2.5, 60 gives 3.2, 89.9 gives 1.0 |

## Left out

- `grade_csv.py` is not part of this model. It holds argument parsing, CSV reading and writing, the overwrite check, comma-to-period number parsing, the verbose grade table and the per-cluster report. All of it is I/O and formatting around the engine.
- The "points missing" figure that `grade_csv.py` prints for a failed result is computed by the caller, not by the engine, and is not modelled.
- IEEE-754 floating point is not modelled. The model computes over exact reals, so a float artefact of `int(value * 10) / 10` (for example a product that lands just below a whole number) does not appear in it.
- Non-finite and overflowing floats are not modelled. With a NaN percentage or threshold, min = -inf, or a `percent - min` that overflows, both comparisons at GradeComputation.py:49 and :51 can fail, the ratio at :54 becomes NaN, and `int()` in `_truncate` raises `ValueError`. The model has only finite real numbers, so it has no such values and no such error path.
- Python's dynamic typing is not modelled. The engine is given real numbers only; a call with a non-numeric argument, which would raise in Python, has no counterpart.
