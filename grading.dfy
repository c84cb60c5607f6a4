/** The grade-computation engine of moodletools.

    A percentage score is mapped onto the German grade scale, where 1.0 is the
    best grade, 4.0 the worst passing grade and 5.0 a fail.  Between the two
    configured thresholds the grade is interpolated linearly and truncated to
    one decimal; the numeric grade is then classified into one of five groups,
    each with a fixed label and a failed flag.

    Percentages, thresholds and grades are modelled as `real`, so the model is
    the exact arithmetic the source intends, without IEEE-754 rounding. */
module Grading {

  /** The record `grade` returns: the input, the numeric grade and its
      classification. */
  datatype ComputedGrade = ComputedGrade(
    percent: real,
    grade: real,
    gradeStr: string,
    gradeStrGroup: nat,
    failed: bool)

  /** What the label ladder yields for one numeric grade. */
  datatype GradeClass = GradeClass(group: nat, name: string, failed: bool)

  const DefaultMinThresholdPercent: real := 50.0
  const DefaultMaxThresholdPercent: real := 90.0

  /** The labels of groups 0 (best) to 4 (failed). */
  const Labels: seq<string> := ["sehr gut", "gut", "befriedigend", "ausreichend", "nicht ausreichend"]

  /** The inclusive upper bound of the grades in groups 0 to 3, ascending;
      a grade above the last one is in group 4. */
  const Cutoffs: seq<real> := [1.5, 2.5, 3.5, 4.0]

  // ---------------------------------------------------------------------------
  // Truncation to one decimal

  /** Python's `int` applied to a number: truncation toward zero. */
  function TruncateTowardZero(x: real): (n: int)
    ensures 0.0 <= x ==> 0 <= n && n as real <= x < n as real + 1.0
    ensures x < 0.0 ==> n <= 0 && n as real - 1.0 < x <= n as real
  {
    if x >= 0.0 then x.Floor else -((-x).Floor)
  }

  /** `x` is a multiple of 0.1. */
  predicate IsTenth(x: real) {
    (x * 10.0).Floor as real == x * 10.0
  }

  /** The source's `_truncate`: cut `value` to one decimal, toward zero.
      The result is the multiple of 0.1 nearest to `value` on the side of 0. */
  function Truncate(value: real): (r: real)
    ensures IsTenth(r)
    ensures 0.0 <= value ==> 0.0 <= r <= value < r + 0.1
    ensures value < 0.0 ==> r - 0.1 < value <= r <= 0.0
  {
    TruncateTowardZero(value * 10.0) as real / 10.0
  }

  /** On the non-negative values the engine passes to it, truncation toward
      zero is the floor of the scaled value. */
  lemma TruncateIsFloorOnNonNegative(value: real)
    requires 0.0 <= value
    ensures Truncate(value) == (value * 10.0).Floor as real / 10.0
  {
  }

  /** A multiple of 0.1 is left unchanged. */
  lemma TruncateFixesTenths(t: real)
    requires IsTenth(t)
    ensures Truncate(t) == t
  {
    var k := (t * 10.0).Floor;
    assert t * 10.0 == k as real;
    assert TruncateTowardZero(t * 10.0) == k;
  }

  /** Truncating twice is truncating once. */
  lemma TruncateIdempotent(value: real)
    ensures Truncate(Truncate(value)) == Truncate(value)
  {
    TruncateFixesTenths(Truncate(value));
  }

  /** Truncation never reverses the order of two values. */
  lemma TruncateMonotone(v1: real, v2: real)
    requires v1 <= v2
    ensures Truncate(v1) <= Truncate(v2)
  {
    var n1, n2 := TruncateTowardZero(v1 * 10.0), TruncateTowardZero(v2 * 10.0);
    if 0.0 <= v1 {
      assert n1 as real <= v2 * 10.0;
      assert n1 <= n2;
    } else if v2 < 0.0 {
      assert v1 * 10.0 <= n2 as real;
      assert n1 <= n2;
    }
  }

  /** For `value >= 0` the result is the greatest multiple of 0.1 not above it. */
  lemma TruncateIsGreatestTenthBelow(value: real, t: real)
    requires 0.0 <= value && IsTenth(t) && t <= value
    ensures t <= Truncate(value)
  {
    var k := (t * 10.0).Floor;
    assert k as real <= value * 10.0;
    assert k <= TruncateTowardZero(value * 10.0);
  }

  /** For `value >= 0` and a multiple of 0.1 `t`: the truncation is at most `t`
      exactly when `value` lies below the next multiple of 0.1 above `t`. */
  lemma TruncateAtMostTenth(value: real, t: real)
    requires 0.0 <= value && IsTenth(t)
    ensures Truncate(value) <= t <==> value < t + 0.1
  {
    var r := Truncate(value);
    var k, m := (t * 10.0).Floor, (r * 10.0).Floor;
    if value < t + 0.1 {
      assert (m as real) < (k as real) + 1.0;
      assert m <= k;
    }
  }

  // ---------------------------------------------------------------------------
  // The label ladder

  /** The source's `_gradestr`: classify a numeric grade into a group, its
      label and whether it is a fail. */
  function GradeStr(grade: real): (c: GradeClass)
    ensures c.group < |Labels| && c.name == Labels[c.group]
    ensures c.failed <==> c.group == |Labels| - 1
  {
    if grade <= 1.5 then GradeClass(0, "sehr gut", false)
    else if grade <= 2.5 then GradeClass(1, "gut", false)
    else if grade <= 3.5 then GradeClass(2, "befriedigend", false)
    else if grade <= 4.0 then GradeClass(3, "ausreichend", false)
    else GradeClass(4, "nicht ausreichend", true)
  }

  /** The number of cutoffs in `cs` that `grade` lies strictly above. */
  function CutoffsExceeded(grade: real, cs: seq<real>): (n: nat)
    ensures n <= |cs|
  {
    if cs == [] then 0
    else (if grade > cs[0] then 1 else 0) + CutoffsExceeded(grade, cs[1..])
  }

  /** The group of a grade is the number of group bounds it exceeds. */
  lemma GroupCountsExceededCutoffs(grade: real)
    ensures GradeStr(grade).group == CutoffsExceeded(grade, Cutoffs)
  {
    var cs := Cutoffs;
    assert cs[1..][1..][1..][1..] == [];
    assert CutoffsExceeded(grade, cs[1..][1..][1..]) == if grade > 4.0 then 1 else 0;
    assert CutoffsExceeded(grade, cs[1..][1..]) == CutoffsExceeded(grade, [4.0]) + if grade > 3.5 then 1 else 0;
    assert CutoffsExceeded(grade, cs[1..]) == CutoffsExceeded(grade, [3.5, 4.0]) + if grade > 2.5 then 1 else 0;
  }

  /** A worse (numerically larger) grade never lands in a better group. */
  lemma GroupMonotone(g1: real, g2: real)
    requires g1 <= g2
    ensures GradeStr(g1).group <= GradeStr(g2).group
  {
  }

  /** Each group has exactly one label, and no two groups share one. */
  lemma LabelIdentifiesGroup(g1: real, g2: real)
    ensures GradeStr(g1).name == GradeStr(g2).name <==> GradeStr(g1).group == GradeStr(g2).group
  {
  }

  /** A grade fails exactly when it is above 4.0. */
  lemma FailsIffAboveFour(grade: real)
    ensures GradeStr(grade).failed <==> grade > 4.0
  {
  }

  // ---------------------------------------------------------------------------
  // The engine

  /** The source's `GradeComputation` object: two thresholds fixed at
      construction.  Any two real thresholds are accepted; nothing is
      demanded of their order. */
  datatype GradeComputation = GradeComputation(minThresholdPercent: real, maxThresholdPercent: real)
  {
    /** The source's `_compute_grade`. */
    function ComputeGrade(percent: real): (grade: real)
      ensures IsTenth(grade)
      ensures 1.0 <= grade <= 5.0
      ensures percent < minThresholdPercent ==> grade == 5.0
      ensures minThresholdPercent <= percent ==> grade <= 4.0
    {
      if percent < minThresholdPercent then 5.0
      else if percent >= maxThresholdPercent then 1.0
      else
        var ratio := Ratio(percent);
        Truncate(4.0 - ratio * 3.0)
    }

    /** The width of the band in which the grade is interpolated. */
    function Span(): real {
      maxThresholdPercent - minThresholdPercent
    }

    /** How far `percent` has come from the lower to the upper threshold.
        The interpolation branch is reached only when min <= percent < max,
        so the divisor is positive. */
    function Ratio(percent: real): (ratio: real)
      requires minThresholdPercent <= percent < maxThresholdPercent
      ensures 0.0 <= ratio < 1.0
      ensures ratio * Span() == percent - minThresholdPercent
    {
      QuotientBounds(percent, minThresholdPercent, Span());
      (percent - minThresholdPercent) / Span()
    }

    /** The source's `grade`: the full record for one percentage. */
    function Grade(percent: real): (r: ComputedGrade)
      ensures r.percent == percent
      ensures r.grade == ComputeGrade(percent)
      ensures GradeClass(r.gradeStrGroup, r.gradeStr, r.failed) == GradeStr(r.grade)
      ensures r.failed <==> percent < minThresholdPercent
    {
      var grade := ComputeGrade(percent);
      var GradeClass(group, name, failed) := GradeStr(grade);
      ComputedGrade(percent, grade, name, group, failed)
    }

    /** Below the lower threshold the result is always the fail grade. */
    lemma BelowMinFails(percent: real)
      requires percent < minThresholdPercent
      ensures Grade(percent) == ComputedGrade(percent, 5.0, "nicht ausreichend", 4, true)
    {
    }

    /** At or above both thresholds the result is always the best grade. */
    lemma AtOrAboveMaxIsBest(percent: real)
      requires minThresholdPercent <= percent && maxThresholdPercent <= percent
      ensures Grade(percent) == ComputedGrade(percent, 1.0, "sehr gut", 0, false)
    {
    }

    /** Exactly at the lower threshold (below the upper one) the grade is the
        worst passing one. */
    lemma AtMinIsSufficient()
      requires minThresholdPercent < maxThresholdPercent
      ensures Grade(minThresholdPercent) == ComputedGrade(minThresholdPercent, 4.0, "ausreichend", 3, false)
    {
      TruncateFixesTenths(4.0);
    }

    /** Between the thresholds the grade is in [1.0, 4.0], and so never a fail. */
    lemma InterpolationPasses(percent: real)
      requires minThresholdPercent <= percent < maxThresholdPercent
      ensures 1.0 <= Grade(percent).grade <= 4.0
      ensures Grade(percent).gradeStrGroup <= 3 && !Grade(percent).failed
    {
    }

    /** The exact, untruncated linear grade between the thresholds. */
    function ExactGrade(percent: real): (exact: real)
      requires minThresholdPercent <= percent < maxThresholdPercent
      ensures 1.0 < exact <= 4.0
    {
      4.0 - 3.0 * Ratio(percent)
    }

    /** Between the thresholds the grade is the greatest multiple of 0.1 that
        does not exceed the exact linear grade. */
    lemma InterpolationIsGreatestTenthBelowExact(percent: real, t: real)
      requires minThresholdPercent <= percent < maxThresholdPercent
      ensures ComputeGrade(percent) <= ExactGrade(percent) < ComputeGrade(percent) + 0.1
      ensures IsTenth(t) && t <= ExactGrade(percent) ==> t <= ComputeGrade(percent)
    {
      if IsTenth(t) && t <= ExactGrade(percent) {
        TruncateIsGreatestTenthBelow(ExactGrade(percent), t);
      }
    }

    /** A higher percentage never gives a numerically worse grade. */
    lemma ComputeGradeMonotone(p1: real, p2: real)
      requires p1 <= p2
      ensures ComputeGrade(p1) >= ComputeGrade(p2)
    {
      if minThresholdPercent <= p1 && p2 < maxThresholdPercent {
        RatioMonotone(p1, p2);
        TruncateMonotone(ExactGrade(p2), ExactGrade(p1));
      }
    }

    /** Between the thresholds the ratio grows with the percentage. */
    lemma RatioMonotone(p1: real, p2: real)
      requires minThresholdPercent <= p1 <= p2 < maxThresholdPercent
      ensures Ratio(p1) <= Ratio(p2)
    {
      var r1, r2 := Ratio(p1), Ratio(p2);
      assert r1 * Span() <= r2 * Span();
      ScaledComparison(r1, r2, Span());
    }

    /** A higher percentage never lands in a worse group. */
    lemma GradeGroupMonotone(p1: real, p2: real)
      requires p1 <= p2
      ensures Grade(p2).gradeStrGroup <= Grade(p1).gradeStrGroup
    {
      ComputeGradeMonotone(p1, p2);
      GroupMonotone(ComputeGrade(p2), ComputeGrade(p1));
    }

    /** The grade key: between the thresholds, a grade `g` (a multiple of
        0.1) or better is earned exactly by the percentages more than the
        fraction KeyFraction(g) = (3.9 - g) / 3 of the way from min to max. */
    lemma EarnsGradeIff(percent: real, g: real)
      requires minThresholdPercent <= percent < maxThresholdPercent
      requires IsTenth(g)
      ensures ComputeGrade(percent) <= g <==> percent > minThresholdPercent + KeyFraction(g) * Span()
    {
      TruncatedLinearGradeAtMost(Ratio(percent), g);
      RatioAboveIff(percent, KeyFraction(g));
    }

    /** Between the thresholds, the ratio exceeds q exactly when the
        percentage lies beyond the fraction q of the band. */
    lemma RatioAboveIff(percent: real, q: real)
      requires minThresholdPercent <= percent < maxThresholdPercent
      ensures Ratio(percent) > q <==> percent > minThresholdPercent + q * Span()
    {
      ScaledComparison(Ratio(percent), q, Span());
    }
  }

  /** The fraction of the band from min to max that a percentage has to
      exceed for the grade `g` or better. */
  function KeyFraction(g: real): real {
    (3.9 - g) / 3.0
  }

  /** The truncated linear grade 4 - 3 * ratio is at most the multiple of 0.1
      `g` exactly when the ratio exceeds (3.9 - g) / 3. */
  lemma TruncatedLinearGradeAtMost(ratio: real, g: real)
    requires 0.0 <= ratio < 1.0 && IsTenth(g)
    ensures Truncate(4.0 - ratio * 3.0) <= g <==> ratio > KeyFraction(g)
  {
    TruncateAtMostTenth(4.0 - ratio * 3.0, g);
  }

  // Arithmetic facts about products.  Their arguments are kept to names and
  // calls, so that the products they mention are the ones the callers use.

  /** (p - lo) / d lies in [0, 1) when p lies in [lo, lo + d). */
  lemma QuotientBounds(p: real, lo: real, d: real)
    requires lo <= p < lo + d
    ensures 0.0 <= (p - lo) / d < 1.0 && (p - lo) / d * d == p - lo
  {
  }

  /** Scaling by a positive factor keeps the order of two numbers, both ways. */
  lemma ScaledComparison(a: real, b: real, c: real)
    requires 0.0 < c
    ensures a > b <==> a * c > b * c
  {
  }

  /** The engine as constructed without arguments: pass from 50 %, best grade
      from 90 %. */
  const Default: GradeComputation := GradeComputation(DefaultMinThresholdPercent, DefaultMaxThresholdPercent)

  /** Worked values of the default engine. */
  lemma DefaultScenarios()
    ensures Default.Grade(95.0) == ComputedGrade(95.0, 1.0, "sehr gut", 0, false)
    ensures Default.Grade(100.0) == ComputedGrade(100.0, 1.0, "sehr gut", 0, false)
    ensures Default.Grade(50.0) == ComputedGrade(50.0, 4.0, "ausreichend", 3, false)
    ensures Default.Grade(49.999) == ComputedGrade(49.999, 5.0, "nicht ausreichend", 4, true)
    ensures Default.Grade(0.0) == ComputedGrade(0.0, 5.0, "nicht ausreichend", 4, true)
    ensures Default.Grade(70.0) == ComputedGrade(70.0, 2.5, "gut", 1, false)
    ensures Default.Grade(60.0) == ComputedGrade(60.0, 3.2, "befriedigend", 2, false)
    ensures Default.Grade(89.9) == ComputedGrade(89.9, 1.0, "sehr gut", 0, false)
  {
    assert Default.Ratio(70.0) == 0.5;
    TruncateFixesTenths(2.5);
    assert Default.Ratio(60.0) == 0.25;
    TruncateAtMostTenth(3.25, 3.2);
    TruncateIsGreatestTenthBelow(3.25, 3.2);
    assert Default.Ratio(89.9) == 0.9975;
    TruncateAtMostTenth(1.0075, 1.0);
  }
}
