/**
  The quality grader: count the significant points of a comparison batch,
  turn the count into a pass rate (the percentage of points that are not
  significant), and map the pass rate to one of four ordinal grades.
 */
module Grader {
  import opened Pixels
  import opened Comparator

  /** Lower bounds of the grades, each inclusive, as percentages. */
  const ExcellentThreshold: real := 95.0
  const GoodThreshold: real := 87.5
  const AcceptableThreshold: real := 75.0

  datatype Grade = Excellent | Good | Acceptable | Fail {
    function Name(): string {
      match this
      case Excellent => "EXCELLENT"
      case Good => "GOOD"
      case Acceptable => "ACCEPTABLE"
      case Fail => "FAIL"
    }

    function Description(): string {
      match this
      case Excellent => "No significant pixel defects detected. Image is suitable for production use."
      case Good => "Minor pixel defects detected but within acceptable limits. Image quality is good."
      case Acceptable => "Some pixel defects detected but still within acceptable range. Consider monitoring."
      case Fail => "Significant pixel defects detected. Image quality is below acceptable standards."
    }

    /** Position in the order FAIL < ACCEPTABLE < GOOD < EXCELLENT. */
    function Rank(): nat {
      match this
      case Fail => 0
      case Acceptable => 1
      case Good => 2
      case Excellent => 3
    }
  }

  /** The grade label and description for a pass rate, as the pair the
      report prints. */
  function CalculateQualityGrade(passRate: real): (result: (string, string))
    ensures result.0 == GradeOf(passRate).Name()
    ensures result.1 == GradeOf(passRate).Description()
  {
    var g := GradeOf(passRate);
    (g.Name(), g.Description())
  }

  /** The bands tested from the highest down; the first lower bound the pass
      rate reaches decides. The grade given is the highest one the rate
      qualifies for. */
  function GradeOf(passRate: real): (grade: Grade)
    ensures Qualifies(grade, passRate)
    ensures forall g: Grade :: g.Rank() > grade.Rank() ==> !Qualifies(g, passRate)
  {
    if passRate >= ExcellentThreshold then Excellent
    else if passRate >= GoodThreshold then Good
    else if passRate >= AcceptableThreshold then Acceptable
    else Fail
  }

  /** A reference reading of the grades: a rate qualifies for a grade when it
      reaches that grade's lower bound; every rate qualifies for FAIL. */
  predicate Qualifies(g: Grade, passRate: real) {
    match g
    case Excellent => passRate >= ExcellentThreshold
    case Good => passRate >= GoodThreshold
    case Acceptable => passRate >= AcceptableThreshold
    case Fail => true
  }

  /** The four labels are distinct, so a label names exactly one grade. */
  lemma GradeLabelsDistinct(a: Grade, b: Grade)
    ensures a.Name() == b.Name() <==> a == b
  {
    if a != b {
      assert a.Name()[0] != b.Name()[0] || |a.Name()| != |b.Name()|;
    }
  }

  /** Each grade's band, in both directions. */
  lemma GradeBands(passRate: real)
    ensures GradeOf(passRate) == Excellent <==> passRate >= 95.0
    ensures GradeOf(passRate) == Good <==> 87.5 <= passRate < 95.0
    ensures GradeOf(passRate) == Acceptable <==> 75.0 <= passRate < 87.5
    ensures GradeOf(passRate) == Fail <==> passRate < 75.0
  {
  }

  /** A higher pass rate never earns a lower grade. */
  lemma GradeMonotone(lower: real, higher: real)
    requires lower <= higher
    ensures GradeOf(lower).Rank() <= GradeOf(higher).Rank()
  {
  }

  /** The boundaries are inclusive at each lower bound. */
  lemma GradeBoundaries()
    ensures GradeOf(95.0) == Excellent
    ensures GradeOf(87.5) == Good
    ensures GradeOf(75.0) == Acceptable
    ensures GradeOf(74.999) == Fail
  {
  }

  // ---------------------------------------------------------------------
  // Counting significant points and the pass rate
  // ---------------------------------------------------------------------

  /** The number of records flagged significant. */
  function SignificantCount(results: seq<PointResult>): (n: nat)
    ensures n <= |results|
  {
    if results == [] then 0
    else (if results[0].isSignificant then 1 else 0) + SignificantCount(results[1..])
  }

  /** Counting splits over concatenation. */
  lemma {:induction false} SignificantCountAppend(a: seq<PointResult>, b: seq<PointResult>)
    ensures SignificantCount(a + b) == SignificantCount(a) + SignificantCount(b)
  {
    if a == [] {
      assert a + b == b;
    } else {
      assert (a + b)[0] == a[0];
      assert (a + b)[1..] == a[1..] + b;
      SignificantCountAppend(a[1..], b);
    }
  }

  /** No record is counted exactly when none is significant, and every record
      is counted exactly when all are. */
  lemma {:induction false} SignificantCountExtremes(results: seq<PointResult>)
    ensures SignificantCount(results) == 0
            <==> forall k :: 0 <= k < |results| ==> !results[k].isSignificant
    ensures SignificantCount(results) == |results|
            <==> forall k :: 0 <= k < |results| ==> results[k].isSignificant
  {
    if results != [] {
      SignificantCountExtremes(results[1..]);
      assert forall k :: 1 <= k < |results| ==> results[k] == results[1..][k - 1];
    }
  }

  /** If every record flagged in a is also flagged in b, position by position,
      then a has no more significant records than b. */
  lemma {:induction false} SignificantCountDominated(a: seq<PointResult>, b: seq<PointResult>)
    requires |a| == |b|
    requires forall k :: 0 <= k < |a| ==> a[k].isSignificant ==> b[k].isSignificant
    ensures SignificantCount(a) <= SignificantCount(b)
  {
    if a != [] {
      assert forall k :: 0 <= k < |a| - 1 ==> a[1..][k] == a[k + 1] && b[1..][k] == b[k + 1];
      SignificantCountDominated(a[1..], b[1..]);
    }
  }

  /** The percentage of points that passed, from the totals. */
  function Rate(total: nat, failures: nat): (rate: real)
    requires 0 < total && failures <= total
    ensures 0.0 <= rate <= 100.0
    ensures rate == 100.0 <==> failures == 0
    ensures rate == 0.0 <==> failures == total
  {
    var passed := (total - failures) as real;
    assert 0.0 <= passed / total as real <= 1.0 by {
      assert passed <= total as real;
    }
    assert passed / total as real == 1.0 <==> passed == total as real;
    (passed / total as real) * 100.0
  }

  /** More failures out of the same total never raise the rate. */
  lemma RateAntitone(total: nat, fewer: nat, more: nat)
    requires 0 < total && fewer <= more <= total
    ensures Rate(total, more) <= Rate(total, fewer)
  {
    var t := total as real;
    QuotientMonotone((total - more) as real, (total - fewer) as real, t);
  }

  /** Dividing by a positive number keeps the order. */
  lemma QuotientMonotone(x: real, y: real, t: real)
    requires x <= y && t > 0.0
    ensures x / t <= y / t
  {
    assert y / t - x / t == (y - x) / t;
    assert (y - x) / t * t == y - x;
  }

  /** The pass rate of a non-empty batch: 100 when no record is significant,
      0 when every record is, and in between otherwise. */
  function PassRate(results: seq<PointResult>): (rate: real)
    requires |results| > 0
    ensures 0.0 <= rate <= 100.0
    ensures rate == 100.0 <==> forall k :: 0 <= k < |results| ==> !results[k].isSignificant
    ensures rate == 0.0 <==> forall k :: 0 <= k < |results| ==> results[k].isSignificant
  {
    SignificantCountExtremes(results);
    Rate(|results|, SignificantCount(results))
  }

  /** Eight points with two significant ones give a pass rate of exactly 75,
      which is ACCEPTABLE. */
  lemma EightPointsTwoFailures(results: seq<PointResult>)
    requires |results| == 8 && SignificantCount(results) == 2
    ensures PassRate(results) == 75.0
    ensures GradeOf(PassRate(results)) == Acceptable
  {
  }

  /** Of two batches of the same size, the one with fewer significant points
      never gets the lower grade. */
  lemma FewerFailuresNeverWorse(a: seq<PointResult>, b: seq<PointResult>)
    requires |a| == |b| > 0
    requires SignificantCount(a) <= SignificantCount(b)
    ensures GradeOf(PassRate(b)).Rank() <= GradeOf(PassRate(a)).Rank()
  {
    RateAntitone(|a|, SignificantCount(a), SignificantCount(b));
    GradeMonotone(PassRate(b), PassRate(a));
  }

  /** Squaring keeps the order of positive numbers. */
  lemma SquareMonotone(lower: real, higher: real)
    requires 0.0 < lower <= higher
    ensures lower * lower <= higher * higher
  {
    assert lower * lower <= lower * higher <= higher * higher;
  }

  /** Comparing the same points with a higher threshold flags no more of them
      and so never lowers the grade. */
  lemma RaisingThresholdNeverWorse(reference: Image, test: Image, points: seq<Point>, lower: real, higher: real)
    requires Comparable(reference, test, points)
    requires |points| > 0
    requires 0.0 < lower <= higher
    ensures SignificantCount(Comparison(reference, test, points, higher))
            <= SignificantCount(Comparison(reference, test, points, lower))
    ensures GradeOf(PassRate(Comparison(reference, test, points, lower))).Rank()
            <= GradeOf(PassRate(Comparison(reference, test, points, higher))).Rank()
  {
    var strict, lenient := Comparison(reference, test, points, lower), Comparison(reference, test, points, higher);
    SquareMonotone(lower, higher);
    forall k | 0 <= k < |points|
      ensures lenient[k].isSignificant ==> strict[k].isSignificant
    {
      assert lenient[k].squaredDifference == strict[k].squaredDifference;
    }
    SignificantCountDominated(lenient, strict);
    FewerFailuresNeverWorse(lenient, strict);
  }
}
