/**
  The comparison tool object: it holds the two decoded images, the last
  generated test points, the last batch of comparison results and the
  significance threshold, and updates them in place as its operations run.
 */
module ComparisonTool {
  import opened Pixels
  import opened Sampler
  import opened Comparator
  import opened Grader

  /** RGB Euclidean distance above which a point is a significant defect. */
  const DefaultSignificanceThreshold: real := 30.0

  datatype Option<T> = None | Some(value: T)

  /** The outcome of the threshold setter: it either succeeds or raises
      ValueError with a fixed message. */
  datatype Outcome = Ok | ValueError(message: string)

  /** The figures a report is built from, derived from the current batch. */
  datatype AnalysisSummary = AnalysisSummary(
    totalPoints: nat,
    significantFailures: nat,
    passRate: real,
    grade: string,
    description: string)

  /** Sampled points are fit for comparison: given two decoded images of one
      size, whatever the sampler returns for the reference image's size is
      inside both images, except strategic corners taken on an image of 50
      pixels or less in either direction. */
  lemma SampledPointsComparable(reference: Image, test: Image, count: int, strategy: string,
                                custom: seq<Point>, points: seq<Point>)
    requires SameShape(reference, test)
    requires CanSample(Width(reference), Height(reference), count, strategy)
    requires Sampled(Width(reference), Height(reference), count, strategy, custom, points)
    requires strategy == "strategic" && SliceStop(count, CatalogueSize) >= 1 ==>
      Width(reference) > StrategicMargin && Height(reference) > StrategicMargin
    ensures Comparable(reference, test, points)
  {
    SampledInBounds(Width(reference), Height(reference), count, strategy, custom, points);
  }

  class ImageComparisonTool {
    const referenceImagePath: string
    const testImagePath: string
    var referenceImage: Option<Image>
    var testImage: Option<Image>
    var testPoints: seq<Point>
    var comparisonResults: seq<PointResult>
    var significanceThreshold: real

    /** The threshold is positive and a loaded image is a proper grid. */
    ghost predicate Valid()
      reads this
    {
      && significanceThreshold > 0.0
      && (referenceImage.Some? ==> Rectangular(referenceImage.value))
      && (testImage.Some? ==> Rectangular(testImage.value))
    }

    /** Nothing is loaded, sampled or compared yet; the threshold is 30. */
    constructor (referenceImagePath: string, testImagePath: string)
      ensures Valid()
      ensures this.referenceImagePath == referenceImagePath && this.testImagePath == testImagePath
      ensures referenceImage == None && testImage == None
      ensures testPoints == [] && comparisonResults == []
      ensures significanceThreshold == DefaultSignificanceThreshold
    {
      this.referenceImagePath := referenceImagePath;
      this.testImagePath := testImagePath;
      referenceImage := None;
      testImage := None;
      testPoints := [];
      comparisonResults := [];
      significanceThreshold := DefaultSignificanceThreshold;
    }

    /** A threshold that is not positive is refused and changes nothing;
      otherwise it becomes the threshold. Results already computed keep the
      verdicts they were given. */
    method SetSignificanceThreshold(threshold: real) returns (outcome: Outcome)
      requires Valid()
      modifies this`significanceThreshold
      ensures Valid()
      ensures threshold <= 0.0 ==>
        outcome == ValueError("Threshold must be positive") && significanceThreshold == old(significanceThreshold)
      ensures threshold > 0.0 ==> outcome == Ok && significanceThreshold == threshold
      ensures comparisonResults == old(comparisonResults) && testPoints == old(testPoints)
    {
      if threshold <= 0.0 {
        return ValueError("Threshold must be positive");
      }
      significanceThreshold := threshold;
      outcome := Ok;
    }

    /** The threshold in force, which is always positive. */
    function GetSignificanceThreshold(): (threshold: real)
      reads this
      requires Valid()
      ensures threshold > 0.0
      ensures threshold == significanceThreshold
    {
      significanceThreshold
    }

    /** Store what the image decoder produced for the two files (None for a
      file it could not read); loading succeeds only when both were read. */
    method LoadImages(decodedReference: Option<Image>, decodedTest: Option<Image>) returns (loaded: bool)
      requires Valid()
      requires decodedReference.Some? ==> Rectangular(decodedReference.value)
      requires decodedTest.Some? ==> Rectangular(decodedTest.value)
      modifies this`referenceImage, this`testImage
      ensures Valid()
      ensures referenceImage == decodedReference && testImage == decodedTest
      ensures loaded <==> decodedReference.Some? && decodedTest.Some?
    {
      referenceImage := decodedReference;
      testImage := decodedTest;
      loaded := decodedReference.Some? && decodedTest.Some?;
    }

    /** Sample points on the reference image and remember them. Without a
      reference image nothing is sampled and the remembered points stay as
      they were; otherwise they become exactly the returned list, which is
      empty for an unknown strategy. */
    method GenerateTestPoints(numPoints: int := 8, strategy: string := "random", customPoints: seq<Point> := [])
      returns (points: seq<Point>)
      requires Valid()
      requires referenceImage.Some? ==>
        CanSample(Width(referenceImage.value), Height(referenceImage.value), numPoints, strategy)
      modifies this`testPoints
      ensures Valid()
      ensures referenceImage.None? ==> points == [] && testPoints == old(testPoints)
      ensures referenceImage.Some? ==>
        && testPoints == points
        && Sampled(Width(referenceImage.value), Height(referenceImage.value), numPoints, strategy, customPoints, points)
    {
      if referenceImage.None? {
        return [];
      }
      var reference := referenceImage.value;
      points := SamplePoints(Width(reference), Height(reference), numPoints, strategy, customPoints);
      testPoints := points;
    }

    /** What the comparator needs once it runs: two images of one size with
      every remembered point inside them. */
    ghost predicate ReadyToCompare()
      reads this
    {
      referenceImage.Some? && testImage.Some? && testPoints != [] ==>
        Comparable(referenceImage.value, testImage.value, testPoints)
    }

    /** Compare the two images at every remembered point. Without points or
      without both images nothing runs and the previous results stay;
      otherwise the new batch, one record per point in order, replaces them
      in full. */
    method ComparePixels() returns (results: seq<PointResult>)
      requires Valid()
      requires ReadyToCompare()
      modifies this`comparisonResults
      ensures Valid()
      ensures testPoints == [] || referenceImage.None? || testImage.None? ==>
        results == [] && comparisonResults == old(comparisonResults)
      ensures testPoints != [] && referenceImage.Some? && testImage.Some? ==>
        && |results| == |testPoints|
        && results == Comparison(referenceImage.value, testImage.value, testPoints, significanceThreshold)
        && comparisonResults == results
    {
      if testPoints == [] {
        return [];
      }
      if referenceImage.None? || testImage.None? {
        return [];
      }
      results := ComparePoints(referenceImage.value, testImage.value, testPoints, significanceThreshold);
      comparisonResults := results;
    }

    /** The summary a report opens with: none without results; otherwise the
      totals, the pass rate and the grade of the current batch. */
    function ReportSummary(): (summary: Option<AnalysisSummary>)
      reads this
      ensures summary.None? <==> comparisonResults == []
      ensures summary.Some? ==>
        && summary.value.totalPoints == |comparisonResults| > 0
        && summary.value.significantFailures == SignificantCount(comparisonResults) <= summary.value.totalPoints
        && summary.value.passRate == PassRate(comparisonResults)
        && 0.0 <= summary.value.passRate <= 100.0
        && (summary.value.passRate == 100.0 <==> summary.value.significantFailures == 0)
        && summary.value.grade == GradeOf(summary.value.passRate).Name()
        && summary.value.description == GradeOf(summary.value.passRate).Description()
    {
      if comparisonResults == [] then None
      else
        var failures := SignificantCount(comparisonResults);
        var total := |comparisonResults|;
        var rate := PassRate(comparisonResults);
        var (grade, description) := CalculateQualityGrade(rate);
        Some(AnalysisSummary(total, failures, rate, grade, description))
    }

    /** The analysis pipeline without its file and console output: load,
      sample, compare, summarise, stopping with no summary when loading fails
      or no point was sampled. */
    method RunFullAnalysis(decodedReference: Option<Image>, decodedTest: Option<Image>,
                           numPoints: int := 8, strategy: string := "random", customPoints: seq<Point> := [])
      returns (summary: Option<AnalysisSummary>)
      requires Valid()
      requires decodedReference.Some? ==> Rectangular(decodedReference.value)
      requires decodedTest.Some? ==> Rectangular(decodedTest.value)
      requires decodedReference.Some? && decodedTest.Some? ==>
        var reference := decodedReference.value;
        && SameShape(reference, decodedTest.value)
        && CanSample(Width(reference), Height(reference), numPoints, strategy)
        && (strategy == "strategic" && SliceStop(numPoints, CatalogueSize) >= 1 ==>
              Width(reference) > StrategicMargin && Height(reference) > StrategicMargin)
      modifies this`referenceImage, this`testImage, this`testPoints, this`comparisonResults
      ensures Valid()
      ensures referenceImage == decodedReference && testImage == decodedTest
      ensures summary.Some? <==> decodedReference.Some? && decodedTest.Some? && testPoints != []
      ensures decodedReference.Some? && decodedTest.Some? ==>
        Sampled(Width(decodedReference.value), Height(decodedReference.value), numPoints, strategy, customPoints, testPoints)
      ensures !(decodedReference.Some? && decodedTest.Some?) ==>
        testPoints == old(testPoints) && comparisonResults == old(comparisonResults)
      ensures summary.None? ==> comparisonResults == old(comparisonResults)
      ensures summary.Some? ==>
        && ReadyToCompare()
        && comparisonResults == Comparison(referenceImage.value, testImage.value, testPoints, significanceThreshold)
        && summary == ReportSummary()
        && summary.value.totalPoints == |testPoints|
    {
      var loaded := LoadImages(decodedReference, decodedTest);
      if !loaded {
        return None;
      }
      var points := GenerateTestPoints(numPoints, strategy, customPoints);
      if testPoints == [] {
        return None;
      }
      SampledPointsComparable(decodedReference.value, decodedTest.value, numPoints, strategy, customPoints, testPoints);
      var results := ComparePixels();
      summary := ReportSummary();
    }
  }
}
