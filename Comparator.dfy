/**
  The pixel comparator: at each test point, read the reference and the test
  pixel, take the signed per-channel difference (test minus reference), its
  Euclidean length, and classify the point as a significant defect when that
  length is strictly above the threshold.

  The Euclidean length itself is a square root; the model keeps its square
  (a natural number) and compares it against the square of the threshold,
  which is the same test because the threshold is positive
  (see SignificanceIsEuclidean).
 */
module Comparator {
  import opened Pixels

  /** Signed per-channel difference, test minus reference; never clamped. */
  datatype Delta = Delta(dr: int, dg: int, db: int)

  /** Everything recorded about one test point. pointId is the 1-based
      position in the list of test points, so a coordinate listed twice gets
      two identifiers. squaredDifference is the square of the Euclidean
      distance that the source stores. */
  datatype PointResult = PointResult(
    pointId: nat,
    coordinates: Point,
    referenceRgb: RGB,
    testRgb: RGB,
    rgbDifference: Delta,
    squaredDifference: nat,
    isSignificant: bool)

  function Difference(reference: RGB, test: RGB): Delta {
    Delta(test.r - reference.r, test.g - reference.g, test.b - reference.b)
  }

  function Negate(d: Delta): Delta {
    Delta(-d.dr, -d.dg, -d.db)
  }

  /** dr*dr + dg*dg + db*db, the square of the Euclidean distance. */
  function SquaredNorm(d: Delta): nat {
    d.dr * d.dr + d.dg * d.dg + d.db * d.db
  }

  /** "distance > threshold", stated on the squared distance. */
  predicate Exceeds(squared: nat, threshold: real) {
    squared as real > threshold * threshold
  }

  /** Two decoded images of the same width and height. */
  predicate SameShape(reference: Image, test: Image) {
    && Rectangular(reference)
    && Rectangular(test)
    && Width(reference) == Width(test)
    && Height(reference) == Height(test)
  }

  /** Reference and test images of one size, with every point inside them. */
  predicate Comparable(reference: Image, test: Image, points: seq<Point>) {
    SameShape(reference, test) && AllInBounds(points, Width(reference), Height(reference))
  }

  /** The record for point p, the id-th point of the list. */
  function Measure(reference: Image, test: Image, p: Point, id: nat, threshold: real): PointResult
    requires SameShape(reference, test)
    requires InBounds(p, Width(reference), Height(reference))
  {
    var refPixel, testPixel := PixelAt(reference, p), PixelAt(test, p);
    var d := Difference(refPixel, testPixel);
    PointResult(id, p, refPixel, testPixel, d, SquaredNorm(d), Exceeds(SquaredNorm(d), threshold))
  }

  /** The whole batch: one record per point, in the order of the points. */
  function Comparison(reference: Image, test: Image, points: seq<Point>, threshold: real): seq<PointResult>
    requires Comparable(reference, test, points)
  {
    seq(|points|, k requires 0 <= k < |points| =>
      Measure(reference, test, points[k], k + 1, threshold))
  }

  /** The loop of the comparator: enumerate the points and append one record
      for each. */
  method ComparePoints(reference: Image, test: Image, points: seq<Point>, threshold: real)
    returns (results: seq<PointResult>)
    requires Comparable(reference, test, points)
    ensures |results| == |points|
    ensures results == Comparison(reference, test, points, threshold)
  {
    results := [];
    var i := 0;
    while i < |points|
      invariant 0 <= i <= |points|
      invariant |results| == i
      invariant forall k :: 0 <= k < i ==> results[k] == Comparison(reference, test, points, threshold)[k]
    {
      var p := points[i];
      var refPixel := reference[p.y][p.x];
      var testPixel := test[p.y][p.x];
      var rDiff := testPixel.r - refPixel.r;
      var gDiff := testPixel.g - refPixel.g;
      var bDiff := testPixel.b - refPixel.b;
      var squared := rDiff * rDiff + gDiff * gDiff + bDiff * bDiff;
      var result := PointResult(i + 1, p, refPixel, testPixel, Delta(rDiff, gDiff, bDiff),
                                squared, squared as real > threshold * threshold);
      results := results + [result];
      i := i + 1;
    }
  }

  /** Each record names its own position, point and pixels, and its
      difference is test minus reference, channel by channel. */
  lemma ComparisonRecords(reference: Image, test: Image, points: seq<Point>, threshold: real, k: nat)
    requires Comparable(reference, test, points)
    requires k < |points|
    ensures |Comparison(reference, test, points, threshold)| == |points|
    ensures var r := Comparison(reference, test, points, threshold)[k];
      && r.pointId == k + 1
      && r.coordinates == points[k]
      && r.referenceRgb == reference[points[k].y][points[k].x]
      && r.testRgb == test[points[k].y][points[k].x]
      && r.rgbDifference.dr == r.testRgb.r - r.referenceRgb.r
      && r.rgbDifference.dg == r.testRgb.g - r.referenceRgb.g
      && r.rgbDifference.db == r.testRgb.b - r.referenceRgb.b
      && r.squaredDifference == SquaredNorm(r.rgbDifference)
      && r.isSignificant == Exceeds(r.squaredDifference, threshold)
  {
  }

  /** For a positive threshold, comparing squares is the same as comparing
      the Euclidean distance itself: a point exactly at the threshold is not
      significant, and any distance above it is. */
  lemma SignificanceIsEuclidean(squared: nat, distance: real, threshold: real)
    requires threshold > 0.0
    requires distance >= 0.0 && distance * distance == squared as real
    ensures Exceeds(squared, threshold) <==> distance > threshold
  {
    if distance > threshold {
      assert distance * distance > threshold * distance > threshold * threshold;
    } else {
      assert distance * distance <= threshold * distance <= threshold * threshold;
    }
  }

  /** The squared distance is zero exactly when every channel difference is. */
  lemma ZeroNormIffZeroDelta(d: Delta)
    ensures SquaredNorm(d) == 0 <==> d == Delta(0, 0, 0)
  {
    SquareZero(d.dr);
    SquareZero(d.dg);
    SquareZero(d.db);
  }

  /** Every channel difference is zero exactly when the two pixels are equal;
      with ZeroNormIffZeroDelta, the distance is zero exactly for equal pixels. */
  lemma ZeroDeltaIffSamePixel(reference: RGB, test: RGB)
    ensures Difference(reference, test) == Delta(0, 0, 0) <==> reference == test
  {
  }

  /** A square is never negative, and zero only for zero. */
  lemma SquareZero(x: int)
    ensures x * x >= 0
    ensures x * x == 0 <==> x == 0
  {
    if x > 0 {
      assert x * x >= x;
    } else if x < 0 {
      assert x * x == (-x) * (-x) >= -x;
    }
  }

  /** A squared distance of zero is never significant. The tool only ever
      holds a positive threshold, and there this agrees with the source's
      strict `0 > threshold`. The squared test also passes a zero distance at
      a negative threshold, where the source's test would flag it. */
  lemma ZeroNeverExceeds(threshold: real)
    ensures !Exceeds(0, threshold)
  {
    if threshold >= 0.0 {
      assert threshold * threshold >= 0.0 * threshold;
    } else {
      assert threshold * threshold == (-threshold) * (-threshold);
    }
  }

  /** Swapping the roles of the two images negates every difference, keeps
      the distance, and so keeps the verdict. */
  lemma ComparisonSwap(reference: Image, test: Image, points: seq<Point>, threshold: real)
    requires Comparable(reference, test, points)
    ensures Comparable(test, reference, points)
    ensures var forward, backward := Comparison(reference, test, points, threshold),
                                     Comparison(test, reference, points, threshold);
      && |backward| == |forward|
      && forall k :: 0 <= k < |forward| ==>
           && backward[k].rgbDifference == Negate(forward[k].rgbDifference)
           && backward[k].squaredDifference == forward[k].squaredDifference
           && backward[k].isSignificant == forward[k].isSignificant
           && backward[k].referenceRgb == forward[k].testRgb
           && backward[k].testRgb == forward[k].referenceRgb
  {
  }

  /** Equal pixels differ by nothing and are never significant at any
      positive threshold, which is every threshold the tool can hold; for the
      default threshold of 30, (120,255,10) against itself. */
  lemma IdenticalPixelsPass(pixel: RGB, threshold: real)
    ensures SquaredNorm(Difference(pixel, pixel)) == 0
    ensures !Exceeds(SquaredNorm(Difference(pixel, pixel)), threshold)
  {
    ZeroNeverExceeds(threshold);
  }

  /** Black against white on a one-pixel image: a squared distance of 195075
      (a distance of about 441.67), well above the default threshold of 30. */
  lemma BlackAgainstWhite()
    ensures var r := Measure([[RGB(0, 0, 0)]], [[RGB(255, 255, 255)]], Point(0, 0), 1, 30.0);
      r.squaredDifference == 195075 && r.isSignificant
  {
  }
}
