/**
  The coordinate sampler: given the reference image's width and height, a
  requested point count and a strategy name, choose the pixel coordinates
  that the comparator will test.

  The four strategies are "custom" (the caller's points, filtered to the
  image), "random" (uniform draws at least 10 pixels from every edge),
  "grid" (a row-major lattice) and "strategic" (a prefix of a fixed catalogue
  of eight positions). Any other name, and "custom" without points, yields no
  points at all.
 */
module Sampler {
  import opened Pixels

  /** Distance from every edge that random draws keep. */
  const RandomMargin: int := 10

  /** Inset of the four corner entries of the strategic catalogue. */
  const StrategicMargin: int := 50

  /** Number of entries in the strategic catalogue. */
  const CatalogueSize: nat := 8

  function Min(a: int, b: int): int {
    if a <= b then a else b
  }

  // ---------------------------------------------------------------------
  // Integer arithmetic the grid strategy needs
  // ---------------------------------------------------------------------

  /** The integer part of the square root of n. */
  function FloorSqrt(n: nat): (c: nat)
    ensures c * c <= n < (c + 1) * (c + 1)
  {
    if n == 0 then 0
    else
      var c := FloorSqrt(n - 1);
      if (c + 1) * (c + 1) <= n then
        assert (c + 2) * (c + 2) == (c + 1) * (c + 1) + 2 * c + 3;
        c + 1
      else
        c
  }

  /** The least q with a <= q * b: the rounded-up quotient. */
  function CeilDiv(a: nat, b: nat): (q: nat)
    requires b > 0
    ensures a <= q * b < a + b
  {
    var q := (a + b - 1) / b;
    assert a + b - 1 == q * b + (a + b - 1) % b;
    q
  }

  /** Where the stop index of the slice s[:stop] lands in a sequence of the
      given length: a negative stop counts back from the end. */
  function SliceStop(stop: int, length: nat): (k: nat)
    ensures k <= length
  {
    if stop >= 0 then Min(stop, length)
    else if length + stop >= 0 then length + stop
    else 0
  }

  // ---------------------------------------------------------------------
  // "custom": keep the caller's points that lie inside the image
  // ---------------------------------------------------------------------

  /** The in-bounds points of the list, in their original order. */
  function InBoundsOnly(points: seq<Point>, width: int, height: int): (r: seq<Point>)
    ensures |r| <= |points|
    ensures AllInBounds(r, width, height)
  {
    if points == [] then []
    else
      var last := points[|points| - 1];
      InBoundsOnly(points[..|points| - 1], width, height)
        + (if InBounds(last, width, height) then [last] else [])
  }

  /** Filtering a single point keeps it exactly when it is inside the image. */
  lemma InBoundsOnlySingle(p: Point, width: int, height: int)
    ensures InBoundsOnly([p], width, height) == if InBounds(p, width, height) then [p] else []
  {
    assert [p][..0] == [];
  }

  /** Filtering distributes over concatenation: the points that survive keep
      their relative order. With InBoundsOnlySingle this determines the filter. */
  lemma {:induction false} InBoundsOnlyAppend(a: seq<Point>, b: seq<Point>, width: int, height: int)
    ensures InBoundsOnly(a + b, width, height) == InBoundsOnly(a, width, height) + InBoundsOnly(b, width, height)
  {
    if b == [] {
      assert a + b == a;
    } else {
      var init := b[..|b| - 1];
      assert (a + b)[..|a + b| - 1] == a + init;
      assert (a + b)[|a + b| - 1] == b[|b| - 1];
      InBoundsOnlyAppend(a, init, width, height);
    }
  }

  /** No point is substituted or duplicated: each point occurs in the result
      exactly as often as in the input when it is inside the image, and not
      at all otherwise. */
  lemma {:induction false} InBoundsOnlyCounts(points: seq<Point>, width: int, height: int)
    ensures forall p :: multiset(InBoundsOnly(points, width, height))[p]
                        == if InBounds(p, width, height) then multiset(points)[p] else 0
  {
    if points != [] {
      var init, last := points[..|points| - 1], points[|points| - 1];
      assert points == init + [last];
      InBoundsOnlyCounts(init, width, height);
    }
  }

  /** A list already inside the image comes back unchanged. */
  lemma {:induction false} InBoundsOnlyKeepsAll(points: seq<Point>, width: int, height: int)
    requires AllInBounds(points, width, height)
    ensures InBoundsOnly(points, width, height) == points
  {
    if points != [] {
      var init := points[..|points| - 1];
      assert AllInBounds(init, width, height) by {
        forall k | 0 <= k < |init| ensures InBounds(init[k], width, height) {
          assert init[k] == points[k];
        }
      }
      InBoundsOnlyKeepsAll(init, width, height);
    }
  }

  /** The loop of the custom strategy: walk the caller's points and append
      each one that is inside the image. */
  method CustomPoints(custom: seq<Point>, width: int, height: int) returns (valid: seq<Point>)
    ensures valid == InBoundsOnly(custom, width, height)
  {
    valid := [];
    var i := 0;
    while i < |custom|
      invariant 0 <= i <= |custom|
      invariant valid == InBoundsOnly(custom[..i], width, height)
    {
      var p := custom[i];
      assert custom[..i + 1][..i] == custom[..i];
      if InBounds(p, width, height) {
        valid := valid + [p];
      }
      i := i + 1;
    }
    assert custom[..|custom|] == custom;
  }

  // ---------------------------------------------------------------------
  // "random": independent draws away from the edges
  // ---------------------------------------------------------------------

  /** The inclusive box [10, width-10] x [10, height-10] the draws come from. */
  predicate InMarginBox(p: Point, width: int, height: int) {
    && RandomMargin <= p.x <= width - RandomMargin
    && RandomMargin <= p.y <= height - RandomMargin
  }

  /** Every list the random strategy may return: one point per requested
      point (none for a count below one), each in the margin box. Repeated
      points are allowed. */
  predicate RandomSample(points: seq<Point>, count: int, width: int, height: int) {
    && |points| == (if count > 0 then count else 0)
    && forall k :: 0 <= k < |points| ==> InMarginBox(points[k], width, height)
  }

  /** A random sample lies inside the image once the image is at least
      20 pixels in each direction. */
  lemma RandomSampleInBounds(points: seq<Point>, count: int, width: int, height: int)
    requires RandomSample(points, count, width, height)
    requires width >= 2 * RandomMargin && height >= 2 * RandomMargin
    ensures AllInBounds(points, width, height)
  {
  }

  /** The loop of the random strategy. Each coordinate is an arbitrary choice
      from its inclusive range, standing for one call of the random source.
      Drawing from [10, size-10] needs size >= 20; with no draws nothing is
      demanded. */
  method RandomPoints(count: int, width: int, height: int) returns (points: seq<Point>)
    requires count > 0 ==> width >= 2 * RandomMargin && height >= 2 * RandomMargin
    ensures RandomSample(points, count, width, height)
  {
    points := [];
    var drawn := 0;
    while drawn < count
      invariant 0 <= drawn <= (if count > 0 then count else 0)
      invariant |points| == drawn
      invariant forall k :: 0 <= k < |points| ==> InMarginBox(points[k], width, height)
    {
      var x :| RandomMargin <= x <= width - RandomMargin;
      var y :| RandomMargin <= y <= height - RandomMargin;
      points := points + [Point(x, y)];
      drawn := drawn + 1;
    }
  }

  // ---------------------------------------------------------------------
  // "grid": a near-square lattice, filled row by row
  // ---------------------------------------------------------------------

  function GridColumns(count: nat): nat {
    FloorSqrt(count)
  }

  function GridRows(count: nat): nat
    requires count >= 1
  {
    CeilDiv(count, GridColumns(count))
  }

  /** The k-th lattice point in row-major order: column k mod cols, row
      k div cols, each placed at (index+1)/(cells+1) of the image size. */
  function GridPoint(width: int, height: int, count: nat, k: nat): Point
    requires count >= 1
  {
    var cols, rows := GridColumns(count), GridRows(count);
    Point(((k % cols + 1) * width) / (cols + 1), ((k / cols + 1) * height) / (rows + 1))
  }

  /** The grid strategy's result: the first count lattice points. */
  function GridSpec(width: int, height: int, count: nat): seq<Point>
    requires count >= 1
  {
    seq(count, k requires 0 <= k < count => GridPoint(width, height, count, k))
  }

  /** Multiplying by a non-negative factor keeps the order. */
  lemma MulMonotone(a: int, b: int, c: int)
    requires c >= 0
    ensures a >= b ==> a * c >= b * c
  {
    if a >= b {
      assert a * c - b * c == (a - b) * c;
    }
  }

  /** The integer square root is the only c with c*c <= n < (c+1)*(c+1). */
  lemma FloorSqrtUnique(n: nat, c: nat)
    requires c * c <= n < (c + 1) * (c + 1)
    ensures FloorSqrt(n) == c
  {
    var d := FloorSqrt(n);
    MulMonotone(d, c + 1, d);
    MulMonotone(d, c + 1, c + 1);
    MulMonotone(c, d + 1, c);
    MulMonotone(c, d + 1, d + 1);
  }

  /** Row i, column j of a lattice with cols columns is entry i*cols+j. */
  lemma RowMajorIndex(i: nat, j: nat, cols: nat)
    requires j < cols
    ensures (i * cols + j) / cols == i
    ensures (i * cols + j) % cols == j
  {
    var k := i * cols + j;
    var q, r := k / cols, k % cols;
    assert k == q * cols + r;
    assert (i + 1) * cols == i * cols + cols;
    assert (q + 1) * cols == q * cols + cols;
    MulMonotone(q, i + 1, cols);
    MulMonotone(i, q + 1, cols);
  }

  /** The lattice has enough cells for the requested count, and the last row
      is not empty. */
  lemma GridShape(count: nat)
    requires count >= 1
    ensures GridColumns(count) >= 1 && GridRows(count) >= 1
    ensures (GridRows(count) - 1) * GridColumns(count) < count <= GridRows(count) * GridColumns(count)
  {
  }

  /** A lattice coordinate (m of cells, scaled to size) never leaves [0, size). */
  lemma LatticeCoordinate(m: nat, cells: nat, size: int)
    requires 1 <= m <= cells && size >= 1
    ensures 0 <= (m * size) / (cells + 1) < size
  {
    var q := (m * size) / (cells + 1);
    assert m * size == q * (cells + 1) + (m * size) % (cells + 1);
    MulMonotone(cells, m, size);
    assert (cells + 1) * size == cells * size + size;
    MulMonotone(q, size, cells + 1);
  }

  /** Entry k < rows*cols lies in a row below rows. */
  lemma RowOfIndex(k: nat, rows: nat, cols: nat)
    requires cols >= 1 && k < rows * cols
    ensures k / cols < rows
  {
    var q := k / cols;
    assert k == q * cols + k % cols;
    MulMonotone(q, rows, cols);
  }

  /** Every grid point is inside the image. */
  lemma GridInBounds(width: int, height: int, count: nat)
    requires count >= 1 && width >= 1 && height >= 1
    ensures AllInBounds(GridSpec(width, height, count), width, height)
  {
    var cols, rows := GridColumns(count), GridRows(count);
    GridShape(count);
    forall k | 0 <= k < count
      ensures InBounds(GridPoint(width, height, count, k), width, height)
    {
      LatticeCoordinate(k % cols + 1, cols, width);
      RowOfIndex(k, rows, cols);
      LatticeCoordinate(k / cols + 1, rows, height);
    }
  }

  /** Eight points on an 800x600 image: two columns and four rows, every
      point strictly inside the border. */
  lemma GridEightOn800By600()
    ensures GridColumns(8) == 2 && GridRows(8) == 4
    ensures GridSpec(800, 600, 8)
         == [Point(266, 120), Point(533, 120), Point(266, 240), Point(533, 240),
             Point(266, 360), Point(533, 360), Point(266, 480), Point(533, 480)]
  {
    FloorSqrtUnique(8, 2);
    assert GridColumns(8) == 2;
    assert GridRows(8) == 4;
  }

  /** The nested loop of the grid strategy. The inner loop stops adding points
      once count of them exist; the outer loop still runs to the last row. */
  method GridPoints(width: int, height: int, count: nat) returns (points: seq<Point>)
    requires count >= 1
    ensures points == GridSpec(width, height, count)
  {
    var cols := FloorSqrt(count);
    var rows := CeilDiv(count, cols);
    points := [];
    var i := 0;
    while i < rows
      invariant 0 <= i <= rows
      invariant |points| == Min(count, i * cols)
      invariant forall k :: 0 <= k < |points| ==> points[k] == GridPoint(width, height, count, k)
    {
      var j := 0;
      while j < cols
        invariant 0 <= j <= cols
        invariant |points| == Min(count, i * cols + j)
        invariant forall k :: 0 <= k < |points| ==> points[k] == GridPoint(width, height, count, k)
      {
        if |points| >= count {
          break;
        }
        RowMajorIndex(i, j, cols);
        points := points + [Point(((j + 1) * width) / (cols + 1), ((i + 1) * height) / (rows + 1))];
        j := j + 1;
      }
      assert (i + 1) * cols == i * cols + cols;
      i := i + 1;
    }
  }

  // ---------------------------------------------------------------------
  // "strategic": a fixed catalogue of eight positions
  // ---------------------------------------------------------------------

  /** Four corners inset by 50 pixels (top-left, top-right, bottom-left,
      bottom-right), then the centre, the upper-left and upper-right quarter
      points, and the lower centre. All eight lie inside the image exactly
      when it is wider and taller than 50 pixels. */
  function StrategicCatalogue(width: int, height: int): (catalogue: seq<Point>)
    ensures |catalogue| == CatalogueSize
    ensures AllInBounds(catalogue, width, height) <==> width > StrategicMargin && height > StrategicMargin
  {
    assert width > 0 ==> (3 * width) / 4 < width;
    assert height > 0 ==> (3 * height) / 4 < height;
    var entries := [
      Point(StrategicMargin, StrategicMargin),
      Point(width - StrategicMargin, StrategicMargin),
      Point(StrategicMargin, height - StrategicMargin),
      Point(width - StrategicMargin, height - StrategicMargin),
      Point(width / 2, height / 2),
      Point(width / 4, height / 4),
      Point((3 * width) / 4, height / 4),
      Point(width / 2, (3 * height) / 4) ];
    assert AllInBounds(entries, width, height) ==> InBounds(entries[0], width, height);
    entries
  }

  /** The strategic strategy's result: the catalogue sliced as [:count]. It is
      always a prefix of the catalogue in catalogue order: the first
      min(count, 8) entries for a count of at least zero, and for a negative
      count all but the last -count of them. */
  function StrategicPoints(width: int, height: int, count: int): (points: seq<Point>)
    ensures |points| <= CatalogueSize
    ensures points == StrategicCatalogue(width, height)[..|points|]
    ensures count >= 0 ==> |points| == Min(count, CatalogueSize)
    ensures count < 0 ==> |points| == (if CatalogueSize + count > 0 then CatalogueSize + count else 0)
  {
    StrategicCatalogue(width, height)[..SliceStop(count, CatalogueSize)]
  }

  /** When at least one entry is taken, the result lies inside the image
      exactly when the image is wider and taller than 50 pixels. */
  lemma StrategicInBounds(width: int, height: int, count: int)
    requires SliceStop(count, CatalogueSize) >= 1
    ensures AllInBounds(StrategicPoints(width, height, count), width, height)
            <==> width > StrategicMargin && height > StrategicMargin
  {
    var r := StrategicPoints(width, height, count);
    assert r[0] == Point(StrategicMargin, StrategicMargin);
    if width > StrategicMargin && height > StrategicMargin {
      assert AllInBounds(StrategicCatalogue(width, height), width, height);
    }
  }

  // ---------------------------------------------------------------------
  // Dispatch on the strategy name
  // ---------------------------------------------------------------------

  /** What the sampler demands of its inputs: random draws need an image of at
      least 20x20 pixels, and the grid needs at least one point (zero divides
      by zero and a negative count has no square root). */
  predicate CanSample(width: int, height: int, count: int, strategy: string) {
    && (strategy == "random" && count > 0 ==> width >= 2 * RandomMargin && height >= 2 * RandomMargin)
    && (strategy == "grid" ==> count >= 1)
  }

  /** Every list the sampler may return for these inputs. */
  predicate Sampled(width: int, height: int, count: int, strategy: string, custom: seq<Point>, points: seq<Point>) {
    if strategy == "custom" && |custom| > 0 then points == InBoundsOnly(custom, width, height)
    else if strategy == "random" then RandomSample(points, count, width, height)
    else if strategy == "grid" then count >= 1 && points == GridSpec(width, height, count)
    else if strategy == "strategic" then points == StrategicPoints(width, height, count)
    else points == []
  }

  /** Choose points for an image of the given size. */
  method SamplePoints(width: int, height: int, count: int, strategy: string, custom: seq<Point>)
    returns (points: seq<Point>)
    requires CanSample(width, height, count, strategy)
    ensures Sampled(width, height, count, strategy, custom, points)
  {
    if strategy == "custom" && |custom| > 0 {
      points := CustomPoints(custom, width, height);
    } else if strategy == "random" {
      points := RandomPoints(count, width, height);
    } else if strategy == "grid" {
      points := GridPoints(width, height, count);
    } else if strategy == "strategic" {
      points := StrategicPoints(width, height, count);
    } else {
      points := [];
    }
  }

  /** Sampled points are inside the image, except that the strategic corners,
      once at least one catalogue entry is taken, need an image wider and
      taller than 50 pixels. */
  lemma SampledInBounds(width: int, height: int, count: int, strategy: string, custom: seq<Point>, points: seq<Point>)
    requires width >= 1 && height >= 1
    requires CanSample(width, height, count, strategy)
    requires Sampled(width, height, count, strategy, custom, points)
    requires strategy == "strategic" && SliceStop(count, CatalogueSize) >= 1 ==>
      width > StrategicMargin && height > StrategicMargin
    ensures AllInBounds(points, width, height)
  {
    if strategy == "custom" && |custom| > 0 {
    } else if strategy == "random" {
      if count > 0 {
        RandomSampleInBounds(points, count, width, height);
      }
    } else if strategy == "grid" {
      GridInBounds(width, height, count);
    } else if strategy == "strategic" {
      if SliceStop(count, CatalogueSize) >= 1 {
        StrategicInBounds(width, height, count);
      }
    }
  }

  /** How many points come back. The count is a cap for every strategy except
      "custom", which ignores it; random and grid meet it exactly. */
  lemma SampledCount(width: int, height: int, count: int, strategy: string, custom: seq<Point>, points: seq<Point>)
    requires Sampled(width, height, count, strategy, custom, points)
    ensures strategy != "custom" && count >= 0 ==> |points| <= count
    ensures strategy == "custom" ==> |points| <= |custom|
    ensures strategy == "strategic" ==> |points| <= CatalogueSize
    ensures strategy == "random" || strategy == "grid" ==> |points| == (if count > 0 then count else 0)
  {
  }
}
