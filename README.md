# Image comparison tool: sampling and defect scoring engine

This project models the decision logic of the image comparison tool, the
`ImageComparisonTool` class of `image_comparison_tool.py`. The tool compares a
reference image with a test image at chosen pixel coordinates. It flags each
point whose RGB difference is too large, and grades the test image by the share
of points that pass.

The model has five modules:

- `Pixels` (Pixels.dfy) holds decoded images as rows of RGB triples, plus
  coordinates and bounds.
- `Sampler` (Sampler.dfy) is the coordinate sampler. It covers the four
  strategies `custom`, `random`, `grid` and `strategic`. The loops of the
  source are methods (`CustomPoints`, `RandomPoints`, `GridPoints`), each
  proved equal to a function or predicate that defines its result.
  `SamplePoints` picks the strategy by name.
- `Comparator` (Comparator.dfy) is the pixel comparator. It defines the
  per-point record `PointResult`, the batch specification `Comparison` and
  the loop `ComparePoints`.
- `Grader` (Grader.dfy) holds the quality grade, the count of significant
  points and the pass rate.
- `ComparisonTool` (Tool.dfy) holds the class `ImageComparisonTool`. Its
  fields are the ones the source updates in place: the two images, the test
  points, the comparison results and the threshold. Its methods change
  those fields and hand the computing to the modules above.

Significance is stated on squared distances, so the model needs no square
root. A point is significant when `dr² + dg² + db² > threshold²`. Because the
threshold is always positive, this is the same test as the source's
`sqrt(...) > threshold`, as `Comparator.SignificanceIsEuclidean` proves.
Grid coordinates use integer floor division, which is what truncating the
source's float quotient gives for non-negative operands.

### Behaviour a reader might not expect

The model follows what the code does in each of these cases.

- For `grid` with 8 points, one might expect a 3×3 lattice. The code builds
  `cols = int(sqrt(8)) = 2` and `rows = ceil(8/2) = 4`, a 2×4 lattice. On 800×600 the points are
  x ∈ {266, 533} and y ∈ {120, 240, 360, 480} (`Sampler.GridEightOn800By600`).
- For `num_points ≥ 0`, the requested count caps every strategy except
  `custom`, which ignores `num_points` (`Sampler.SampledCount`). For a
  negative count, `random` returns no points, and `strategic` keeps a prefix
  of the catalogue without its last `-num_points` entries, as Python's `[:n]`
  does. For example, −3 gives the first 5 entries.
- Nothing in the code rejects a reference and a test image of different
  sizes. The model
  makes equal sizes a precondition of the comparison.
- The report text says differences "≥ threshold" are flagged. The code uses
  a strict `>` at line 206, and so does the model.
- Grid points avoid the border only on large images. On a 3-pixel-wide
  image with 2 columns, the second column lands on x = 2, the last pixel.
  The model proves only that every grid point is inside the image.

## Model

| member | source | states |
|---|---|---|
| Sampler.FloorSqrt | image_comparison_tool.py:138 | the column count is the integer square root: c² ≤ n < (c+1)² |
| Sampler.CeilDiv | image_comparison_tool.py:139 | the row count is the rounded-up quotient: n ≤ q·cols < n + cols |
| Sampler.SliceStop | image_comparison_tool.py:162 | Python's `[:stop]` stop index (negative counts from the end) never passes the length |
| Sampler.InBoundsOnly | image_comparison_tool.py:119-127 | the custom filter is never longer than its input, and everything it keeps is inside the image |
| Sampler.InBoundsOnlySingle | image_comparison_tool.py:122-126 | one point is kept exactly when 0 ≤ x < width and 0 ≤ y < height |
| Sampler.InBoundsOnlyAppend | image_comparison_tool.py:122-124 | filtering distributes over concatenation, so kept points stay in their original order |
| Sampler.InBoundsOnlyCounts | image_comparison_tool.py:121-127 | each in-bounds point occurs as often as in the input; out-of-bounds points never occur (dropped, not substituted) |
| Sampler.InBoundsOnlyKeepsAll | image_comparison_tool.py:121-127 | a list already inside the image comes back unchanged |
| Sampler.CustomPoints | image_comparison_tool.py:119-127 | the custom loop returns exactly the in-bounds subsequence of the caller's points |
| Sampler.RandomSampleInBounds | image_comparison_tool.py:129-134 | on images of at least 20×20, every random point is inside the image |
| Sampler.RandomPoints | image_comparison_tool.py:129-134 | max(num_points, 0) points (repeats allowed), each with 10 ≤ x ≤ width−10 and 10 ≤ y ≤ height−10 |
| Sampler.FloorSqrtUnique | image_comparison_tool.py:138 | the column count is the only c with c² ≤ n < (c+1)² |
| Sampler.RowMajorIndex | image_comparison_tool.py:141-147 | the point appended at row i, column j is entry i·cols + j of the row-major order |
| Sampler.GridShape | image_comparison_tool.py:138-143 | for n ≥ 1 the lattice has at least one row and column, cols·rows ≥ n, and the last row is not empty |
| Sampler.LatticeCoordinate | image_comparison_tool.py:145-146 | a coordinate ⌊m·size/(cells+1)⌋ with 1 ≤ m ≤ cells lies in [0, size) |
| Sampler.RowOfIndex | image_comparison_tool.py:141-143 | every emitted entry lies in one of the `rows` rows |
| Sampler.GridInBounds | image_comparison_tool.py:136-147 | every grid point satisfies 0 ≤ x < width and 0 ≤ y < height |
| Sampler.GridEightOn800By600 | image_comparison_tool.py:136-147 | n = 8 gives 2 columns and 4 rows; the eight points on 800×600 are listed exactly |
| Sampler.GridPoints | image_comparison_tool.py:136-147 | the nested loop, with its early break, yields exactly the first n lattice points in row-major order |
| Sampler.StrategicCatalogue | image_comparison_tool.py:151-161 | eight entries, all inside the image iff width > 50 and height > 50 |
| Sampler.StrategicPoints | image_comparison_tool.py:162 | a prefix of the catalogue of at most 8 entries: min(n, 8) of them for n ≥ 0, and max(8 + n, 0) for negative n, as Python's `[:n]` gives |
| Sampler.StrategicInBounds | image_comparison_tool.py:151-162 | when at least one entry is taken, all points are inside the image iff width > 50 and height > 50 |
| Sampler.SamplePoints | image_comparison_tool.py:116-164 | picks the strategy by name; "custom" without points and unknown names give [] |
| Sampler.SampledInBounds | image_comparison_tool.py:116-164 | every sampled point is inside the image (strategic needs more than 50 pixels each way once it takes at least one entry) |
| Sampler.SampledCount | image_comparison_tool.py:116-164 | at most num_points points unless custom; custom at most as many as given; strategic at most 8; random and grid exactly max(n, 0) |
| Comparator.ComparePoints | image_comparison_tool.py:183-211 | the comparison loop returns one record per test point, in order, equal to the batch specification |
| Comparator.ComparisonRecords | image_comparison_tool.py:185-207 | record k has point_id k+1, the k-th coordinates, both pixels, difference test−ref per channel, and significance squared > threshold² |
| Comparator.SignificanceIsEuclidean | image_comparison_tool.py:196-206 | for a positive threshold, squared > threshold² iff the Euclidean distance > threshold; at exactly the threshold a point passes |
| Comparator.ZeroNormIffZeroDelta | image_comparison_tool.py:191-196 | the squared distance is 0 iff every channel difference is 0 |
| Comparator.ZeroDeltaIffSamePixel | image_comparison_tool.py:191-193 | all channel differences are 0 iff the two pixels are equal |
| Comparator.ZeroNeverExceeds | image_comparison_tool.py:206 | a zero distance is never significant at any positive threshold, which is every threshold the tool can hold |
| Comparator.ComparisonSwap | image_comparison_tool.py:187-206 | swapping the images negates every difference and keeps the distance and the verdict |
| Comparator.IdenticalPixelsPass | image_comparison_tool.py:191-206 | equal pixels, such as (120,255,10) against itself, have distance 0 and are not significant at any positive threshold |
| Comparator.BlackAgainstWhite | image_comparison_tool.py:191-206 | (0,0,0) against (255,255,255) has squared distance 195075 (≈ 441.67) and is significant at 30 |
| Grader.CalculateQualityGrade | image_comparison_tool.py:215-232 | returns the label of the rate's grade paired with that grade's fixed description |
| Grader.GradeOf | image_comparison_tool.py:225-232 | the grade is the highest whose inclusive lower bound (95 / 87.5 / 75) the rate reaches |
| Grader.GradeLabelsDistinct | image_comparison_tool.py:23-26 | the four labels are distinct, so a label names exactly one grade |
| Grader.GradeBands | image_comparison_tool.py:17-19 | EXCELLENT iff rate ≥ 95, GOOD iff 87.5 ≤ rate < 95, ACCEPTABLE iff 75 ≤ rate < 87.5, FAIL iff rate < 75 |
| Grader.GradeMonotone | image_comparison_tool.py:225-232 | a higher pass rate never gets a lower grade |
| Grader.GradeBoundaries | image_comparison_tool.py:17-19 | 95.0, 87.5, 75.0 and 74.999 give EXCELLENT, GOOD, ACCEPTABLE and FAIL |
| Grader.SignificantCount | image_comparison_tool.py:371-372 | the count of significant records never exceeds the number of records |
| Grader.SignificantCountAppend | image_comparison_tool.py:371-372 | the count of a concatenation is the sum of the counts |
| Grader.SignificantCountExtremes | image_comparison_tool.py:371-372 | the count is 0 iff no record is significant, and equals the length iff all are |
| Grader.SignificantCountDominated | image_comparison_tool.py:371-372 | if b flags every point that a flags, a's count is at most b's |
| Grader.Rate | image_comparison_tool.py:373-374 | the pass rate lies in [0, 100]; it is 100 iff there are no failures and 0 iff every point failed |
| Grader.PassRate | image_comparison_tool.py:371-374 | a batch's pass rate lies in [0, 100]; it is 100 iff no record is significant and 0 iff every record is |
| Grader.RateAntitone | image_comparison_tool.py:374 | more failures out of the same total never raise the pass rate |
| Grader.EightPointsTwoFailures | image_comparison_tool.py:371-384 | 8 points with 2 significant give a pass rate of exactly 75, graded ACCEPTABLE |
| Grader.FewerFailuresNeverWorse | image_comparison_tool.py:371-384 | of two equal-size batches, the one with fewer failures never gets the lower grade |
| Grader.RaisingThresholdNeverWorse | image_comparison_tool.py:196-206 | a higher threshold flags no more points at the same coordinates and never lowers the grade |
| ComparisonTool.SampledPointsComparable | image_comparison_tool.py:164 | on two same-size images, sampled points meet the comparator's bounds requirement (strategic corners, once taken, need more than 50 pixels each way) |
| ComparisonTool.ImageComparisonTool.constructor | image_comparison_tool.py:34-48 | no images, no points, no results, threshold 30.0 |
| ComparisonTool.ImageComparisonTool.SetSignificanceThreshold | image_comparison_tool.py:50-60 | threshold ≤ 0 raises ValueError and changes nothing; otherwise it becomes the threshold; points and results stay |
| ComparisonTool.ImageComparisonTool.GetSignificanceThreshold | image_comparison_tool.py:62-69 | returns the stored threshold, which is always positive |
| ComparisonTool.ImageComparisonTool.LoadImages | image_comparison_tool.py:78-94 | stores what the decoder produced for each file; succeeds iff both images were read |
| ComparisonTool.ImageComparisonTool.GenerateTestPoints | image_comparison_tool.py:100-166 | no reference image: returns [] and keeps test_points; otherwise test_points becomes the sampled list |
| ComparisonTool.ImageComparisonTool.ComparePixels | image_comparison_tool.py:168-213 | no points or a missing image: returns [] and keeps the results; otherwise the new batch replaces comparison_results in full |
| ComparisonTool.ImageComparisonTool.ReportSummary | image_comparison_tool.py:358-384 | no results gives no summary; otherwise the totals, the batch's pass rate (in [0, 100], 100 iff nothing failed), and the label and description of that rate's grade |
| ComparisonTool.ImageComparisonTool.RunFullAnalysis | image_comparison_tool.py:450-518 | load, sample, compare, summarise; once both images load, the test points are what the sampler returned; there is a summary iff both images loaded and some point was sampled; a failed load keeps the old points and results, and without a summary the old results stay |

## Left out

- Image decoding (`cv2.imread`) and the BGR to RGB conversion are not modelled. `LoadImages` receives the decoded images, already in RGB order, or None for a file that could not be read. When only one file loads, the source keeps that image unconverted (BGR). The model cannot show this, and no comparison runs in that state anyway.
- `visualize_comparison` (chart rendering), the report's text layout and file writing, and all console messages are not modelled. From `generate_report` only the empty-results guard and the summary arithmetic are kept (`ReportSummary`).
- From `run_full_analysis`, the directories, timestamps, file names and the `_last_method` attribute (used only in report text) are not modelled.
- `total_difference` is a float square root in the source. The model stores its square, `squaredDifference`, and compares it with threshold².
- Floating-point rounding is not modelled. Pass rates, thresholds and grade bounds are exact reals. Grid spacing and `ceil` use exact integer arithmetic. The model does not prove that the source's double-precision pass rate lands on the same side of a grade bound as the exact rate.
- A NaN threshold is not modelled. Python's `NaN <= 0` is false, so the source would accept it; reals have no NaN.
- RandomPoints: states the count and the range of each draw, not that draws are uniform or independent. Each `random.randint` call is an unconstrained choice within its inclusive range.
- Failures the source does not guard against are preconditions here:
  - `random.randint` raises when width or height is below 20 and at least one point is drawn (`CanSample`).
  - `grid` divides by zero for 0 points and takes the square root of a negative count (`CanSample`).
  - `compare_pixels` does no bounds check. NumPy wraps negative indices and raises on indices that are too large. The comparison requires every test point inside both images, and both images of one size (`ReadyToCompare`).
- `custom_points=None` behaves like an empty list in the source, so the model takes a sequence only.
- The command-line front ends (`cli_tool.py`, `run_checker.py`), the interactive terminal demo, the web interface and the demo/fixture scripts are not part of this model.
