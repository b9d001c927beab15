/**
  Decoded images and pixel coordinates, as the comparison engine sees them.

  An image is a grid of rows (indexed by y) of RGB triples (indexed by x),
  the shape a decoded 3-channel 8-bit buffer has once its channels are in
  R, G, B order. Decoding itself is not part of this model.
 */
module Pixels {

  /** One 8-bit colour channel. */
  type Channel = x: int | 0 <= x < 256

  datatype RGB = RGB(r: Channel, g: Channel, b: Channel)

  /** Rows from top to bottom; each row holds the pixels from left to right. */
  type Image = seq<seq<RGB>>

  /** A pixel coordinate: x is the column, y the row. */
  datatype Point = Point(x: int, y: int)

  /** What a successfully decoded image looks like: at least one row, at least
      one column, and every row as wide as the first. */
  predicate Rectangular(img: Image) {
    && |img| > 0
    && |img[0]| > 0
    && forall y :: 0 <= y < |img| ==> |img[y]| == |img[0]|
  }

  function Width(img: Image): nat
    requires Rectangular(img)
  {
    |img[0]|
  }

  function Height(img: Image): nat
  {
    |img|
  }

  predicate InBounds(p: Point, width: int, height: int) {
    0 <= p.x < width && 0 <= p.y < height
  }

  predicate AllInBounds(points: seq<Point>, width: int, height: int) {
    forall k :: 0 <= k < |points| ==> InBounds(points[k], width, height)
  }

  /** The pixel at column p.x of row p.y (the buffer is indexed [y, x]). */
  function PixelAt(img: Image, p: Point): RGB
    requires Rectangular(img)
    requires InBounds(p, Width(img), Height(img))
  {
    img[p.y][p.x]
  }
}
