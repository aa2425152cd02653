/**
 * The CoreGraphics value types the presentation code works with (`CGPoint`, `CGSize`,
 * `CGRect`), with `CGFloat` taken as `real`.
 */
module Geometry {

  function Abs(x: real): (r: real)
    ensures r >= 0.0 && (r == x || r == -x)
  {
    if x < 0.0 then -x else x
  }

  /** Swift's `min(_:_:)`. */
  function Min(a: real, b: real): (r: real)
    ensures r <= a && r <= b && (r == a || r == b)
  {
    if b < a then b else a
  }

  /** Swift's `max(_:_:)`. */
  function Max(a: real, b: real): (r: real)
    ensures r >= a && r >= b && (r == a || r == b)
  {
    if b > a then b else a
  }

  datatype Point = Point(x: real, y: real)

  datatype Size = Size(width: real, height: real)

  /** `CGSize.zero`. */
  const ZeroSize: Size := Size(0.0, 0.0)

  datatype Rect = Rect(origin: Point, size: Size) {

    /** `CGRect.width`: the width of the standardized rectangle, which is never negative. */
    function Width(): (w: real)
      ensures w >= 0.0 && (w == size.width || w == -size.width)
    {
      Abs(size.width)
    }

    /** `CGRect.height`: the height of the standardized rectangle, which is never negative. */
    function Height(): (h: real)
      ensures h >= 0.0 && (h == size.height || h == -size.height)
    {
      Abs(size.height)
    }
  }

  function RectOf(x: real, y: real, width: real, height: real): (r: Rect)
  {
    Rect(Point(x, y), Size(width, height))
  }
}
