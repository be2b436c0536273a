/** Pixel geometry used by the gesture step: fingertip points, the pinch
    test and the axis-aligned button rectangles of the top toolbar. */
module Geometry {

  /** A fingertip position in frame pixels (already converted to integers). */
  datatype Point = Point(x: int, y: int)

  /** The painter stores "no previous point" as the origin; a real point at
      the origin is indistinguishable from it. */
  const Unset := Point(0, 0)

  /** Distance threshold, in pixels, for both the select and the draw pinch. */
  const PinchRadius := 40

  /** Squared Euclidean distance between two points. */
  function SqDist(a: Point, b: Point): (d: int)
    ensures d >= 0
    ensures d == 0 <==> a == b
  {
    var dx, dy := a.x - b.x, a.y - b.y;
    dx * dx + dy * dy
  }

  /** Two fingertips are pinched together when they are less than
      PinchRadius pixels apart. Compared on squared integers. */
  predicate Close(a: Point, b: Point)
  {
    SqDist(a, b) < PinchRadius * PinchRadius
  }

  /** The squared-integer test agrees with comparing the true Euclidean
      distance `h` (what a hypotenuse routine returns, up to rounding)
      against the radius. */
  lemma HypotThreshold(a: Point, b: Point, h: real)
    requires 0.0 <= h && h * h == SqDist(a, b) as real
    ensures h < PinchRadius as real <==> Close(a, b)
  {
    var r := PinchRadius as real;
    var d := SqDist(a, b);
    SquareBelow(h, r);
    assert r * r == (PinchRadius * PinchRadius) as real;
    assert h * h < r * r <==> d < PinchRadius * PinchRadius;
  }

  /** For non-negative reals, comparing values and comparing squares agree. */
  lemma SquareBelow(h: real, r: real)
    requires 0.0 <= h && 0.0 < r
    ensures h < r <==> h * h < r * r
  {
    if h < r {
      ProductPositive(r - h, r + h);
      assert r * r - h * h == (r - h) * (r + h);
    } else {
      ProductNonNegative(h - r, h + r);
      assert h * h - r * r == (h - r) * (h + r);
    }
  }

  lemma ProductPositive(x: real, y: real)
    requires 0.0 < x && 0.0 < y
    ensures 0.0 < x * y
  {
  }

  lemma ProductNonNegative(x: real, y: real)
    requires 0.0 <= x && 0.0 <= y
    ensures 0.0 <= x * y
  {
  }

  /** An axis-aligned rectangle given by two corners. */
  datatype Rect = Rect(left: int, top: int, right: int, bottom: int)

  /** Strict containment: points on the border are outside. */
  predicate StrictlyInside(p: Point, r: Rect)
  {
    r.left < p.x < r.right && r.top < p.y < r.bottom
  }
}
