/** Points and bounding boxes in the coordinate space of the drawing surface.
    Coordinates are modelled as integers: the source only subtracts them and
    takes Math.min and Math.abs, which are exact on integers. */
module Geometry {

  datatype Point = Point(x: int, y: int)

  /** An annotation rectangle `{x, y, width, height}`; (x, y) is its top-left corner. */
  datatype Box = Box(x: int, y: int, width: int, height: int)

  function Min(a: int, b: int): (r: int)
    ensures r <= a && r <= b
    ensures r == a || r == b
  {
    if a <= b then a else b
  }

  function Max(a: int, b: int): (r: int)
    ensures r >= a && r >= b
    ensures r == a || r == b
  {
    if a <= b then b else a
  }

  function Abs(a: int): (r: int)
    ensures r >= 0
    ensures r == a || r == -a
  {
    if a < 0 then -a else a
  }

  /** The position of a pointer event relative to the surface whose bounding
      rectangle has its top-left corner at `origin`
      (`e.clientX - rect.left`, `e.clientY - rect.top`). */
  function SurfaceLocal(client: Point, origin: Point): (p: Point)
    ensures p.x + origin.x == client.x && p.y + origin.y == client.y
  {
    Point(client.x - origin.x, client.y - origin.y)
  }

  /** The box committed for a drag from `s` to `e`: the top-left corner is the
      componentwise minimum and the size the absolute difference, so the box is
      the same whichever way the pointer was dragged. */
  function Normalize(s: Point, e: Point): (b: Box)
    ensures b.width >= 0 && b.height >= 0
    // the horizontal extent of the box is exactly the span of the two x-coordinates
    ensures (b.x == s.x && b.x + b.width == e.x) || (b.x == e.x && b.x + b.width == s.x)
    // and likewise vertically
    ensures (b.y == s.y && b.y + b.height == e.y) || (b.y == e.y && b.y + b.height == s.y)
  {
    Box(Min(s.x, e.x), Min(s.y, e.y), Abs(e.x - s.x), Abs(e.y - s.y))
  }

  /** Whether a point lies in the closed rectangle. */
  predicate Contains(b: Box, p: Point) {
    b.x <= p.x <= b.x + b.width && b.y <= p.y <= b.y + b.height
  }

  /** The committed box has its near corner at the minima and its far corner at
      the maxima of the two points. */
  lemma NormalizeCorners(s: Point, e: Point)
    ensures Normalize(s, e).x == Min(s.x, e.x) && Normalize(s, e).y == Min(s.y, e.y)
    ensures Normalize(s, e).x + Normalize(s, e).width == Max(s.x, e.x)
    ensures Normalize(s, e).y + Normalize(s, e).height == Max(s.y, e.y)
  {
  }

  /** Dragging from `s` to `e` and from `e` to `s` commits the same box. */
  lemma NormalizeSymmetric(s: Point, e: Point)
    ensures Normalize(s, e) == Normalize(e, s)
  {
  }

  /** The committed box is the smallest rectangle containing both end points of
      the drag: it contains both, and any box of non-negative size that contains
      both contains it. */
  lemma NormalizeIsBoundingRectangle(s: Point, e: Point, c: Box)
    requires c.width >= 0 && c.height >= 0
    requires Contains(c, s) && Contains(c, e)
    ensures Contains(Normalize(s, e), s) && Contains(Normalize(s, e), e)
    ensures c.x <= Normalize(s, e).x
    ensures Normalize(s, e).x + Normalize(s, e).width <= c.x + c.width
    ensures c.y <= Normalize(s, e).y
    ensures Normalize(s, e).y + Normalize(s, e).height <= c.y + c.height
  {
  }

  /** A box of non-negative size is the normalisation of its own two opposite
      corners, so every such box can be drawn by some drag. */
  lemma NormalizeOfCorners(b: Box)
    requires b.width >= 0 && b.height >= 0
    ensures Normalize(Point(b.x, b.y), Point(b.x + b.width, b.y + b.height)) == b
    ensures Normalize(Point(b.x + b.width, b.y + b.height), Point(b.x, b.y)) == b
  {
  }

  /** The four drag directions from the anchor (50, 50). */
  lemma NormalizeFourDirections()
    ensures Normalize(Point(50, 50), Point(10, 20)) == Box(10, 20, 40, 30)
    ensures Normalize(Point(50, 50), Point(90, 20)) == Box(50, 20, 40, 30)
    ensures Normalize(Point(50, 50), Point(10, 80)) == Box(10, 50, 40, 30)
    ensures Normalize(Point(50, 50), Point(90, 80)) == Box(50, 50, 40, 30)
  {
  }
}
