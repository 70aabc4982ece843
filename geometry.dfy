/** Axis-aligned boxes and the overlap test used by every collision check. */
module Geometry {

  /** Absolute value on exact reals. */
  function Abs(v: real): (r: real)
    ensures r >= 0.0
    ensures r == v || r == -v
  {
    if v < 0.0 then -v else v
  }

  /** A box given by its top-left corner and its size (y grows downwards). */
  datatype Box = Box(left: real, top: real, width: real, height: real) {
    function Right(): real { left + width }
    function Bottom(): real { top + height }
    predicate HasArea() { width > 0.0 && height > 0.0 }
  }

  /** The overlap test of a colliding rectangle: strict on both axes, so boxes that
      only share an edge do not overlap, and never true for a box without area. */
  function Overlaps(a: Box, b: Box): (r: bool)
    ensures r ==> a.HasArea() && b.HasArea()
    ensures a.Bottom() == b.top || b.Bottom() == a.top || a.Right() == b.left || b.Right() == a.left ==> !r
  {
    a.HasArea() && b.HasArea() &&
    a.left < b.Right() && a.Right() > b.left &&
    a.top < b.Bottom() && a.Bottom() > b.top
  }

  /** Boxes that touch along a horizontal edge (one's bottom is the other's top) do not overlap. */
  lemma TouchingDoesNotOverlap(a: Box, b: Box)
    requires a.Bottom() == b.top
    ensures !Overlaps(a, b) && !Overlaps(b, a)
  {
  }
}
