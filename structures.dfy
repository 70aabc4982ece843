/** Static obstacles: platforms and the ground. */
module Structures {
  import opened Geometry

  /** A static obstacle given by its top-left corner and size, fixed once built.
      Ground is the same value: it adds no behaviour. Colour and texture only
      matter for drawing and are not part of this value. */
  datatype Structure = Structure(x: real, y: real, width: real, height: real) {

    /** The obstacle's collision box. */
    function GetRect(): (r: Box)
      ensures r.left == x && r.top == y
      ensures r.Right() == x + width && r.Bottom() == y + height
      ensures r.HasArea() <==> width > 0.0 && height > 0.0
    {
      Box(x, y, width, height)
    }
  }
}
