/** Points, rectangles and cursors of the host UI framework, as plain values. */
module Geometry {

  datatype Point = Point(x: real, y: real)

  /** An axis-aligned rectangle given by its top-left corner and its size. */
  datatype Rect = Rect(x: real, y: real, width: real, height: real)
  {
    /** Rect.Contains(Point): the edges belong to the rectangle. */
    predicate Contains(p: Point)
    {
      x <= p.x <= x + width && y <= p.y <= y + height
    }
  }

  /** The mouse cursor shapes the timelines choose between. */
  datatype Cursor = Default | Hand | Cross | SizeWestEast

  /** The first rectangle containing p, or -1 when none does. */
  function FirstContaining(rects: seq<Rect>, p: Point): (r: int)
    ensures -1 <= r < |rects|
    ensures r == -1 <==> forall i :: 0 <= i < |rects| ==> !rects[i].Contains(p)
    ensures r >= 0 ==> rects[r].Contains(p) && forall i :: 0 <= i < r ==> !rects[i].Contains(p)
  {
    if |rects| == 0 then -1
    else if rects[0].Contains(p) then 0
    else
      var k := FirstContaining(rects[1..], p);
      if k < 0 then -1 else k + 1
  }
}
