/** The axis-aligned rectangle the game draws and collides (android.graphics.RectF). */
module Geometry {

  /** A RectF value: its four float edges, taken as reals. */
  datatype Rect = Rect(left: real, top: real, right: real, bottom: real)
  {
    /** RectF.width() */
    function Width(): real { right - left }

    /** RectF.height() */
    function Height(): real { bottom - top }

    /** RectF.centerX() */
    function CenterX(): real { left + Width() / 2.0 }
  }

  /** RectF.intersects(a, b): the two rectangles overlap in an open region on both axes,
      so rectangles that only share an edge do not intersect. */
  predicate Intersects(a: Rect, b: Rect)
  {
    a.left < b.right && b.left < a.right && a.top < b.bottom && b.top < a.bottom
  }
}
