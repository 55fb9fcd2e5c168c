/** Pixel geometry shared by every variant of the slider: measured sizes and the touch rectangle. */
module Geometry {

  /** A measured layout size in pixels, as delivered by an `onLayout` callback. */
  datatype Size = Size(width: real, height: real)

  /** The zero size every variant's state starts from before any layout arrives. */
  const ZeroSize := Size(0.0, 0.0)

  /** An axis-aligned rectangle given by its top-left corner and its extent. */
  datatype Rect = Rect(x: real, y: real, width: real, height: real) {

    /** Point containment, inclusive on all four edges. */
    predicate ContainsPoint(px: real, py: real) {
      px >= x && py >= y && px <= x + width && py <= y + height
    }
  }

  /** Every corner of a rectangle with non-negative extent lies inside it: all four edges are inclusive. */
  lemma CornersContained(r: Rect)
    requires r.width >= 0.0 && r.height >= 0.0
    ensures r.ContainsPoint(r.x, r.y)
    ensures r.ContainsPoint(r.x + r.width, r.y)
    ensures r.ContainsPoint(r.x, r.y + r.height)
    ensures r.ContainsPoint(r.x + r.width, r.y + r.height)
  {
  }

  /** A point strictly beyond any one edge is not contained. */
  lemma BeyondAnEdgeNotContained(r: Rect, px: real, py: real)
    requires px < r.x || py < r.y || px > r.x + r.width || py > r.y + r.height
    ensures !r.ContainsPoint(px, py)
  {
  }
}
