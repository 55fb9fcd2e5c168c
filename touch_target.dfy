/**
 * The enlarged touch target centred on the thumb, and the hit test that decides whether a press
 * starts a drag.
 *
 * Before the layout is complete the source's overflow size is an empty object, so its `width` and
 * `height` are `undefined`; the rectangle built from them has NaN coordinates and contains no
 * point. That state is modelled as `None`.
 */
module TouchTarget {
  import opened Optional
  import opened Geometry
  import opened ValueMapping

  /** The margins by which the touch area overflows the slider: never negative. */
  function OverflowOf(touchSize: Size, thumbSize: Size, containerSize: Size): (r: Size)
    ensures r.width >= 0.0 && r.height >= 0.0
    ensures r.width >= touchSize.width - thumbSize.width
    ensures r.height >= touchSize.height - containerSize.height
    ensures r.width == 0.0 || r.width == touchSize.width - thumbSize.width
    ensures r.height == 0.0 || r.height == touchSize.height - containerSize.height
  {
    Size(Max(0.0, touchSize.width - thumbSize.width), Max(0.0, touchSize.height - containerSize.height))
  }

  /** `_getTouchOverflowSize`: empty until every size is measured. */
  function TouchOverflowSize(allMeasured: bool, touchSize: Size, thumbSize: Size, containerSize: Size): (r: Option<Size>)
    ensures r.Some? <==> allMeasured
    ensures r.Some? ==> r.value == OverflowOf(touchSize, thumbSize, containerSize)
  {
    if allMeasured then Some(OverflowOf(touchSize, thumbSize, containerSize)) else None
  }

  /**
   * `_getThumbTouchRect`: a rectangle of exactly the touch size, centred on the thumb (whose
   * offset along the track is `thumbStart`) in the coordinates of the overflowing touch area.
   */
  function ThumbTouchRect(overflow: Option<Size>, o: Orientation, thumbStart: real,
                          thumbSize: Size, containerSize: Size, touchSize: Size): (r: Option<Rect>)
    ensures r.Some? <==> overflow.Some?
    ensures r.Some? ==> r.value.width == touchSize.width && r.value.height == touchSize.height
    ensures r.Some? && o == Horizontal ==>
      && r.value.x + r.value.width / 2.0 == overflow.value.width / 2.0 + thumbStart + thumbSize.width / 2.0
      && r.value.y + r.value.height / 2.0 == overflow.value.height / 2.0 + containerSize.height / 2.0
    ensures r.Some? && o == Vertical ==>
      && r.value.x + r.value.width / 2.0 == overflow.value.width / 2.0 + containerSize.width / 2.0
      && r.value.y + r.value.height / 2.0 == overflow.value.height / 2.0 + thumbStart + thumbSize.height / 2.0
  {
    match overflow
    case None => None
    case Some(ov) =>
      if o == Horizontal then
        Some(Rect(ov.width / 2.0 + thumbStart + (thumbSize.width - touchSize.width) / 2.0,
                  ov.height / 2.0 + (containerSize.height - touchSize.height) / 2.0,
                  touchSize.width, touchSize.height))
      else
        Some(Rect(ov.width / 2.0 + (containerSize.width - touchSize.width) / 2.0,
                  ov.height / 2.0 + thumbStart + (thumbSize.height - touchSize.height) / 2.0,
                  touchSize.width, touchSize.height))
  }

  /** `_thumbHitTest`: the press location lies in the touch rectangle (never while it is undefined). */
  predicate ThumbHitTest(rect: Option<Rect>, locationX: real, locationY: real) {
    rect.Some? && rect.value.ContainsPoint(locationX, locationY)
  }

  /** Before the layout is complete no press hits the thumb. */
  lemma NoHitBeforeMeasured(o: Orientation, thumbStart: real, thumbSize: Size, containerSize: Size,
                            touchSize: Size, locationX: real, locationY: real)
    ensures !ThumbHitTest(ThumbTouchRect(TouchOverflowSize(false, touchSize, thumbSize, containerSize),
                                         o, thumbStart, thumbSize, containerSize, touchSize),
                          locationX, locationY)
  {
  }

  /**
   * Once measured, a press on the centre of the thumb (shifted by the touch area's overflow
   * margin) always hits, whatever the orientation.
   */
  lemma ThumbCentreHits(o: Orientation, thumbStart: real, thumbSize: Size, containerSize: Size, touchSize: Size)
    requires touchSize.width >= 0.0 && touchSize.height >= 0.0
    ensures var ov := OverflowOf(touchSize, thumbSize, containerSize);
            var rect := ThumbTouchRect(TouchOverflowSize(true, touchSize, thumbSize, containerSize),
                                       o, thumbStart, thumbSize, containerSize, touchSize);
            if o == Horizontal then
              ThumbHitTest(rect, ov.width / 2.0 + thumbStart + thumbSize.width / 2.0,
                                 ov.height / 2.0 + containerSize.height / 2.0)
            else
              ThumbHitTest(rect, ov.width / 2.0 + containerSize.width / 2.0,
                                 ov.height / 2.0 + thumbStart + thumbSize.height / 2.0)
  {
  }
}
