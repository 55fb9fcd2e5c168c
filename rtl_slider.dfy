/**
 * SliderExample/Slider.js: the horizontal slider that follows the host's right-to-left layout
 * direction and, with `trackClickable`, starts a drag wherever the track is pressed.
 */
module RtlSlider {
  import opened Optional
  import opened Geometry
  import opened ValueMapping
  import opened TouchTarget
  import opened LayoutCache
  import opened SliderProps

  class Slider {
    var props: Props
    /** `I18nManager.isRTL`, fixed for the life of the component. */
    const isRTL: bool

    // this.state
    var containerSize: Size
    var trackSize: Size
    var thumbSize: Size
    var allMeasured: bool
    /** The current value of the `Animated.Value` held in `state.value`. */
    var value: real

    // instance fields
    var cachedContainerSize: Option<Size>
    var cachedTrackSize: Option<Size>
    var cachedThumbSize: Option<Size>
    var previousLeft: real

    // what the component has sent out: callback invocations and started animations
    var events: seq<Event>
    var animations: seq<Animation>

    function LayoutView(): Layout
      reads this
    {
      Layout(cachedContainerSize, cachedTrackSize, cachedThumbSize, containerSize, trackSize, thumbSize, allMeasured)
    }

    ghost predicate Valid()
      reads this
    {
      props.ValidRange() && Consistent(LayoutView())
    }

    constructor (initial: Props, rtl: bool)
      requires initial.ValidRange()
      ensures Valid() && props == initial && isRTL == rtl && value == initial.value && LayoutView() == Initial()
      ensures previousLeft == 0.0 && events == [] && animations == []
    {
      props := initial;
      isRTL := rtl;
      containerSize, trackSize, thumbSize, allMeasured := ZeroSize, ZeroSize, ZeroSize, false;
      value := initial.value;
      cachedContainerSize, cachedTrackSize, cachedThumbSize := None, None, None;
      previousLeft := 0.0;
      events, animations := [], [];
    }

    /** The horizontal travel length: container width less thumb width. */
    function Length(): real
      reads this
    {
      AxisLength(Horizontal, containerSize, thumbSize)
    }

    /** `_getThumbLeft`: the ratio is mirrored under right-to-left. */
    function ThumbLeft(v: real): (r: real)
      reads this
      requires props.ValidRange()
      ensures v == props.minimumValue ==> r == (if isRTL then Length() else 0.0)
      ensures v == props.maximumValue ==> r == (if isRTL then 0.0 else Length())
      ensures r == Length() - ThumbOffset(props.minimumValue, props.maximumValue, Length(), v, !isRTL)
    {
      ThumbOffsetMirror(props.minimumValue, props.maximumValue, Length(), v);
      ThumbOffset(props.minimumValue, props.maximumValue, Length(), v, isRTL)
    }

    /** `_getValue`: the anchor plus the horizontal delta, as a mirrored ratio under right-to-left. */
    function GestureValue(g: GestureState): (r: real)
      reads this
      requires Length() != 0.0
      ensures props.minimumValue <= props.maximumValue ==> props.minimumValue <= r <= props.maximumValue
    {
      ValueAtOffset(props.minimumValue, props.maximumValue, props.step, Length(), previousLeft + g.dx, isRTL)
    }

    /** The drag anchor a grant sets: under the press when the track is clickable, else the thumb. */
    function GrantAnchor(g: GestureState): (r: real)
      reads this
      requires props.ValidRange()
      ensures props.trackClickable ==> r == g.x0 - 1.5 * thumbSize.width
      ensures !props.trackClickable ==> r == ThumbLeft(value)
    {
      if props.trackClickable then g.x0 - (thumbSize.width + thumbSize.width / 2.0) else ThumbLeft(value)
    }

    /** `_getThumbTouchRect`, with `_getTouchOverflowSize`. */
    function TouchRect(): (r: Option<Rect>)
      reads this
      requires props.ValidRange()
      ensures r.Some? <==> allMeasured
      ensures r.Some? ==> r.value.width == props.thumbTouchSize.width && r.value.height == props.thumbTouchSize.height
    {
      ThumbTouchRect(TouchOverflowSize(allMeasured, props.thumbTouchSize, thumbSize, containerSize),
                     Horizontal, ThumbLeft(value), thumbSize, containerSize, props.thumbTouchSize)
    }

    /**
     * Without a step, a drag that has not moved since the anchor was set at the thumb's offset
     * gives back the value it started from.
     */
    lemma HoldingStillKeepsValue(g: GestureState)
      requires props.ValidRange() && props.step == 0.0 && Length() != 0.0
      requires props.minimumValue <= value <= props.maximumValue
      requires previousLeft == ThumbLeft(value) && g.dx == 0.0
      ensures GestureValue(g) == value
    {
      RoundTrip(props.minimumValue, props.maximumValue, Length(), value, isRTL);
    }

    /** Should a press become a drag? Always on a clickable track, otherwise only on the thumb. */
    method HandleStartShouldSetPanResponder(locationX: real, locationY: real) returns (b: bool)
      requires Valid()
      ensures props.trackClickable ==> b
      ensures !props.trackClickable ==> b == ThumbHitTest(TouchRect(), locationX, locationY)
      ensures !props.trackClickable && !allMeasured ==> !b
    {
      b := if props.trackClickable then true else ThumbHitTest(TouchRect(), locationX, locationY);
    }

    /** A touch moving over the thumb never claims the gesture. */
    method HandleMoveShouldSetPanResponder() returns (b: bool)
      ensures !b
    {
      b := false;
    }

    /** Another responder asking to take over is always refused. */
    method HandlePanResponderRequestEnd() returns (b: bool)
      ensures !b
    {
      b := false;
    }

    /** `_fireChangeEvent`: call the callback, if present, with the current value. */
    method FireChangeEvent(kind: EventKind)
      modifies this`events
      ensures events == old(events) + Notify(props.handlers, kind, value)
    {
      if kind in props.handlers {
        events := events + [Event(kind, value)];
      }
    }

    /** `_setCurrentValueAnimated`: start an animation of the held value towards `v`. */
    method SetCurrentValueAnimated(v: real)
      modifies this`animations
      ensures animations == old(animations) + [Animation(props.animationType, v)]
    {
      animations := animations + [Animation(props.animationType, v)];
    }

    /** The press is granted: set the anchor and report the start, even when disabled. */
    method HandlePanResponderGrant(g: GestureState)
      requires Valid()
      modifies this`previousLeft, this`events
      ensures Valid()
      ensures previousLeft == GrantAnchor(g)
      ensures !props.trackClickable ==> previousLeft == ThumbLeft(value)
      ensures events == old(events) + Notify(props.handlers, OnSlidingStart, value)
    {
      previousLeft := if props.trackClickable then g.x0 - (thumbSize.width + thumbSize.width / 2.0) else ThumbLeft(value);
      FireChangeEvent(OnSlidingStart);
    }

    /** A move: ignored when disabled, otherwise sets the value from the gesture and reports it. */
    method HandlePanResponderMove(g: GestureState)
      requires Valid()
      requires !props.disabled ==> Length() != 0.0
      modifies this`value, this`events
      ensures Valid()
      ensures props.disabled ==> value == old(value) && events == old(events)
      ensures !props.disabled ==>
        && value == GestureValue(g)
        && props.minimumValue <= value <= props.maximumValue
        && events == old(events) + Notify(props.handlers, OnValueChange, value)
    {
      if props.disabled {
        return;
      }
      value := GestureValue(g);
      FireChangeEvent(OnValueChange);
    }

    /** Release or termination: as a move, reporting completion instead. */
    method HandlePanResponderEnd(g: GestureState)
      requires Valid()
      requires !props.disabled ==> Length() != 0.0
      modifies this`value, this`events
      ensures Valid()
      ensures props.disabled ==> value == old(value) && events == old(events)
      ensures !props.disabled ==>
        && value == GestureValue(g)
        && props.minimumValue <= value <= props.maximumValue
        && events == old(events) + Notify(props.handlers, OnSlidingComplete, value)
    {
      if props.disabled {
        return;
      }
      value := GestureValue(g);
      FireChangeEvent(OnSlidingComplete);
    }

    /** `_handleMeasure`: cache the size unless it repeats, and publish all three once all are known. */
    method HandleMeasure(part: Part, size: Size)
      requires Valid()
      modifies this`cachedContainerSize, this`cachedTrackSize, this`cachedThumbSize,
               this`containerSize, this`trackSize, this`thumbSize, this`allMeasured
      ensures Valid()
      ensures LayoutView() == Record(old(LayoutView()), part, size)
    {
      RecordPreservesConsistent(LayoutView(), part, size);
      var currentSize := match part
        case ContainerSize => cachedContainerSize
        case TrackSize => cachedTrackSize
        case ThumbSize => cachedThumbSize;
      if currentSize.Some? && size.width == currentSize.value.width && size.height == currentSize.value.height {
        return;
      }
      match part {
        case ContainerSize => cachedContainerSize := Some(size);
        case TrackSize => cachedTrackSize := Some(size);
        case ThumbSize => cachedThumbSize := Some(size);
      }
      if cachedContainerSize.Some? && cachedTrackSize.Some? && cachedThumbSize.Some? {
        containerSize, trackSize, thumbSize := cachedContainerSize.value, cachedTrackSize.value, cachedThumbSize.value;
        allMeasured := true;
      }
    }

    /**
     * `componentDidUpdate`: runs after React has installed the new props, so the new
     * `animateTransitions` and `animationType` decide how a changed `value` is applied.
     */
    method ComponentDidUpdate(prevProps: Props)
      requires Valid()
      modifies this`value, this`animations
      ensures Valid()
      ensures props.value == prevProps.value ==> value == old(value) && animations == old(animations)
      ensures props.value != prevProps.value && props.animateTransitions ==>
        value == old(value) && animations == old(animations) + [Animation(props.animationType, props.value)]
      ensures props.value != prevProps.value && !props.animateTransitions ==>
        value == props.value && animations == old(animations)
    {
      var oldValue := prevProps.value;
      var newValue := props.value;
      if newValue != oldValue {
        if props.animateTransitions {
          SetCurrentValueAnimated(newValue);
        } else {
          value := newValue;
        }
      }
    }

    /** The host re-renders with `nextProps`: React installs them, then the hook runs. */
    method ReceiveProps(nextProps: Props)
      requires Valid() && nextProps.ValidRange()
      modifies this`props, this`value, this`animations
      ensures Valid() && props == nextProps
      ensures nextProps.value == old(props.value) ==> value == old(value) && animations == old(animations)
      ensures nextProps.value != old(props.value) && nextProps.animateTransitions ==>
        value == old(value) && animations == old(animations) + [Animation(nextProps.animationType, nextProps.value)]
      ensures nextProps.value != old(props.value) && !nextProps.animateTransitions ==>
        value == nextProps.value && animations == old(animations)
    {
      var prevProps := props;
      props := nextProps;
      ComponentDidUpdate(prevProps);
    }
  }

  /**
   * The rendered thumb's `translateX`: the value interpolated onto `[0, length]`, or onto
   * `[0, -length]` under right-to-left, where the thumb is laid out from the right edge.
   */
  function ThumbTranslateX(rtl: bool, min: real, max: real, length: real, v: real): (r: real)
    requires min < max
    ensures r == (if rtl then -ThumbOffset(min, max, length, v, false) else ThumbOffset(min, max, length, v, false))
  {
    InterpolateIsThumbOffset(min, max, length, v);
    assert Interpolate(min, max, 0.0, -length, v) == -Interpolate(min, max, 0.0, length, v);
    Interpolate(min, max, 0.0, if rtl then -length else length, v)
  }

  /** The rendered minimum track's width: not mirrored, as it is laid out from the start edge. */
  function MinimumTrackWidth(min: real, max: real, length: real, thumbWidth: real, v: real): (r: real)
    requires min < max
    ensures r == ThumbOffset(min, max, length, v, false) + thumbWidth / 2.0
  {
    InterpolateIsThumbOffset(min, max, length, v);
    Interpolate(min, max, 0.0, length, v) + thumbWidth / 2.0
  }

  /**
   * Seen from the container's left edge, the drawn thumb sits where `_getThumbLeft` (and so the
   * touch rectangle) puts it, and the minimum track ends at the thumb's centre, in either
   * layout direction. Under right-to-left the thumb's resting place is `length` from the left and
   * the track grows leftwards from the right edge `length + thumbWidth`.
   */
  lemma RenderedThumbMatchesThumbLeft(rtl: bool, min: real, max: real, length: real, thumbWidth: real, v: real)
    requires min < max
    ensures (if rtl then length else 0.0) + ThumbTranslateX(rtl, min, max, length, v)
            == ThumbOffset(min, max, length, v, rtl)
    ensures (if rtl then length + thumbWidth - MinimumTrackWidth(min, max, length, thumbWidth, v)
             else MinimumTrackWidth(min, max, length, thumbWidth, v))
            == ThumbOffset(min, max, length, v, rtl) + thumbWidth / 2.0
  {
    ThumbOffsetMirror(min, max, length, v);
  }
}
