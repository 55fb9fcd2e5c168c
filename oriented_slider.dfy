/**
 * src/Slider.js: the orientation-aware slider. The thumb moves along the width (horizontal) or
 * the height (vertical) of the container; the drag anchor is the `_previousStart` field.
 */
module OrientedSlider {
  import opened Optional
  import opened Geometry
  import opened ValueMapping
  import opened TouchTarget
  import opened LayoutCache
  import opened SliderProps

  class Slider {
    var props: Props

    // this.state
    var containerSize: Size
    var trackSize: Size
    var thumbSize: Size
    var allMeasured: bool
    /** The current value of the `Animated.Value` held in `state.value`. */
    var value: real

    // instance fields
    var cachedContainerSize: Option<Size>
    var cachedTrackSize: Option<Size>
    var cachedThumbSize: Option<Size>
    var previousStart: real

    // what the component has sent out: callback invocations and started animations
    var events: seq<Event>
    var animations: seq<Animation>

    function LayoutView(): Layout
      reads this
    {
      Layout(cachedContainerSize, cachedTrackSize, cachedThumbSize, containerSize, trackSize, thumbSize, allMeasured)
    }

    ghost predicate Valid()
      reads this
    {
      props.ValidRange() && Consistent(LayoutView())
    }

    constructor (initial: Props)
      requires initial.ValidRange()
      ensures Valid() && props == initial && value == initial.value && LayoutView() == Initial()
      ensures previousStart == 0.0 && events == [] && animations == []
    {
      props := initial;
      containerSize, trackSize, thumbSize, allMeasured := ZeroSize, ZeroSize, ZeroSize, false;
      value := initial.value;
      cachedContainerSize, cachedTrackSize, cachedThumbSize := None, None, None;
      previousStart := 0.0;
      events, animations := [], [];
    }

    /** The travel length along the configured axis. */
    function Length(): real
      reads this
    {
      AxisLength(props.orientation, containerSize, thumbSize)
    }

    /** `_getThumbStart`. */
    function ThumbStart(v: real): (r: real)
      reads this
      requires props.ValidRange()
      ensures v == props.minimumValue ==> r == 0.0
      ensures v == props.maximumValue ==> r == Length()
      ensures props.minimumValue <= v <= props.maximumValue && Length() >= 0.0 ==> 0.0 <= r <= Length()
    {
      ThumbOffsetWithinTravel(props.minimumValue, props.maximumValue, Length(), v);
      ThumbOffset(props.minimumValue, props.maximumValue, Length(), v, false)
    }

    /** `_getValue`: the anchor plus the delta along the configured axis, mapped back to a value. */
    function GestureValue(g: GestureState): (r: real)
      reads this
      requires Length() != 0.0
      ensures props.minimumValue <= props.maximumValue ==> props.minimumValue <= r <= props.maximumValue
    {
      ValueAtOffset(props.minimumValue, props.maximumValue, props.step, Length(),
                    previousStart + AxisDelta(props.orientation, g.dx, g.dy), false)
    }

    /** `_getThumbTouchRect`, with `_getTouchOverflowSize`. */
    function TouchRect(): (r: Option<Rect>)
      reads this
      requires props.ValidRange()
      ensures r.Some? <==> allMeasured
      ensures r.Some? ==> r.value.width == props.thumbTouchSize.width && r.value.height == props.thumbTouchSize.height
    {
      ThumbTouchRect(TouchOverflowSize(allMeasured, props.thumbTouchSize, thumbSize, containerSize),
                     props.orientation, ThumbStart(value), thumbSize, containerSize, props.thumbTouchSize)
    }

    /**
     * Without a step, a drag that has not moved since the anchor was set at the thumb's offset
     * gives back the value it started from.
     */
    lemma HoldingStillKeepsValue(g: GestureState)
      requires props.ValidRange() && props.step == 0.0 && Length() != 0.0
      requires props.minimumValue <= value <= props.maximumValue
      requires previousStart == ThumbStart(value) && g.dx == 0.0 && g.dy == 0.0
      ensures GestureValue(g) == value
    {
      RoundTrip(props.minimumValue, props.maximumValue, Length(), value, false);
    }

    /** Should a press become a drag? Only when it hits the thumb's touch rectangle. */
    method HandleStartShouldSetPanResponder(locationX: real, locationY: real) returns (b: bool)
      requires Valid()
      ensures b == ThumbHitTest(TouchRect(), locationX, locationY)
      ensures !allMeasured ==> !b
    {
      b := ThumbHitTest(TouchRect(), locationX, locationY);
    }

    /** A touch moving over the thumb never claims the gesture. */
    method HandleMoveShouldSetPanResponder() returns (b: bool)
      ensures !b
    {
      b := false;
    }

    /** Another responder asking to take over is always refused. */
    method HandlePanResponderRequestEnd() returns (b: bool)
      ensures !b
    {
      b := false;
    }

    /** `_fireChangeEvent`: call the callback, if present, with the current value. */
    method FireChangeEvent(kind: EventKind)
      modifies this`events
      ensures events == old(events) + Notify(props.handlers, kind, value)
    {
      if kind in props.handlers {
        events := events + [Event(kind, value)];
      }
    }

    /** `_setCurrentValueAnimated`: start an animation of the held value towards `v`. */
    method SetCurrentValueAnimated(v: real)
      modifies this`animations
      ensures animations == old(animations) + [Animation(props.animationType, v)]
    {
      animations := animations + [Animation(props.animationType, v)];
    }

    /** The press is granted: anchor at the thumb's current offset and report the start, even when disabled. */
    method HandlePanResponderGrant()
      requires Valid()
      modifies this`previousStart, this`events
      ensures Valid()
      ensures previousStart == ThumbStart(value)
      ensures events == old(events) + Notify(props.handlers, OnSlidingStart, value)
    {
      previousStart := ThumbStart(value);
      FireChangeEvent(OnSlidingStart);
    }

    /** A move: ignored when disabled, otherwise sets the value from the gesture and reports it. */
    method HandlePanResponderMove(g: GestureState)
      requires Valid()
      requires !props.disabled ==> Length() != 0.0
      modifies this`value, this`events
      ensures Valid()
      ensures props.disabled ==> value == old(value) && events == old(events)
      ensures !props.disabled ==>
        && value == GestureValue(g)
        && props.minimumValue <= value <= props.maximumValue
        && events == old(events) + Notify(props.handlers, OnValueChange, value)
    {
      if props.disabled {
        return;
      }
      value := GestureValue(g);
      FireChangeEvent(OnValueChange);
    }

    /** Release or termination: as a move, reporting completion instead. */
    method HandlePanResponderEnd(g: GestureState)
      requires Valid()
      requires !props.disabled ==> Length() != 0.0
      modifies this`value, this`events
      ensures Valid()
      ensures props.disabled ==> value == old(value) && events == old(events)
      ensures !props.disabled ==>
        && value == GestureValue(g)
        && props.minimumValue <= value <= props.maximumValue
        && events == old(events) + Notify(props.handlers, OnSlidingComplete, value)
    {
      if props.disabled {
        return;
      }
      value := GestureValue(g);
      FireChangeEvent(OnSlidingComplete);
    }

    /** `_handleMeasure`: cache the size unless it repeats, and publish all three once all are known. */
    method HandleMeasure(part: Part, size: Size)
      requires Valid()
      modifies this`cachedContainerSize, this`cachedTrackSize, this`cachedThumbSize,
               this`containerSize, this`trackSize, this`thumbSize, this`allMeasured
      ensures Valid()
      ensures LayoutView() == Record(old(LayoutView()), part, size)
    {
      RecordPreservesConsistent(LayoutView(), part, size);
      var currentSize := match part
        case ContainerSize => cachedContainerSize
        case TrackSize => cachedTrackSize
        case ThumbSize => cachedThumbSize;
      if currentSize.Some? && size.width == currentSize.value.width && size.height == currentSize.value.height {
        return;
      }
      match part {
        case ContainerSize => cachedContainerSize := Some(size);
        case TrackSize => cachedTrackSize := Some(size);
        case ThumbSize => cachedThumbSize := Some(size);
      }
      if cachedContainerSize.Some? && cachedTrackSize.Some? && cachedThumbSize.Some? {
        containerSize, trackSize, thumbSize := cachedContainerSize.value, cachedTrackSize.value, cachedThumbSize.value;
        allMeasured := true;
      }
    }

    /**
     * `componentWillReceiveProps`: runs while `props` still holds the previous props, so the old
     * `animateTransitions` and `animationType` decide how a changed `value` is applied.
     */
    method ComponentWillReceiveProps(nextProps: Props)
      requires Valid()
      modifies this`value, this`animations
      ensures Valid()
      ensures nextProps.value == props.value ==> value == old(value) && animations == old(animations)
      ensures nextProps.value != props.value && props.animateTransitions ==>
        value == old(value) && animations == old(animations) + [Animation(props.animationType, nextProps.value)]
      ensures nextProps.value != props.value && !props.animateTransitions ==>
        value == nextProps.value && animations == old(animations)
    {
      var newValue := nextProps.value;
      if props.value != newValue {
        if props.animateTransitions {
          SetCurrentValueAnimated(newValue);
        } else {
          value := newValue;
        }
      }
    }

    /** The host re-renders with `nextProps`: the hook runs, then React installs the new props. */
    method ReceiveProps(nextProps: Props)
      requires Valid() && nextProps.ValidRange()
      modifies this`props, this`value, this`animations
      ensures Valid() && props == nextProps
      ensures nextProps.value == old(props.value) ==> value == old(value) && animations == old(animations)
      ensures nextProps.value != old(props.value) && old(props.animateTransitions) ==>
        value == old(value) && animations == old(animations) + [Animation(old(props.animationType), nextProps.value)]
      ensures nextProps.value != old(props.value) && !old(props.animateTransitions) ==>
        value == nextProps.value && animations == old(animations)
    {
      ComponentWillReceiveProps(nextProps);
      props := nextProps;
    }
  }

  /** The thumb's extent along the configured axis. */
  function ThumbExtent(o: Orientation, thumbSize: Size): real
  {
    if o == Horizontal then thumbSize.width else thumbSize.height
  }

  /**
   * The rendered minimum track: `thumbStart` interpolated from `[min, max]` onto `[0, length]`,
   * plus half the thumb. It reaches the thumb's centre at the offset `_getThumbStart` computes,
   * and it stays within half a thumb of each end of the travel while the value is in range.
   */
  function MinimumTrackLength(min: real, max: real, o: Orientation, containerSize: Size,
                              thumbSize: Size, v: real): (r: real)
    requires min < max
    ensures r == ThumbOffset(min, max, AxisLength(o, containerSize, thumbSize), v, false) + ThumbExtent(o, thumbSize) / 2.0
    ensures min <= v <= max && AxisLength(o, containerSize, thumbSize) >= 0.0 ==>
      ThumbExtent(o, thumbSize) / 2.0 <= r <= AxisLength(o, containerSize, thumbSize) + ThumbExtent(o, thumbSize) / 2.0
  {
    var length := AxisLength(o, containerSize, thumbSize);
    var thumbStart := Interpolate(min, max, 0.0, length, v);
    InterpolateIsThumbOffset(min, max, length, v);
    ThumbOffsetWithinTravel(min, max, length, v);
    thumbStart + ThumbExtent(o, thumbSize) / 2.0
  }
}
