/**
 * Slider.js: the original `React.createClass` slider. Horizontal only, no `disabled` guard, no
 * measurement cache: each layout callback overwrites its size in the state. The value is a
 * plain number in the state, and the thumb is drawn at a separate `Animated.Value` holding its
 * left offset in pixels, which every drag step and every props update moves with a
 * zero-duration timing animation.
 */
module LegacySlider {
  import opened Optional
  import opened Geometry
  import opened ValueMapping
  import opened TouchTarget
  import opened SliderProps

  class Slider {
    var props: Props
    /** `Platform.OS === 'android'`, fixed for the life of the component. */
    const isAndroid: bool

    // this.state
    var containerSize: Size
    var trackSize: Size
    var thumbSize: Size
    var previousLeft: real
    var value: real
    /** Where the zero-duration animations have put `state.animatedValue`: the drawn thumb's left. */
    var animatedLeft: real

    var events: seq<Event>

    ghost predicate Valid()
      reads this
    {
      props.ValidRange()
    }

    /**
     * `getInitialState`. The animated value starts at the numeric `value` itself, not at its
     * pixel offset, so until the first drag or props update the thumb is drawn `value` pixels
     * from the left.
     */
    constructor (initial: Props, android: bool)
      requires initial.ValidRange()
      ensures Valid() && props == initial && isAndroid == android
      ensures containerSize == ZeroSize && trackSize == ZeroSize && thumbSize == ZeroSize
      ensures previousLeft == 0.0 && value == initial.value && animatedLeft == initial.value && events == []
    {
      props := initial;
      isAndroid := android;
      containerSize, trackSize, thumbSize := ZeroSize, ZeroSize, ZeroSize;
      previousLeft := 0.0;
      value := initial.value;
      animatedLeft := initial.value;
      events := [];
    }

    /** The horizontal travel length: container width less thumb width. */
    function Length(): real
      reads this
    {
      AxisLength(Horizontal, containerSize, thumbSize)
    }

    /** `_getThumbLeft`, under the current props and measured sizes. */
    function ThumbLeft(v: real): (r: real)
      reads this
      requires props.ValidRange()
      ensures v == props.minimumValue ==> r == 0.0
      ensures v == props.maximumValue ==> r == Length()
      ensures props.minimumValue <= v <= props.maximumValue && Length() >= 0.0 ==> 0.0 <= r <= Length()
    {
      ThumbOffsetWithinTravel(props.minimumValue, props.maximumValue, Length(), v);
      ThumbOffset(props.minimumValue, props.maximumValue, Length(), v, false)
    }

    /** `_getValue`: the anchor in the state plus the horizontal delta, mapped back to a value. */
    function GestureValue(g: GestureState): (r: real)
      reads this
      requires Length() != 0.0
      ensures props.minimumValue <= props.maximumValue ==> props.minimumValue <= r <= props.maximumValue
    {
      ValueAtOffset(props.minimumValue, props.maximumValue, props.step, Length(), previousLeft + g.dx, false)
    }

    /**
     * `_getThumbTouchRect`. The overflow is always defined here: its guard only asks that the
     * container and thumb widths are not `undefined`, and the state starts at zero sizes.
     */
    function TouchRect(): (r: Rect)
      reads this
      requires props.ValidRange()
      ensures r.width == props.thumbTouchSize.width && r.height == props.thumbTouchSize.height
      ensures r.x + r.width / 2.0 == OverflowOf(props.thumbTouchSize, thumbSize, containerSize).width / 2.0
                                     + ThumbLeft(value) + thumbSize.width / 2.0
    {
      ThumbTouchRect(Some(OverflowOf(props.thumbTouchSize, thumbSize, containerSize)),
                     Horizontal, ThumbLeft(value), thumbSize, containerSize, props.thumbTouchSize).value
    }

    /** The drawn thumb is where the value puts it. */
    ghost predicate ThumbInSync()
      reads this
      requires props.ValidRange()
    {
      animatedLeft == ThumbLeft(value)
    }

    /**
     * Without a step, a drag that has not moved since the anchor was set at the thumb's offset
     * gives back the value it started from.
     */
    lemma HoldingStillKeepsValue(g: GestureState)
      requires props.ValidRange() && props.step == 0.0 && Length() != 0.0
      requires props.minimumValue <= value <= props.maximumValue
      requires previousLeft == ThumbLeft(value) && g.dx == 0.0
      ensures GestureValue(g) == value
    {
      RoundTrip(props.minimumValue, props.maximumValue, Length(), value, false);
    }

    /** On Android every press becomes a drag; elsewhere only a press on the thumb. */
    method HandleStartShouldSetPanResponder(locationX: real, locationY: real) returns (b: bool)
      requires Valid()
      ensures isAndroid ==> b
      ensures !isAndroid ==> b == TouchRect().ContainsPoint(locationX, locationY)
    {
      if isAndroid {
        return true;
      }
      b := TouchRect().ContainsPoint(locationX, locationY);
    }

    /** A touch moving over the thumb never claims the gesture. */
    method HandleMoveShouldSetPanResponder() returns (b: bool)
      ensures !b
    {
      b := false;
    }

    /** `_fireChangeEvent`, run as the `setState` callback: it reports the value just stored. */
    method FireChangeEvent(kind: EventKind)
      modifies this`events
      ensures events == old(events) + Notify(props.handlers, kind, value)
    {
      if kind in props.handlers {
        events := events + [Event(kind, value)];
      }
    }

    /** The press is granted: anchor at the thumb's offset for the current value, then report the start. */
    method HandlePanResponderGrant()
      requires Valid()
      modifies this`previousLeft, this`events
      ensures Valid()
      ensures previousLeft == ThumbLeft(value)
      ensures events == old(events) + Notify(props.handlers, OnSlidingStart, value)
    {
      previousLeft := ThumbLeft(value);
      FireChangeEvent(OnSlidingStart);
    }

    /** A move: store the value from the gesture, report it, and move the drawn thumb to it. */
    method HandlePanResponderMove(g: GestureState)
      requires Valid() && Length() != 0.0
      modifies this`value, this`events, this`animatedLeft
      ensures Valid() && ThumbInSync()
      ensures value == GestureValue(g) && props.minimumValue <= value <= props.maximumValue
      ensures events == old(events) + Notify(props.handlers, OnValueChange, value)
    {
      var v := GestureValue(g);
      value := v;
      FireChangeEvent(OnValueChange);
      animatedLeft := ThumbLeft(v);
    }

    /** Release or termination: as a move, reporting completion instead. */
    method HandlePanResponderEnd(g: GestureState)
      requires Valid() && Length() != 0.0
      modifies this`value, this`events, this`animatedLeft
      ensures Valid() && ThumbInSync()
      ensures value == GestureValue(g) && props.minimumValue <= value <= props.maximumValue
      ensures events == old(events) + Notify(props.handlers, OnSlidingComplete, value)
    {
      var v := GestureValue(g);
      value := v;
      FireChangeEvent(OnSlidingComplete);
      animatedLeft := ThumbLeft(v);
    }

    /** `_measureContainer`: the latest layout wins; the drawn thumb is not moved. */
    method MeasureContainer(size: Size)
      modifies this`containerSize
      ensures containerSize == size
    {
      containerSize := size;
    }

    /** `_measureTrack`: the latest layout wins. */
    method MeasureTrack(size: Size)
      modifies this`trackSize
      ensures trackSize == size
    {
      trackSize := size;
    }

    /** `_measureThumb`: the latest layout wins; the drawn thumb is not moved. */
    method MeasureThumb(size: Size)
      modifies this`thumbSize
      ensures thumbSize == size
    {
      thumbSize := size;
    }

    /**
     * `componentWillReceiveProps`: always stores the incoming value, changed or not, and moves the
     * drawn thumb to its offset, computed while `props` still holds the previous range.
     */
    method ComponentWillReceiveProps(nextProps: Props)
      requires Valid()
      modifies this`value, this`animatedLeft
      ensures Valid()
      ensures value == nextProps.value && ThumbInSync()
    {
      value := nextProps.value;
      animatedLeft := ThumbLeft(nextProps.value);
    }

    /**
     * The host re-renders with `nextProps`. The drawn thumb follows the value when the range is
     * unchanged; when the range changes it is left at the offset the previous range gives.
     */
    method ReceiveProps(nextProps: Props)
      requires Valid() && nextProps.ValidRange()
      modifies this`props, this`value, this`animatedLeft
      ensures Valid() && props == nextProps && value == nextProps.value
      ensures animatedLeft == ThumbOffset(old(props.minimumValue), old(props.maximumValue), Length(), value, false)
      ensures nextProps.minimumValue == old(props.minimumValue) && nextProps.maximumValue == old(props.maximumValue)
              ==> ThumbInSync()
    {
      ComponentWillReceiveProps(nextProps);
      props := nextProps;
    }
  }

  /**
   * The rendered minimum track's width: up to the thumb's centre when the offset and the thumb
   * width are non-negative, otherwise the fixed 300 that works around a border-radius bug.
   */
  function MinimumTrackWidth(thumbLeft: real, thumbWidth: real): (r: real)
    ensures thumbLeft >= 0.0 && thumbWidth >= 0.0 ==> r == thumbLeft + thumbWidth / 2.0 && r >= thumbWidth / 2.0
    ensures thumbLeft < 0.0 || thumbWidth < 0.0 ==> r == 300.0
  {
    if thumbLeft >= 0.0 && thumbWidth >= 0.0 then thumbLeft + thumbWidth / 2.0 else 300.0
  }

  /**
   * For a value in range and a thumb no wider than the container, the minimum track ends at the
   * thumb's centre, within half a thumb of either end of the container. A value below the
   * minimum with room to travel falls back to the fixed width.
   */
  lemma MinimumTrackWidthOfValue(min: real, max: real, containerSize: Size, thumbSize: Size, v: real)
    requires min < max && 0.0 <= thumbSize.width
    ensures var length := AxisLength(Horizontal, containerSize, thumbSize);
            var w := MinimumTrackWidth(ThumbOffset(min, max, length, v, false), thumbSize.width);
      (min <= v <= max && thumbSize.width <= containerSize.width ==>
         w == ThumbOffset(min, max, length, v, false) + thumbSize.width / 2.0
         && thumbSize.width / 2.0 <= w <= containerSize.width - thumbSize.width / 2.0)
      && (v < min && thumbSize.width < containerSize.width ==> w == 300.0)
  {
    var length := AxisLength(Horizontal, containerSize, thumbSize);
    ThumbOffsetWithinTravel(min, max, length, v);
    if v < min && thumbSize.width < containerSize.width {
      ThumbOffsetBelowMinimum(min, max, length, v);
    }
  }

  /** Below the minimum the offset is negative whenever there is room to travel. */
  lemma ThumbOffsetBelowMinimum(min: real, max: real, length: real, v: real)
    requires min < max && v < min && length > 0.0
    ensures ThumbOffset(min, max, length, v, false) < 0.0
  {
    var r := Ratio(min, max, v);
    assert r < 0.0 by {
      NegativeOverPositive(v - min, max - min);
    }
    NegativeTimesPositive(r, length);
  }

  lemma NegativeOverPositive(a: real, b: real)
    requires a < 0.0 && b > 0.0
    ensures a / b < 0.0
  {
  }

  lemma NegativeTimesPositive(a: real, b: real)
    requires a < 0.0 && b > 0.0
    ensures a * b < 0.0
  {
  }
}
