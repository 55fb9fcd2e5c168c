/** The inputs and outputs every variant of the slider component shares. */
module SliderProps {
  import opened Geometry
  import opened ValueMapping

  /** The three callback props `_fireChangeEvent` may call. */
  datatype EventKind = OnSlidingStart | OnValueChange | OnSlidingComplete

  /** One callback invocation and the value it was called with. */
  datatype Event = Event(kind: EventKind, value: real)

  datatype AnimationType = Spring | Timing

  /**
   * A started `Animated.spring` / `Animated.timing` towards `toValue`. Its progress over time
   * belongs to the host's animation library and is not modelled.
   */
  datatype Animation = Animation(animationType: AnimationType, toValue: real)

  /**
   * The props the logic reads, after React has merged in the defaults. `orientation` is read by
   * src/Slider.js only, `inverseMode` by lib/Slider.js, `trackClickable` by
   * SliderExample/Slider.js; `handlers` is the set of callback props that are present.
   */
  datatype Props = Props(
    value: real, minimumValue: real, maximumValue: real, step: real, disabled: bool,
    thumbTouchSize: Size, animateTransitions: bool, animationType: AnimationType,
    orientation: Orientation, inverseMode: bool, trackClickable: bool,
    handlers: set<EventKind>)
  {
    /** A non-empty range, without which every ratio divides by zero. */
    predicate ValidRange() {
      minimumValue < maximumValue
    }
  }

  /** The PanResponder `gestureState` fields the handlers read: the press origin and the delta. */
  datatype GestureState = GestureState(x0: real, y0: real, dx: real, dy: real)

  /** The events one `_fireChangeEvent(kind)` emits: one call when the callback prop is present. */
  function Notify(handlers: set<EventKind>, kind: EventKind, value: real): seq<Event> {
    if kind in handlers then [Event(kind, value)] else []
  }
}
