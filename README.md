# react-native-slider, modelled in Dafny

This project models the logic of the React Native slider component that turns touches into
values. The repository holds four variants of the component, and each one is modelled:

- `src/Slider.js`: the current source. It is orientation-aware, with a horizontal or a vertical
  track.
- `lib/Slider.js`: the compiled build of an intermediate version. It is horizontal only and
  draws the minimum track differently in `inverseMode`.
- `SliderExample/Slider.js`: the copy in the example app. It follows the host's right-to-left
  layout direction and supports `trackClickable`.
- `Slider.js`: the original `createClass` component. Its drag anchor lives in the state. Move
  and end have no `disabled` guard, and there is no measurement cache.

The shared engine is a set of pure modules:

- `Geometry` holds sizes and the inclusive `Rect.containsPoint`.
- `ValueMapping` is the value↔pixel mapping:
  - `_getRatio` is `Ratio`;
  - `_getThumbStart` / `_getThumbLeft` is `ThumbOffset`;
  - `_getValue` is `ValueAtOffset`, with `Math.round` step quantization and the final clamp;
  - orientation selects the axis: widths and `dx`, or heights and `dy`;
  - right-to-left mirrors the ratio.
- `TouchTarget` is the enlarged touch rectangle centred on the thumb and its hit test.
- `LayoutCache` is the `_handleMeasure` cache, which drops repeated sizes and latches
  `allMeasured`.
- `SliderProps` holds the props the logic reads, the callback events and the started animations.

Each variant is a `class Slider` in its own module: `OrientedSlider`, `InverseSlider`,
`RtlSlider` and `LegacySlider`. The class mirrors the component's fields:

- the props;
- the measured sizes and `allMeasured`;
- the drag anchor;
- the current value of the `Animated.Value`;
- two logs:
  - `events`, the callback invocations with the value each one was called with;
  - `animations`, the animations started with their target.

The pan-responder handlers, the measurement handler and the props hook are methods. Each
method's postcondition states the new state in terms of the shared functions. The properties the
component promises are lemmas over those functions, and they hold for all inputs:

- values stay in range;
- step alignment;
- the offset↔value round trip, in both layout directions;
- right-to-left mirroring;
- monotone dragging;
- the measurement latch;
- the touch rectangle's size and centre;
- the track geometry.

JavaScript numbers are modelled as `real`, and `Math.round(x)` as `(x + 0.5).Floor`. The host's
`I18nManager.isRTL` (SliderExample) and `Platform.OS === 'android'` (Slider.js) become
constructor parameters, held in `const` fields. PanResponder's gesture state becomes a
`GestureState` parameter.

The model follows the code:

- steps are applied with `Math.round`, so a raw value goes to the nearest step
  (`ValueMapping.StepRoundsToNearest`);
- the grant handler records the anchor and fires `onSlidingStart` even when `disabled`; only
  move and end are guarded;
- `value` is a single number. The type declarations also allow an array of numbers
  (src/index.d.ts:94-96), but no variant implements it, and nothing clamps one thumb against
  another.

It also models these quirks of the code as written:

- `componentWillReceiveProps` (src, lib, Slider.js) reads the *previous* props, such as
  `animateTransitions`, `animationType` and, in Slider.js, the range. `componentDidUpdate`
  (SliderExample) reads the new ones.
- In Slider.js the drawn thumb's animated offset starts at the numeric `value` itself.
  Measurements never move it, so it matches the value only after a drag step or a props update
  (`LegacySlider.Slider.ThumbInSync`).
- In SliderExample with `trackClickable`, the grant anchor is taken from the press's `x0`
  as written: `x0 - 1.5 * thumbWidth`.

## Model

| member | source | states |
|---|---|---|
| Geometry.CornersContained | src/Slider.js:29-34 | every corner of a rectangle with non-negative extent is contained: all four edges are inclusive; lib/Slider.js, SliderExample/Slider.js and Slider.js repeat the same test |
| Geometry.BeyondAnEdgeNotContained | src/Slider.js:29-34 | a point strictly beyond any one edge is not contained, so containment is exactly the closed box |
| Geometry.Rect.ContainsPoint | src/Slider.js:29-34 | a point is inside when it lies between the left and right edges and between the top and bottom edges, each edge included; its two lemmas above pin this down |
| ValueMapping.Round | src/Slider.js:452-457 | `Math.round` yields the integer within half of its argument, a tie going up |
| ValueMapping.Clamp | src/Slider.js:450-464 | the result lies in `[lo, hi]`, equals an in-range input, and is `lo` below and `hi` above the range |
| ValueMapping.Ratio | src/Slider.js:415-417 | the ratio of the minimum is 0 and of the maximum is 1 |
| ValueMapping.RatioInUnitInterval | src/Slider.js:415-417 | an in-range value has its ratio in `[0, 1]` |
| ValueMapping.RatioAffine | src/Slider.js:415-417 | the ratio of an affine combination of two values is the same combination of their ratios |
| ValueMapping.AxisLength | src/Slider.js:422-428 | the travel is the container extent less the thumb extent along the configured axis; `HorizontalIgnoresVerticalAxis` and `VerticalIgnoresHorizontalAxis` state it per orientation |
| ValueMapping.AxisDelta | src/Slider.js:443-448 | the drag moves the anchor by `dx` when horizontal and by `dy` when vertical |
| ValueMapping.Mirror | SliderExample/Slider.js:283-284 | mirroring keeps a ratio in `[0, 1]`, and under right-to-left the mirrored and original ratios add up to 1 |
| ValueMapping.OffsetRatio | SliderExample/Slider.js:296-297 | mirroring the ratio back and scaling by the travel recovers the pixel offset it was read from |
| ValueMapping.Interpolate | src/Slider.js:255-259 | the linear interpolation sends the input range's start to the output start and its end to the output end |
| ValueMapping.ThumbOffset | src/Slider.js:419-431 | the minimum maps to offset 0 and the maximum to the full travel (swapped under right-to-left); every variant's `_getThumbLeft` is this function |
| ValueMapping.ThumbOffsetWithinTravel | src/Slider.js:419-431 | an in-range value puts the thumb within `[0, length]` |
| ValueMapping.ThumbOffsetMonotone | src/Slider.js:419-431 | the offset grows with the value, and shrinks under right-to-left |
| ValueMapping.ThumbOffsetMirror | SliderExample/Slider.js:282-289 | the right-to-left offset is the travel minus the left-to-right offset (ratio `1 - r`) |
| ValueMapping.RtlEndpointsSwap | SliderExample/Slider.js:282-289 | under right-to-left the minimum sits where the maximum sits left to right, and vice versa |
| ValueMapping.ValueAtRatio | src/Slider.js:450-464 | with `min <= max` the value is in `[min, max]` for every ratio, stepped or not |
| ValueMapping.ValueAtOffset | src/Slider.js:433-465 | `_getValue` lies in `[min, max]` whatever the anchor and the delta are; every variant's `_getValue` is this function |
| ValueMapping.StepAligned | src/Slider.js:452-457 | with a positive step the value is `max` or `min + k*step` with `k >= 0`, and it is the rounded grid point itself when that lies in range |
| ValueMapping.StepIndexOfGridPoint | src/Slider.js:452-457 | the rounded step index of a grid point's ratio is that grid point's index |
| ValueMapping.ValueAtRatioOfRatio | src/Slider.js:458-464 | the continuous branch inverts `_getRatio` on in-range values |
| ValueMapping.ValueAtRatioOfGridPoint | src/Slider.js:452-457 | the stepped branch maps an in-range grid point's ratio back to that grid point |
| ValueMapping.OffsetRatioOfThumbOffset | SliderExample/Slider.js:291-297 | un-mirroring the offset of a value gives back its ratio, in either direction |
| ValueMapping.RoundTrip | src/Slider.js:419-465 | with no step, anchoring at the offset of an in-range `v` and a zero delta gives back exactly `v`; with `rtl` it covers SliderExample/Slider.js too |
| ValueMapping.SteppedRoundTrip | src/Slider.js:419-465 | with a positive step, an in-range grid value survives the offset round trip |
| ValueMapping.ValueAtRatioMonotone | src/Slider.js:450-464 | the value is non-decreasing in the ratio (weakly when stepped) |
| ValueMapping.StepIndexMonotone | src/Slider.js:452-457 | the rounded step index never decreases as the ratio grows, so stepping keeps the drag order |
| ValueMapping.OffsetRatioMonotone | SliderExample/Slider.js:294-297 | the ratio grows with the offset, and shrinks under right-to-left |
| ValueMapping.ValueMonotone | SliderExample/Slider.js:291-323 | dragging further right never lowers the value left to right and never raises it right to left |
| ValueMapping.HorizontalIgnoresVerticalAxis | src/Slider.js:433-448 | horizontally the length is width minus thumb width and neither heights nor `dy` affect the value |
| ValueMapping.VerticalIgnoresHorizontalAxis | src/Slider.js:433-448 | vertically the length is height minus thumb height and neither widths nor `dx` affect the value |
| ValueMapping.InterpolateIsThumbOffset | src/Slider.js:249-259 | the rendered `interpolate` onto `[0, length]` is the thumb offset `_getThumbStart` computes |
| ValueMapping.InterpolateReversed | lib/Slider.js:539 | `thumbRight`, interpolated onto the reversed range, is the travel minus `thumbLeft` |
| ValueMapping.DragToMiddle | src/Slider.js:433-465 | a 300 px container with a 20 px thumb reaches 0.5 after 140 px from the start |
| ValueMapping.StepRoundsToNearest | src/Slider.js:452-457 | a raw 0.38 with step 0.25 becomes 0.5: steps round to nearest |
| TouchTarget.OverflowOf | src/Slider.js:493-504 | the overflow components are never negative, are at least the touch-minus-thumb (resp. container) differences, and equal 0 or that difference; every variant uses this formula |
| TouchTarget.TouchOverflowSize | src/Slider.js:493-504 | the overflow is defined exactly when `allMeasured` holds, and is then `OverflowOf` |
| TouchTarget.ThumbTouchRect | src/Slider.js:534-555 | the rectangle exists exactly when the overflow does, has exactly the touch size, and is centred on the thumb along the track and on the container across it; the horizontal case is lib/Slider.js, SliderExample/Slider.js and Slider.js |
| TouchTarget.ThumbHitTest | src/Slider.js:528-532 | a press hits exactly when the touch rectangle exists and contains the press location |
| TouchTarget.NoHitBeforeMeasured | src/Slider.js:528-532 | before the layout is complete no press hits the thumb |
| TouchTarget.ThumbCentreHits | src/Slider.js:528-555 | once measured, a press on the thumb's centre always hits, in either orientation |
| LayoutCache.Record | src/Slider.js:394-413 | the measured part's cache holds the new size and the others are unchanged; a repeated size changes nothing; `allMeasured` never resets and is set together with the three cached sizes once all are stored |
| LayoutCache.InitialConsistent | src/Slider.js:171-179 | the initial state (nothing cached, zero sizes, not measured) meets the cache invariant |
| LayoutCache.RecordPreservesConsistent | src/Slider.js:394-413 | every measurement keeps the invariant: `allMeasured` exactly when all three are cached, the state then showing them |
| LayoutCache.RecordIdempotent | src/Slider.js:398-401 | measuring the same size twice is the same as measuring it once |
| LayoutCache.RecordAllCachesLast | src/Slider.js:394-413 | after any sequence of layouts each cache holds the last size measured for it |
| LayoutCache.RecordAllConsistent | src/Slider.js:394-413 | the invariant holds after any sequence of layouts |
| LayoutCache.AllMeasuredExactlyWhenEachRecorded | src/Slider.js:394-413 | `allMeasured` holds exactly when container, track and thumb have each been measured, and the state then shows their last sizes |
| LayoutCache.AllMeasuredLatched | lib/Slider.js:379-398 | once set, `allMeasured` stays set through any further layouts |
| OrientedSlider.Slider.constructor | src/Slider.js:171-179 | the state starts unmeasured with zero sizes and the value prop, and meets the invariant |
| OrientedSlider.Slider.ThumbStart | src/Slider.js:419-431 | the minimum is at offset 0, the maximum at the full travel, and an in-range value within the travel |
| OrientedSlider.Slider.GestureValue | src/Slider.js:433-465 | whatever the anchor and the gesture, the value is within `[minimumValue, maximumValue]` |
| OrientedSlider.Slider.TouchRect | src/Slider.js:493-555 | the touch rectangle exists exactly once every part is measured, and it then has the `thumbTouchSize` extent |
| OrientedSlider.Slider.HoldingStillKeepsValue | src/Slider.js:433-465 | with no step, a zero delta from the anchor set at the thumb's offset gives back the current value |
| OrientedSlider.Slider.HandleStartShouldSetPanResponder | src/Slider.js:347-350 | a press becomes a drag exactly when it hits the touch rectangle, never before measurement |
| OrientedSlider.Slider.HandleMoveShouldSetPanResponder | src/Slider.js:352-355 | a moving touch never claims the gesture |
| OrientedSlider.Slider.HandlePanResponderRequestEnd | src/Slider.js:369-372 | a termination request is always refused |
| OrientedSlider.Slider.FireChangeEvent | src/Slider.js:487-491 | the callback is called with the current value when present, and nothing happens otherwise |
| OrientedSlider.Slider.SetCurrentValueAnimated | src/Slider.js:475-485 | one animation of the props' type towards the value is started |
| OrientedSlider.Slider.HandlePanResponderGrant | src/Slider.js:357-360 | the anchor becomes the thumb's current offset and `onSlidingStart` fires, disabled or not |
| OrientedSlider.Slider.HandlePanResponderMove | src/Slider.js:361-367 | when disabled nothing changes; otherwise the value becomes the in-range gesture value and `onValueChange` fires with it |
| OrientedSlider.Slider.HandlePanResponderEnd | src/Slider.js:373-380 | when disabled nothing changes; otherwise the value becomes the in-range gesture value and `onSlidingComplete` fires with it |
| OrientedSlider.Slider.HandleMeasure | src/Slider.js:394-413 | the layout becomes `Record` of the old one, so the cache invariant is kept |
| OrientedSlider.Slider.ComponentWillReceiveProps | src/Slider.js:206-217 | nothing happens unless `value` changed; then it is animated or set, as the previous props say |
| OrientedSlider.Slider.ReceiveProps | src/Slider.js:206-217 | after the hook the new props are installed; the value follows the previous props' transition settings |
| OrientedSlider.MinimumTrackLength | src/Slider.js:244-276 | the minimum track reaches the thumb's centre at `_getThumbStart`, within half a thumb of each end of the travel for in-range values |
| InverseSlider.Slider.constructor | lib/Slider.js:197-202 | the state starts unmeasured with zero sizes and the value prop, and meets the invariant |
| InverseSlider.Slider.ThumbLeft | lib/Slider.js:404-407 | the minimum is at offset 0, the maximum at the full travel, and an in-range value within the travel |
| InverseSlider.Slider.GestureValue | lib/Slider.js:409-428 | whatever the anchor and `dx`, the value is within `[minimumValue, maximumValue]` |
| InverseSlider.Slider.TouchRect | lib/Slider.js:497-507 | the touch rectangle exists exactly once every part is measured, and it then has the `thumbTouchSize` extent |
| InverseSlider.Slider.HoldingStillKeepsValue | lib/Slider.js:404-428 | with no step, a zero delta from the anchor set at the thumb's offset gives back the current value |
| InverseSlider.Slider.HandleStartShouldSetPanResponder | lib/Slider.js:329-331 | a press becomes a drag exactly when it hits the touch rectangle, never before measurement |
| InverseSlider.Slider.HandleMoveShouldSetPanResponder | lib/Slider.js:539 | a moving touch never claims the gesture |
| InverseSlider.Slider.HandlePanResponderRequestEnd | lib/Slider.js:539 | a termination request is always refused |
| InverseSlider.Slider.FireChangeEvent | lib/Slider.js:450-454 | the callback is called with the current value when present |
| InverseSlider.Slider.SetCurrentValueAnimated | lib/Slider.js:438-448 | one animation of the props' type towards the value is started |
| InverseSlider.Slider.HandlePanResponderGrant | lib/Slider.js:339-342 | the anchor becomes `_getThumbLeft` of the current value and `onSlidingStart` fires |
| InverseSlider.Slider.HandlePanResponderMove | lib/Slider.js:344-351 | a no-op when disabled; otherwise the value is set to the in-range gesture value and `onValueChange` fires with it |
| InverseSlider.Slider.HandlePanResponderEnd | lib/Slider.js:358-365 | a no-op when disabled; otherwise the value is set to the in-range gesture value and `onSlidingComplete` fires with it |
| InverseSlider.Slider.HandleMeasure | lib/Slider.js:379-398 | the layout becomes `Record` of the old one: repeats ignored, `allMeasured` only once all three are stored |
| InverseSlider.Slider.ComponentWillReceiveProps | lib/Slider.js:539 | nothing happens unless `value` changed; then it is animated or set, as the previous props say |
| InverseSlider.Slider.ReceiveProps | lib/Slider.js:539 | after the hook the new props are installed |
| InverseSlider.MinimumTrack | lib/Slider.js:539 | normally the track starts at 0 and reaches the thumb's centre; in inverse mode it starts at `thumbLeft`, is `thumbRight + thumbW/2` wide, and ends half a thumb past the travel |
| InverseSlider.MinimumTrackWithinContainer | lib/Slider.js:539 | for in-range values the track stays within `[0, length + thumbW/2]` and is at least half a thumb wide |
| RtlSlider.Slider.constructor | SliderExample/Slider.js:61-67 | the state starts unmeasured with zero sizes and the value prop; the layout direction is fixed |
| RtlSlider.Slider.ThumbLeft | SliderExample/Slider.js:282-289 | left to right the minimum is at 0 and the maximum at the full travel, swapped under right-to-left; the offset is always the travel minus the other direction's offset |
| RtlSlider.Slider.GestureValue | SliderExample/Slider.js:291-323 | in either direction, whatever the anchor and `dx`, the value is within `[minimumValue, maximumValue]` |
| RtlSlider.Slider.TouchRect | SliderExample/Slider.js:401-415 | the touch rectangle exists exactly once every part is measured, and it then has the `thumbTouchSize` extent |
| RtlSlider.Slider.GrantAnchor | SliderExample/Slider.js:210-215 | on a clickable track the anchor is one and a half thumb widths left of the press's `x0`; otherwise it is the thumb's offset for the current value |
| RtlSlider.Slider.HoldingStillKeepsValue | SliderExample/Slider.js:282-322 | with no step, a zero delta from the anchor at `_getThumbLeft` gives back the value in either direction |
| RtlSlider.Slider.HandleStartShouldSetPanResponder | SliderExample/Slider.js:199-203 | a clickable track accepts every press; otherwise only a hit on the touch rectangle, never before measurement |
| RtlSlider.Slider.HandleMoveShouldSetPanResponder | SliderExample/Slider.js:205-208 | a moving touch never claims the gesture |
| RtlSlider.Slider.HandlePanResponderRequestEnd | SliderExample/Slider.js:227-230 | a termination request is always refused |
| RtlSlider.Slider.FireChangeEvent | SliderExample/Slider.js:345-349 | the callback is called with the current value when present |
| RtlSlider.Slider.SetCurrentValueAnimated | SliderExample/Slider.js:331-343 | one animation of the props' type towards the value is started |
| RtlSlider.Slider.HandlePanResponderGrant | SliderExample/Slider.js:210-216 | the anchor is `x0 - 1.5*thumbW` on a clickable track and the thumb's offset otherwise; `onSlidingStart` then fires |
| RtlSlider.Slider.HandlePanResponderMove | SliderExample/Slider.js:218-225 | when disabled the value and events are unchanged; otherwise the in-range gesture value is set and reported |
| RtlSlider.Slider.HandlePanResponderEnd | SliderExample/Slider.js:232-239 | when disabled the value and events are unchanged; otherwise the in-range gesture value is set and `onSlidingComplete` fires |
| RtlSlider.Slider.HandleMeasure | SliderExample/Slider.js:253-276 | the layout becomes `Record` of the old one: repeats ignored, `allMeasured` latched |
| RtlSlider.Slider.ComponentDidUpdate | SliderExample/Slider.js:84-95 | nothing happens unless `value` differs from the previous prop; then it is animated or set, as the new props say |
| RtlSlider.Slider.ReceiveProps | SliderExample/Slider.js:84-95 | the new props are installed first, so their transition settings decide |
| RtlSlider.ThumbTranslateX | SliderExample/Slider.js:124-130 | the thumb's `translateX` is the left-to-right offset, negated under right-to-left |
| RtlSlider.MinimumTrackWidth | SliderExample/Slider.js:131-143 | the minimum track is the left-to-right offset plus half a thumb, in either direction |
| RtlSlider.RenderedThumbMatchesThumbLeft | SliderExample/Slider.js:124-143 | seen from the left edge, the drawn thumb sits at `_getThumbLeft` and the track ends at its centre, in both directions |
| LegacySlider.Slider.constructor | Slider.js:124-133 | sizes start at zero, the anchor at 0, the value and the drawn thumb's offset at the value prop |
| LegacySlider.Slider.ThumbLeft | Slider.js:297-300 | the minimum is at offset 0, the maximum at the full travel, and an in-range value within the travel |
| LegacySlider.Slider.GestureValue | Slider.js:302-321 | whatever `previousLeft` and `dx` are, the value is within `[minimumValue, maximumValue]` |
| LegacySlider.Slider.TouchRect | Slider.js:372-383 | the touch rectangle always exists, has the `thumbTouchSize` extent, and is centred on the thumb's centre shifted by half the overflow |
| LegacySlider.Slider.ThumbInSync | Slider.js:160-170 | the drawn thumb's animated offset equals `_getThumbLeft` of the stored value; move, end and the props hook re-establish it |
| LegacySlider.Slider.HoldingStillKeepsValue | Slider.js:297-321 | with no step, a zero delta from `previousLeft = _getThumbLeft(value)` gives back the value |
| LegacySlider.Slider.HandleStartShouldSetPanResponder | Slider.js:230-237 | on Android every press becomes a drag; elsewhere exactly those inside the touch rectangle |
| LegacySlider.Slider.HandleMoveShouldSetPanResponder | Slider.js:239-242 | a moving touch never claims the gesture |
| LegacySlider.Slider.FireChangeEvent | Slider.js:323-327 | the callback is called with the state's value when present |
| LegacySlider.Slider.HandlePanResponderGrant | Slider.js:244-247 | `previousLeft` becomes `_getThumbLeft(state.value)`, then `onSlidingStart` fires |
| LegacySlider.Slider.HandlePanResponderMove | Slider.js:248-260 | with no guard, the value becomes the in-range gesture value, `onValueChange` fires with it and the drawn thumb moves to it |
| LegacySlider.Slider.HandlePanResponderEnd | Slider.js:261-273 | with no guard, the value becomes the in-range gesture value, `onSlidingComplete` fires with it and the drawn thumb moves to it |
| LegacySlider.Slider.MeasureContainer | Slider.js:275-279 | the container size is overwritten, with no deduplication |
| LegacySlider.Slider.MeasureTrack | Slider.js:281-285 | the track size is overwritten, with no deduplication |
| LegacySlider.Slider.MeasureThumb | Slider.js:287-291 | the thumb size is overwritten, with no deduplication |
| LegacySlider.Slider.ComponentWillReceiveProps | Slider.js:160-170 | the value is replaced by the prop with no change check, and the drawn thumb moves to its offset |
| LegacySlider.Slider.ReceiveProps | Slider.js:160-170 | the drawn thumb is placed by the previous range; it matches the value when the range is unchanged |
| LegacySlider.MinimumTrackWidth | Slider.js:193-203 | the width is `thumbLeft + thumbW/2` when both are non-negative and the 300 placeholder otherwise |
| LegacySlider.MinimumTrackWidthOfValue | Slider.js:193-203 | for in-range values the track ends at the thumb's centre within the container; below the minimum it falls back to 300 |
| LegacySlider.ThumbOffsetBelowMinimum | Slider.js:193-203 | a value below the minimum has a negative thumb offset whenever there is room to travel |

## Left out

- Rendering, JSX trees and style objects are not modelled. Of `render`, only the geometry of the
  thumb and the minimum track is modelled; opacity, margins and colours are not.
- `Animated` internals are not modelled. `Animated.Value.interpolate` is the linear formula
  `Interpolate` without extrapolation clamping. A started spring or timing animation is recorded
  as its type and target, and its progress over time is not modelled; in
  `SetCurrentValueAnimated` the held value is therefore left unchanged.
- In Slider.js the zero-duration `Animated.timing` is taken to land at once, so its offset is
  written directly.
- `animationConfig` merging with `DEFAULT_ANIMATION_CONFIGS` and the easing curves are not
  modelled, because they only parameterise the animation library.
- PanResponder wiring, `I18nManager.isRTL` and `Platform.OS` are host services. They are plain
  parameters here: the `GestureState`, `isRTL` and `isAndroid`.
- `setState` batching is not modelled. State updates are applied at once, so Slider.js's
  `setState` callbacks see the state just written.
- `shouldComponentUpdate`, `_getPropsForComponentUpdate`, `shallowCompare` and `styleEqual` are
  not modelled, because they only decide re-rendering and call library code that is not visible.
- `_getCurrentValue` and `_setCurrentValue` are plain reads and writes of the `value` field.
- `_getTouchOverflowStyle` and `_renderDebugThumbTouchRect` are not modelled, because they are
  style output.
- IEEE-754 behaviour (NaN and Infinity) is not modelled. Every method needs
  `minimumValue < maximumValue`. `_getValue` is only modelled for a non-zero travel length, which
  move and end need unless the slider is disabled.
- Before the first grant, the drag anchor (`_previousStart` / `_previousLeft`) is `undefined` in
  src, lib and SliderExample. The model starts it at 0.
- Array-valued `value` and multiple thumbs are declared in the type files only and implemented
  nowhere. They are not modelled, and there is no neighbour clamping.
- Slider.js registers no `onPanResponderTerminationRequest` handler. The host's default applies,
  so that variant has no `HandlePanResponderRequestEnd`.
- The example apps, the build configuration and the type declarations are demo, tooling and
  typing, and are not modelled.
