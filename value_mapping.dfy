/**
 * The value <-> pixel mapping shared by all four variants of the slider.
 *
 * JavaScript numbers are modelled as `real` (no rounding error, no NaN). Each variant's
 * `_getThumbStart` / `_getThumbLeft` is `ThumbOffset` and each `_getValue` is `ValueAtOffset`,
 * instantiated with that variant's axis length, anchor and mirroring flag.
 */
module ValueMapping {
  import opened Geometry

  datatype Orientation = Horizontal | Vertical

  /** `Math.round`: the nearest integer, a tie going towards +infinity. */
  function Round(x: real): (k: int)
    ensures x - 0.5 < k as real <= x + 0.5
  {
    (x + 0.5).Floor
  }

  function Max(a: real, b: real): real { if a >= b then a else b }

  function Min(a: real, b: real): real { if a <= b then a else b }

  /** `Math.max(lo, Math.min(hi, x))`, the clamp every `_getValue` ends with. */
  function Clamp(lo: real, hi: real, x: real): (r: real)
    ensures lo <= hi ==> lo <= r <= hi
    ensures lo <= x <= hi ==> r == x
    ensures x < lo ==> r == lo
    ensures lo <= hi < x ==> r == hi
  {
    Max(lo, Min(hi, x))
  }

  /** `_getRatio`: where `v` lies in the range, 0 at the minimum and 1 at the maximum. */
  function Ratio(min: real, max: real, v: real): (r: real)
    requires min != max
    ensures v == min ==> r == 0.0
    ensures v == max ==> r == 1.0
  {
    DivSelf(max - min);
    (v - min) / (max - min)
  }

  /** The pixel length the thumb can travel: the container minus the thumb, along `o`. */
  function AxisLength(o: Orientation, container: Size, thumb: Size): real {
    if o == Horizontal then container.width - thumb.width else container.height - thumb.height
  }

  /** The component of a gesture delta along `o`. */
  function AxisDelta(o: Orientation, dx: real, dy: real): real {
    if o == Horizontal then dx else dy
  }

  /** The ratio after optional right-to-left mirroring (`1 - ratio`). */
  function Mirror(ratio: real, rtl: bool): (r: real)
    ensures 0.0 <= ratio <= 1.0 ==> 0.0 <= r <= 1.0
    ensures rtl ==> r + ratio == 1.0
  {
    if rtl then 1.0 - ratio else ratio
  }

  /** `_getThumbStart` / `_getThumbLeft`: the pixel offset of the thumb for value `v`. */
  function ThumbOffset(min: real, max: real, length: real, v: real, rtl: bool): (r: real)
    requires min != max
    ensures v == min ==> r == (if rtl then length else 0.0)
    ensures v == max ==> r == (if rtl then 0.0 else length)
  {
    Mirror(Ratio(min, max, v), rtl) * length
  }

  /** The unclamped step index `Math.round(ratio * (max - min) / step)` of the stepped branch. */
  function StepIndex(min: real, max: real, step: real, ratio: real): int
    requires step != 0.0
  {
    Round(ratio * (max - min) / step)
  }

  /** The grid point `min + k * step`. */
  function GridPoint(min: real, step: real, k: int): real {
    min + k as real * step
  }

  /**
   * The value at a (left-to-right) ratio: a non-zero `step` (JavaScript truthiness) snaps to the
   * grid point of `StepIndex`; the result is then clamped into the range.
   */
  function ValueAtRatio(min: real, max: real, step: real, ratio: real): (r: real)
    ensures min <= max ==> min <= r <= max
  {
    if step != 0.0 then
      Clamp(min, max, GridPoint(min, step, StepIndex(min, max, step, ratio)))
    else
      Clamp(min, max, ratio * (max - min) + min)
  }

  /** The left-to-right ratio of a thumb at pixel `offset`: `offset / length`, un-mirrored. */
  function OffsetRatio(length: real, offset: real, rtl: bool): (r: real)
    requires length != 0.0
    ensures Mirror(r, rtl) * length == offset
  {
    Mirror(offset / length, rtl)
  }

  /** `_getValue`: the value for a thumb at pixel `offset` (anchor plus gesture delta). */
  function ValueAtOffset(min: real, max: real, step: real, length: real, offset: real, rtl: bool): (r: real)
    requires length != 0.0
    ensures min <= max ==> min <= r <= max
  {
    ValueAtRatio(min, max, step, OffsetRatio(length, offset, rtl))
  }

  /** The linear interpolation `Animated.Value.interpolate` applies between two ranges (no clamping). */
  function Interpolate(inMin: real, inMax: real, outStart: real, outEnd: real, v: real): (r: real)
    requires inMin != inMax
    ensures v == inMin ==> r == outStart
    ensures v == inMax ==> r == outEnd
  {
    DivSelf(inMax - inMin);
    (v - inMin) / (inMax - inMin) * (outEnd - outStart) + outStart
  }

  // ---------------------------------------------------------------------------------------
  // Arithmetic helpers over reals.

  lemma DivSelf(d: real)
    requires d != 0.0
    ensures d / d == 1.0
  {
  }

  lemma DivMonotone(a: real, b: real, c: real)
    requires a <= b && c > 0.0
    ensures a / c <= b / c
  {
    assert b / c - a / c == (b - a) / c;
  }

  lemma MulMonotone(a: real, b: real, c: real)
    requires a <= b && c >= 0.0
    ensures a * c <= b * c
  {
    assert b * c - a * c == (b - a) * c;
  }

  lemma UnitFraction(a: real, d: real)
    requires 0.0 <= a <= d && d > 0.0
    ensures 0.0 <= a / d <= 1.0
  {
    DivMonotone(0.0, a, d);
    DivMonotone(a, d, d);
  }

  // ---------------------------------------------------------------------------------------
  // Properties of the mapping.

  /** An in-range value has a ratio in `[0, 1]`. */
  lemma RatioInUnitInterval(min: real, max: real, v: real)
    requires min < max && min <= v <= max
    ensures 0.0 <= Ratio(min, max, v) <= 1.0
  {
    UnitFraction(v - min, max - min);
  }

  /** The ratio is affine in the value: it commutes with affine combinations. */
  lemma RatioAffine(min: real, max: real, v: real, w: real, t: real)
    requires min != max
    ensures Ratio(min, max, t * v + (1.0 - t) * w) == t * Ratio(min, max, v) + (1.0 - t) * Ratio(min, max, w)
  {
    var d := max - min;
    calc {
      Ratio(min, max, t * v + (1.0 - t) * w);
      (t * v + (1.0 - t) * w - min) / d;
      { assert t * v + (1.0 - t) * w - min == t * (v - min) + (1.0 - t) * (w - min); }
      (t * (v - min) + (1.0 - t) * (w - min)) / d;
      t * ((v - min) / d) + (1.0 - t) * ((w - min) / d);
    }
  }

  /** Right-to-left mirroring reflects the offset inside the travel length. */
  lemma ThumbOffsetMirror(min: real, max: real, length: real, v: real)
    requires min != max
    ensures ThumbOffset(min, max, length, v, true) == length - ThumbOffset(min, max, length, v, false)
  {
    var r := Ratio(min, max, v);
    assert (1.0 - r) * length == length - r * length;
  }

  /** Under right-to-left the offset of the minimum is the left-to-right offset of the maximum, and vice versa. */
  lemma RtlEndpointsSwap(min: real, max: real, length: real)
    requires min != max
    ensures ThumbOffset(min, max, length, min, true) == ThumbOffset(min, max, length, max, false)
    ensures ThumbOffset(min, max, length, max, true) == ThumbOffset(min, max, length, min, false)
  {
  }

  /** Larger values sit further along the track left to right, and further back right to left. */
  lemma ThumbOffsetMonotone(min: real, max: real, length: real, v: real, w: real, rtl: bool)
    requires min < max && length >= 0.0 && v <= w
    ensures !rtl ==> ThumbOffset(min, max, length, v, rtl) <= ThumbOffset(min, max, length, w, rtl)
    ensures rtl ==> ThumbOffset(min, max, length, v, rtl) >= ThumbOffset(min, max, length, w, rtl)
  {
    LeftToRightOffsetMonotone(min, max, length, v, w);
    ThumbOffsetMirror(min, max, length, v);
    ThumbOffsetMirror(min, max, length, w);
  }

  lemma LeftToRightOffsetMonotone(min: real, max: real, length: real, v: real, w: real)
    requires min < max && length >= 0.0 && v <= w
    ensures ThumbOffset(min, max, length, v, false) <= ThumbOffset(min, max, length, w, false)
  {
    var rv, rw := Ratio(min, max, v), Ratio(min, max, w);
    DivMonotone(v - min, w - min, max - min);
    MulMonotone(rv, rw, length);
  }

  /** Reading an offset back gives the ratio it was made from, in either direction. */
  lemma OffsetRatioOfThumbOffset(min: real, max: real, length: real, v: real, rtl: bool)
    requires min != max && length != 0.0
    ensures OffsetRatio(length, ThumbOffset(min, max, length, v, rtl), rtl) == Ratio(min, max, v)
  {
  }

  /** The continuous branch inverts the ratio on in-range values. */
  lemma ValueAtRatioOfRatio(min: real, max: real, v: real)
    requires min < max && min <= v <= max
    ensures ValueAtRatio(min, max, 0.0, Ratio(min, max, v)) == v
  {
  }

  /** The stepped branch maps the ratio of a grid point inside the range back to that grid point. */
  lemma ValueAtRatioOfGridPoint(min: real, max: real, step: real, k: nat)
    requires min < max && step > 0.0 && GridPoint(min, step, k) <= max
    ensures ValueAtRatio(min, max, step, Ratio(min, max, GridPoint(min, step, k))) == GridPoint(min, step, k)
  {
    StepIndexOfGridPoint(min, max, step, k);
    MulMonotone(0.0, k as real, step);
  }

  /** The ratio of a grid point has that grid point's index as its step index. */
  lemma StepIndexOfGridPoint(min: real, max: real, step: real, k: int)
    requires min != max && step != 0.0
    ensures StepIndex(min, max, step, Ratio(min, max, GridPoint(min, step, k))) == k
  {
    var v := GridPoint(min, step, k);
    RatioScalesBack(v - min, max - min, step, k as real);
    StepIndexOfIntegerMultiple(min, max, step, Ratio(min, max, v), k);
  }

  lemma StepIndexOfIntegerMultiple(min: real, max: real, step: real, r: real, k: int)
    requires step != 0.0 && r * (max - min) / step == k as real
    ensures StepIndex(min, max, step, r) == k
  {
  }

  lemma RatioScalesBack(a: real, d: real, step: real, k: real)
    requires d != 0.0 && step != 0.0 && a == k * step
    ensures a / d * d / step == k
  {
  }

  /**
   * Round trip, continuous slider: anchoring at the thumb offset of an in-range `v` and moving by
   * zero gives back exactly `v`, left to right and right to left.
   */
  lemma RoundTrip(min: real, max: real, length: real, v: real, rtl: bool)
    requires min < max && length != 0.0 && min <= v <= max
    ensures ValueAtOffset(min, max, 0.0, length, ThumbOffset(min, max, length, v, rtl) + 0.0, rtl) == v
  {
  }

  /**
   * Round trip, stepped slider: a grid value `min + k * step` inside the range maps to an offset
   * that maps back to the same value.
   */
  lemma SteppedRoundTrip(min: real, max: real, step: real, length: real, k: nat, rtl: bool)
    requires min < max && step > 0.0 && length != 0.0 && GridPoint(min, step, k) <= max
    ensures ValueAtOffset(min, max, step, length, ThumbOffset(min, max, length, GridPoint(min, step, k), rtl) + 0.0, rtl)
            == GridPoint(min, step, k)
  {
    OffsetRatioOfThumbOffset(min, max, length, GridPoint(min, step, k), rtl);
    ValueAtRatioOfGridPoint(min, max, step, k);
  }

  /**
   * Step alignment: with a positive step the result is the maximum or a grid point
   * `min + k * step` with `k >= 0`; and it is exactly the unclamped grid point of `StepIndex`
   * whenever that point lies inside the range.
   */
  lemma StepAligned(min: real, max: real, step: real, ratio: real)
    requires min <= max && step > 0.0
    ensures var r := ValueAtRatio(min, max, step, ratio);
            r == max || exists k: nat :: r == GridPoint(min, step, k)
    ensures var g := GridPoint(min, step, StepIndex(min, max, step, ratio));
            min <= g <= max ==> ValueAtRatio(min, max, step, ratio) == g
  {
    var k := StepIndex(min, max, step, ratio);
    var g := GridPoint(min, step, k);
    var r := ValueAtRatio(min, max, step, ratio);
    if g < min {
      assert r == GridPoint(min, step, 0);
    } else if g <= max {
      assert k >= 0 by {
        if k < 0 { MulMonotone(k as real, 0.0, step); }
      }
      assert r == GridPoint(min, step, k as nat);
    }
  }

  lemma ClampMonotone(lo: real, hi: real, x: real, y: real)
    requires lo <= hi && x <= y
    ensures Clamp(lo, hi, x) <= Clamp(lo, hi, y)
  {
  }

  /** The value grows with the ratio (weakly when stepped, because of `Math.round`). */
  lemma ValueAtRatioMonotone(min: real, max: real, step: real, r1: real, r2: real)
    requires min < max && step >= 0.0 && r1 <= r2
    ensures ValueAtRatio(min, max, step, r1) <= ValueAtRatio(min, max, step, r2)
  {
    if step == 0.0 {
      UnsteppedValueMonotone(min, max, r1, r2);
    } else {
      SteppedValueMonotone(min, max, step, r1, r2);
    }
  }

  /** Without a step the value is the clamped affine image of the ratio. */
  lemma UnsteppedValueMonotone(min: real, max: real, r1: real, r2: real)
    requires min < max && r1 <= r2
    ensures ValueAtRatio(min, max, 0.0, r1) <= ValueAtRatio(min, max, 0.0, r2)
  {
    MulMonotone(r1, r2, max - min);
    ClampOffsetMonotone(min, max, r1 * (max - min), r2 * (max - min));
  }

  /** With a step the value is the clamped grid point of a non-decreasing index. */
  lemma SteppedValueMonotone(min: real, max: real, step: real, r1: real, r2: real)
    requires min < max && step > 0.0 && r1 <= r2
    ensures ValueAtRatio(min, max, step, r1) <= ValueAtRatio(min, max, step, r2)
  {
    var k1, k2 := StepIndex(min, max, step, r1), StepIndex(min, max, step, r2);
    StepIndexMonotone(min, max, step, r1, r2);
    MulMonotone(k1 as real, k2 as real, step);
    ClampOffsetMonotone(min, max, k1 as real * step, k2 as real * step);
  }

  /** The rounded step index never decreases as the ratio grows. */
  lemma StepIndexMonotone(min: real, max: real, step: real, r1: real, r2: real)
    requires min < max && step > 0.0 && r1 <= r2
    ensures StepIndex(min, max, step, r1) <= StepIndex(min, max, step, r2)
  {
    MulMonotone(r1, r2, max - min);
    DivMonotone(r1 * (max - min), r2 * (max - min), step);
    RoundMonotone(r1 * (max - min) / step, r2 * (max - min) / step);
  }

  /** Clamping an offset from the lower bound keeps the offsets' order. */
  lemma ClampOffsetMonotone(lo: real, hi: real, s1: real, s2: real)
    requires lo <= hi && s1 <= s2
    ensures Clamp(lo, hi, s1 + lo) <= Clamp(lo, hi, s2 + lo)
    ensures Clamp(lo, hi, lo + s1) <= Clamp(lo, hi, lo + s2)
  {
    ClampMonotone(lo, hi, s1 + lo, s2 + lo);
  }

  /** `Math.round` is monotone. */
  lemma RoundMonotone(x: real, y: real)
    requires x <= y
    ensures Round(x) <= Round(y)
  {
  }

  /** The un-mirrored ratio grows with the offset left to right and shrinks with it right to left. */
  lemma OffsetRatioMonotone(length: real, o1: real, o2: real, rtl: bool)
    requires length > 0.0 && o1 <= o2
    ensures !rtl ==> OffsetRatio(length, o1, rtl) <= OffsetRatio(length, o2, rtl)
    ensures rtl ==> OffsetRatio(length, o1, rtl) >= OffsetRatio(length, o2, rtl)
  {
    DivMonotone(o1, o2, length);
  }

  /**
   * Monotonicity in the gesture offset for a non-negative step: non-decreasing left to right,
   * non-increasing right to left.
   */
  lemma ValueMonotone(min: real, max: real, step: real, length: real, o1: real, o2: real, rtl: bool)
    requires min < max && step >= 0.0 && length > 0.0 && o1 <= o2
    ensures !rtl ==> ValueAtOffset(min, max, step, length, o1, rtl) <= ValueAtOffset(min, max, step, length, o2, rtl)
    ensures rtl ==> ValueAtOffset(min, max, step, length, o1, rtl) >= ValueAtOffset(min, max, step, length, o2, rtl)
  {
    OffsetRatioMonotone(length, o1, o2, rtl);
    var q1, q2 := OffsetRatio(length, o1, rtl), OffsetRatio(length, o2, rtl);
    if rtl {
      ValueAtRatioMonotone(min, max, step, q2, q1);
    } else {
      ValueAtRatioMonotone(min, max, step, q1, q2);
    }
  }

  /** Interpolating the value onto `[0, length]` is exactly the left-to-right thumb offset. */
  lemma InterpolateIsThumbOffset(min: real, max: real, length: real, v: real)
    requires min != max
    ensures Interpolate(min, max, 0.0, length, v) == ThumbOffset(min, max, length, v, false)
  {
  }

  /** A value in range puts the left-to-right thumb offset within the travel `[0, length]`. */
  lemma ThumbOffsetWithinTravel(min: real, max: real, length: real, v: real)
    requires min < max
    ensures min <= v <= max && length >= 0.0 ==> 0.0 <= ThumbOffset(min, max, length, v, false) <= length
  {
    if min <= v <= max && length >= 0.0 {
      ThumbOffsetMonotone(min, max, length, min, v, false);
      ThumbOffsetMonotone(min, max, length, v, max, false);
    }
  }

  /** Interpolating onto the reversed range `[length, 0]` mirrors the forward interpolation. */
  lemma InterpolateReversed(min: real, max: real, length: real, v: real)
    requires min != max
    ensures Interpolate(min, max, length, 0.0, v) == length - Interpolate(min, max, 0.0, length, v)
  {
    var r := (v - min) / (max - min);
    assert r * (0.0 - length) + length == length - (r * (length - 0.0) + 0.0);
  }

  /** Orientation selects the axis: horizontally only widths and `dx` matter. */
  lemma HorizontalIgnoresVerticalAxis(min: real, max: real, step: real, c1: Size, c2: Size, t1: Size, t2: Size,
                                      start: real, dx: real, dy1: real, dy2: real)
    requires c1.width == c2.width && t1.width == t2.width
    requires AxisLength(Horizontal, c1, t1) != 0.0
    ensures AxisLength(Horizontal, c1, t1) == c1.width - t1.width
    ensures ValueAtOffset(min, max, step, AxisLength(Horizontal, c1, t1), start + AxisDelta(Horizontal, dx, dy1), false)
         == ValueAtOffset(min, max, step, AxisLength(Horizontal, c2, t2), start + AxisDelta(Horizontal, dx, dy2), false)
  {
  }

  /** Orientation selects the axis: vertically only heights and `dy` matter. */
  lemma VerticalIgnoresHorizontalAxis(min: real, max: real, step: real, c1: Size, c2: Size, t1: Size, t2: Size,
                                      start: real, dx1: real, dx2: real, dy: real)
    requires c1.height == c2.height && t1.height == t2.height
    requires AxisLength(Vertical, c1, t1) != 0.0
    ensures AxisLength(Vertical, c1, t1) == c1.height - t1.height
    ensures ValueAtOffset(min, max, step, AxisLength(Vertical, c1, t1), start + AxisDelta(Vertical, dx1, dy), false)
         == ValueAtOffset(min, max, step, AxisLength(Vertical, c2, t2), start + AxisDelta(Vertical, dx2, dy), false)
  {
  }

  /** A 300 px container with a 20 px thumb: dragging from offset 0 by 140 px reaches the middle. */
  lemma DragToMiddle()
    ensures ValueAtOffset(0.0, 1.0, 0.0, AxisLength(Horizontal, Size(300.0, 40.0), Size(20.0, 20.0)), 0.0 + 140.0, false) == 0.5
  {
  }

  /** Quantization rounds to the nearest step: a raw value of 0.38 with step 0.25 becomes 0.5, not 0.25. */
  lemma StepRoundsToNearest()
    ensures ValueAtOffset(0.0, 1.0, 0.25, 100.0, 38.0, false) == 0.5
  {
    assert StepIndex(0.0, 1.0, 0.25, OffsetRatio(100.0, 38.0, false)) == 2;
  }
}
