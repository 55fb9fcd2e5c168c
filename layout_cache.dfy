/**
 * The measurement cache behind `_handleMeasure` (src/Slider.js, lib/Slider.js and
 * SliderExample/Slider.js): each `onLayout` size is kept in an instance field, a repeated identical
 * size is dropped, and the three sizes are copied into the component state, with `allMeasured`
 * set, once all three have arrived.
 */
module LayoutCache {
  import opened Optional
  import opened Geometry

  /** Which of the three measured views a layout event is for. */
  datatype Part = ContainerSize | TrackSize | ThumbSize

  /** The cache fields (`_containerSize`, ...) and the state they are published to. */
  datatype Layout = Layout(
    cachedContainer: Option<Size>, cachedTrack: Option<Size>, cachedThumb: Option<Size>,
    containerSize: Size, trackSize: Size, thumbSize: Size, allMeasured: bool)

  /** The initial state: nothing cached, zero sizes, not measured. */
  function Initial(): Layout {
    Layout(None, None, None, ZeroSize, ZeroSize, ZeroSize, false)
  }

  function Cached(l: Layout, part: Part): Option<Size> {
    match part
    case ContainerSize => l.cachedContainer
    case TrackSize => l.cachedTrack
    case ThumbSize => l.cachedThumb
  }

  predicate AllCached(l: Layout) {
    l.cachedContainer.Some? && l.cachedTrack.Some? && l.cachedThumb.Some?
  }

  /** What `_handleMeasure(part, size)` does to the cache and the state. */
  function Record(l: Layout, part: Part, size: Size): (r: Layout)
    ensures Cached(r, part) == Some(size)
    ensures forall p :: p != part ==> Cached(r, p) == Cached(l, p)
    ensures Cached(l, part) == Some(size) ==> r == l
    ensures l.allMeasured ==> r.allMeasured
    ensures r.allMeasured ==> l.allMeasured || AllCached(r)
    ensures Cached(l, part) != Some(size) && AllCached(r) ==>
      r.allMeasured && r.containerSize == r.cachedContainer.value
      && r.trackSize == r.cachedTrack.value && r.thumbSize == r.cachedThumb.value
  {
    if Cached(l, part) == Some(size) then l
    else
      var c := match part
               case ContainerSize => l.(cachedContainer := Some(size))
               case TrackSize => l.(cachedTrack := Some(size))
               case ThumbSize => l.(cachedThumb := Some(size));
      if AllCached(c) then
        c.(containerSize := c.cachedContainer.value, trackSize := c.cachedTrack.value,
           thumbSize := c.cachedThumb.value, allMeasured := true)
      else c
  }

  /**
   * The invariant the cache keeps: `allMeasured` holds exactly when all three sizes are cached;
   * from then on the state shows the cached sizes, and until then it shows zero sizes.
   */
  ghost predicate Consistent(l: Layout) {
    && (l.allMeasured <==> AllCached(l))
    && (l.allMeasured ==>
          l.containerSize == l.cachedContainer.value && l.trackSize == l.cachedTrack.value
          && l.thumbSize == l.cachedThumb.value)
    && (!l.allMeasured ==> l.containerSize == ZeroSize && l.trackSize == ZeroSize && l.thumbSize == ZeroSize)
  }

  lemma InitialConsistent()
    ensures Consistent(Initial())
  {
  }

  lemma RecordPreservesConsistent(l: Layout, part: Part, size: Size)
    requires Consistent(l)
    ensures Consistent(Record(l, part, size))
  {
  }

  /** Recording the same size twice is the same as recording it once. */
  lemma RecordIdempotent(l: Layout, part: Part, size: Size)
    ensures Record(Record(l, part, size), part, size) == Record(l, part, size)
  {
  }

  /** The result of replaying a sequence of layout events, in order. */
  function RecordAll(l: Layout, events: seq<(Part, Size)>): Layout
    decreases |events|
  {
    if events == [] then l
    else
      var last := events[|events| - 1];
      Record(RecordAll(l, events[..|events| - 1]), last.0, last.1)
  }

  /** The size of the most recent event for `part`, if any. */
  function LastRecorded(events: seq<(Part, Size)>, part: Part): Option<Size>
    decreases |events|
  {
    if events == [] then None
    else if events[|events| - 1].0 == part then Some(events[|events| - 1].1)
    else LastRecorded(events[..|events| - 1], part)
  }

  /** Replaying from the initial layout, each cache field holds the last size recorded for it. */
  lemma {:induction false} RecordAllCachesLast(events: seq<(Part, Size)>, part: Part)
    ensures Cached(RecordAll(Initial(), events), part) == LastRecorded(events, part)
    decreases |events|
  {
    if events != [] {
      var front := events[..|events| - 1];
      RecordAllCachesLast(front, part);
    }
  }

  /** Replaying from the initial layout keeps the invariant. */
  lemma {:induction false} RecordAllConsistent(events: seq<(Part, Size)>)
    ensures Consistent(RecordAll(Initial(), events))
    decreases |events|
  {
    if events == [] {
      InitialConsistent();
    } else {
      var front := events[..|events| - 1];
      var last := events[|events| - 1];
      RecordAllConsistent(front);
      RecordPreservesConsistent(RecordAll(Initial(), front), last.0, last.1);
    }
  }

  /**
   * The readiness gate: after any sequence of layout events, `allMeasured` holds exactly when each
   * of container, track and thumb has been measured at least once, and then the state shows the
   * last size measured for each.
   */
  lemma AllMeasuredExactlyWhenEachRecorded(events: seq<(Part, Size)>)
    ensures var l := RecordAll(Initial(), events);
            && (l.allMeasured <==> (LastRecorded(events, ContainerSize).Some?
                                  && LastRecorded(events, TrackSize).Some?
                                  && LastRecorded(events, ThumbSize).Some?))
            && (l.allMeasured ==>
                  && Some(l.containerSize) == LastRecorded(events, ContainerSize)
                  && Some(l.trackSize) == LastRecorded(events, TrackSize)
                  && Some(l.thumbSize) == LastRecorded(events, ThumbSize))
  {
    RecordAllConsistent(events);
    RecordAllCachesLast(events, ContainerSize);
    RecordAllCachesLast(events, TrackSize);
    RecordAllCachesLast(events, ThumbSize);
  }

  /** Once set, `allMeasured` is never reset by later layout events. */
  lemma {:induction false} AllMeasuredLatched(l: Layout, events: seq<(Part, Size)>)
    requires l.allMeasured
    ensures RecordAll(l, events).allMeasured
    decreases |events|
  {
    if events != [] {
      AllMeasuredLatched(l, events[..|events| - 1]);
    }
  }
}
