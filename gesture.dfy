/**
 * The card's gesture controller (App.tsx): wheel zoom, two-finger pinch
 * zoom, double tap to reset, and the pan offset written back by the
 * draggable layer.
 *
 * The pure part (GestureState, Event, Step, Run) is the specification; the
 * class GestureController is the event-by-event implementation over the
 * component's refs (touchStartDist, startScale, lastTap) and state
 * (globalScale, layoutConfig), and each of its handlers is proved to
 * perform exactly one Step.
 *
 * Scales and distances are reals; the inter-finger distance (Math.hypot)
 * and the clock (Date.now) are inputs of the events.
 */
module Gesture {
  import opened Wrappers

  /** Zoom bounds used by every zoom path. */
  const MinScale: real := 0.3
  const MaxScale: real := 3.0
  /** Scale change per unit of wheel deltaY. */
  const WheelSensitivity: real := 0.002
  /** Two touch-ends closer than this (in milliseconds) are a double tap. */
  const DoubleTapDelay: int := 300

  predicate InScaleRange(s: real) {
    MinScale <= s <= MaxScale
  }

  /** The pan offset of the content layer. */
  datatype Layout = Layout(x: real, y: real)

  const InitialLayout: Layout := Layout(0.0, 0.0)

  function Min(a: real, b: real): real { if a <= b then a else b }
  function Max(a: real, b: real): real { if a >= b then a else b }

  /** Math.min(3, Math.max(0.3, v)): the clamp shared by every zoom path. */
  function ClampScale(v: real): (r: real)
    ensures InScaleRange(r)
    ensures InScaleRange(v) ==> r == v
    ensures v < MinScale ==> r == MinScale
    ensures v > MaxScale ==> r == MaxScale
  {
    Min(MaxScale, Max(MinScale, v))
  }

  /** The scale after a wheel event with the given deltaY. */
  function WheelScale(scale: real, deltaY: real): (r: real)
    ensures InScaleRange(r)
    ensures InScaleRange(scale) && deltaY <= 0.0 ==> scale <= r
    ensures InScaleRange(scale) && deltaY >= 0.0 ==> r <= scale
  {
    ClampScale(scale + -deltaY * WheelSensitivity)
  }

  /**
   * The scale during a pinch: the baseline scale times the ratio of the
   * current to the baseline distance, clamped. The source divides by the
   * baseline unguarded, so a zero baseline is excluded here.
   */
  function PinchScale(startScale: real, baseline: real, dist: real): (r: real)
    requires baseline > 0.0
    ensures InScaleRange(r)
    ensures dist == baseline && InScaleRange(startScale) ==> r == startScale
    ensures 0.0 <= startScale && baseline <= dist ==> ClampScale(startScale) <= r
    ensures 0.0 <= startScale && 0.0 <= dist <= baseline ==> r <= ClampScale(startScale)
  {
    var ratio := dist / baseline;
    RatioBounds(dist, baseline);
    ScaledBounds(startScale, ratio);
    var scaled := startScale * ratio;
    ClampMonotone(startScale, scaled);
    ClampMonotone(scaled, startScale);
    ClampScale(scaled)
  }

  lemma ClampMonotone(a: real, b: real)
    ensures a <= b ==> ClampScale(a) <= ClampScale(b)
  {
  }

  lemma RatioBounds(dist: real, baseline: real)
    requires baseline > 0.0
    ensures baseline <= dist ==> 1.0 <= dist / baseline
    ensures 0.0 <= dist <= baseline ==> 0.0 <= dist / baseline <= 1.0
    ensures dist == baseline ==> dist / baseline == 1.0
  {
    var f := dist / baseline;
    assert f * baseline == dist;
  }

  lemma ScaledBounds(a: real, f: real)
    ensures 0.0 <= a && 1.0 <= f ==> a <= a * f
    ensures 0.0 <= a && 0.0 <= f <= 1.0 ==> 0.0 <= a * f <= a
    ensures f == 1.0 ==> a * f == a
  {
    if 0.0 <= a && 1.0 <= f {
      assert a * f == a + a * (f - 1.0);
    }
    if 0.0 <= a && 0.0 <= f <= 1.0 {
      assert a * f == a - a * (1.0 - f);
    }
  }

  /** Everything the gesture handlers read and write. */
  datatype GestureState = GestureState(
    baseline: Option<real>,  // touchStartDist: the pinch's starting distance, or null
    startScale: real,        // the scale when the pinch started
    lastTap: int,            // the time of the last touch-end
    scale: real,             // globalScale
    layout: Layout)          // layoutConfig

  const InitialState: GestureState := GestureState(None, 1.0, 0, 1.0, InitialLayout)

  /**
   * The events the card reacts to; `touches` is the number of touches still
   * on the surface (e.touches.length).
   */
  datatype Event =
    | Wheel(deltaY: real)
    | TouchStart(touches: nat, dist: real)
    | TouchMove(touches: nat, dist: real)
    | TouchEnd(touches: nat, now: int)
    | LayoutChange(x: real, y: real)  // the draggable layer's onStop

  /** A pinch move would divide by the baseline: it must be positive. */
  predicate Enabled(s: GestureState, e: Event) {
    e.TouchMove? && e.touches == 2 && s.baseline.Some? ==> s.baseline.value > 0.0
  }

  /** Whether the touch-end `now` completes a double tap. */
  predicate IsDoubleTap(s: GestureState, touches: nat, now: int) {
    touches == 0 && now - s.lastTap < DoubleTapDelay
  }

  /** The effect of one event (each handler runs against the state the previous one committed). */
  function Step(s: GestureState, e: Event): (r: GestureState)
    requires Enabled(s, e)
    ensures InScaleRange(s.scale) ==> InScaleRange(r.scale)
    ensures e.TouchEnd? ==> r.lastTap == e.now
    ensures !e.TouchEnd? ==> r.lastTap == s.lastTap
  {
    match e
    case Wheel(deltaY) =>
      s.(scale := WheelScale(s.scale, deltaY))
    case TouchStart(touches, dist) =>
      if touches == 2 then s.(baseline := Some(dist), startScale := s.scale) else s
    case TouchMove(touches, dist) =>
      if touches == 2 && s.baseline.Some?
      then s.(scale := PinchScale(s.startScale, s.baseline.value, dist))
      else s
    case TouchEnd(touches, now) =>
      var baseline := if touches < 2 then None else s.baseline;
      if IsDoubleTap(s, touches, now)
      then s.(baseline := baseline, lastTap := now, scale := 1.0, layout := InitialLayout)
      else s.(baseline := baseline, lastTap := now)
    case LayoutChange(x, y) =>
      s.(layout := Layout(x, y))
  }

  /** Every event of `events`, in turn, is enabled. */
  predicate RunEnabled(s: GestureState, events: seq<Event>)
    decreases |events|
  {
    |events| == 0 || (Enabled(s, events[0]) && RunEnabled(Step(s, events[0]), events[1..]))
  }

  /** The state after a sequence of events. */
  function Run(s: GestureState, events: seq<Event>): GestureState
    requires RunEnabled(s, events)
    decreases |events|
  {
    if |events| == 0 then s else Run(Step(s, events[0]), events[1..])
  }

  // ---------------------------------------------------------------------
  // Properties of single events

  /** After any wheel event the scale is the clamped sum, inside the bounds. */
  lemma WheelClamps(s: GestureState, deltaY: real)
    ensures Step(s, Wheel(deltaY)).scale == ClampScale(s.scale - deltaY * WheelSensitivity)
    ensures InScaleRange(Step(s, Wheel(deltaY)).scale)
    ensures Step(s, Wheel(deltaY)) == s.(scale := Step(s, Wheel(deltaY)).scale)
  {
  }

  /** Two touches record the baseline; any other count changes nothing. */
  lemma TouchStartRecordsBaseline(s: GestureState, touches: nat, dist: real)
    ensures touches == 2 ==> Step(s, TouchStart(touches, dist)) == s.(baseline := Some(dist), startScale := s.scale)
    ensures touches != 2 ==> Step(s, TouchStart(touches, dist)) == s
  {
  }

  /** A two-finger move with a baseline scales by the distance ratio; otherwise nothing changes. */
  lemma TouchMoveScales(s: GestureState, touches: nat, dist: real)
    requires Enabled(s, TouchMove(touches, dist))
    ensures touches == 2 && s.baseline.Some? ==>
      Step(s, TouchMove(touches, dist)) == s.(scale := ClampScale(s.startScale * (dist / s.baseline.value)))
    ensures !(touches == 2 && s.baseline.Some?) ==> Step(s, TouchMove(touches, dist)) == s
  {
  }

  /** Fewer than two remaining touches clear the baseline; two or more keep it. */
  lemma TouchEndBaseline(s: GestureState, touches: nat, now: int)
    ensures touches < 2 ==> Step(s, TouchEnd(touches, now)).baseline == None
    ensures touches >= 2 ==> Step(s, TouchEnd(touches, now)).baseline == s.baseline
    ensures Step(s, TouchEnd(touches, now)).lastTap == now
    ensures Step(s, TouchEnd(touches, now)).startScale == s.startScale
  {
  }

  /**
   * The double-tap rule: a touch-end with no touches left, less than
   * 300 ms after the previous touch-end, resets pan and zoom; any other
   * touch-end leaves both unchanged.
   */
  lemma TouchEndDoubleTap(s: GestureState, touches: nat, now: int)
    ensures touches == 0 && now - s.lastTap < DoubleTapDelay ==>
      Step(s, TouchEnd(touches, now)).scale == 1.0 && Step(s, TouchEnd(touches, now)).layout == InitialLayout
    ensures touches != 0 || now - s.lastTap >= DoubleTapDelay ==>
      Step(s, TouchEnd(touches, now)).scale == s.scale && Step(s, TouchEnd(touches, now)).layout == s.layout
  {
  }

  /** Two touch-ends (the second with no touches left) within 300 ms reset pan and zoom, whatever came before. */
  lemma DoubleTapResets(s: GestureState, touches: nat, first: int, second: int)
    requires 0 <= second - first < DoubleTapDelay
    ensures Step(Step(s, TouchEnd(touches, first)), TouchEnd(0, second)).scale == 1.0
    ensures Step(Step(s, TouchEnd(touches, first)), TouchEnd(0, second)).layout == InitialLayout
    ensures Step(Step(s, TouchEnd(touches, first)), TouchEnd(0, second)).baseline == None
  {
  }

  /**
   * A pinch that starts at distance d and moves to d/2 yields half the
   * scale the pinch started at, clamped.
   */
  lemma PinchHalving(s: GestureState, d: real)
    requires d > 0.0
    ensures Enabled(Step(s, TouchStart(2, d)), TouchMove(2, d / 2.0))
    ensures Step(Step(s, TouchStart(2, d)), TouchMove(2, d / 2.0)).scale == ClampScale(s.scale * 0.5)
  {
    assert (d / 2.0) / d == 0.5;
  }

  // ---------------------------------------------------------------------
  // Properties of event sequences

  /** The scale stays within the bounds after any sequence of events. */
  lemma {:induction false} RunKeepsScaleInRange(s: GestureState, events: seq<Event>)
    requires RunEnabled(s, events)
    requires InScaleRange(s.scale)
    ensures InScaleRange(Run(s, events).scale)
    decreases |events|
  {
    if |events| > 0 {
      RunKeepsScaleInRange(Step(s, events[0]), events[1..]);
    }
  }

  /** Every state reachable from the initial one has its scale within the bounds. */
  lemma ReachableScaleInRange(events: seq<Event>)
    requires RunEnabled(InitialState, events)
    ensures InScaleRange(Run(InitialState, events).scale)
  {
    RunKeepsScaleInRange(InitialState, events);
  }

  /** No recorded baseline, or a positive one. */
  predicate BaselinePositive(s: GestureState) {
    s.baseline.Some? ==> s.baseline.value > 0.0
  }

  /**
   * When every two-finger touch-start reports a positive distance, every
   * event of the sequence is enabled: the precondition on pinch moves only
   * excludes pinches that start with both fingers at one point.
   */
  lemma {:induction false} PositiveDistancesEnable(s: GestureState, events: seq<Event>)
    requires BaselinePositive(s)
    requires forall i :: 0 <= i < |events| && events[i].TouchStart? && events[i].touches == 2 ==> events[i].dist > 0.0
    ensures RunEnabled(s, events)
    decreases |events|
  {
    if |events| > 0 {
      var next := Step(s, events[0]);
      assert BaselinePositive(next);
      forall i | 0 <= i < |events[1..]| && events[1..][i].TouchStart? && events[1..][i].touches == 2
        ensures events[1..][i].dist > 0.0
      {
        assert events[1..][i] == events[i + 1];
      }
      PositiveDistancesEnable(next, events[1..]);
    }
  }

  // ---------------------------------------------------------------------
  // The handlers, over the component's refs and state

  class GestureController {
    var touchStartDist: Option<real>
    var startScale: real
    var lastTap: int
    var globalScale: real
    var layoutConfig: Layout

    /** The abstract state the fields represent. */
    function State(): GestureState
      reads this
    {
      GestureState(touchStartDist, startScale, lastTap, globalScale, layoutConfig)
    }

    /** The invariant every handler keeps: the zoom is within bounds. */
    predicate Valid()
      reads this
    {
      InScaleRange(globalScale)
    }

    constructor ()
      ensures Valid()
      ensures State() == InitialState
    {
      touchStartDist := None;
      startScale := 1.0;
      lastTap := 0;
      globalScale := 1.0;
      layoutConfig := InitialLayout;
    }

    /** handleWheel */
    method HandleWheel(deltaY: real)
      requires Valid()
      modifies this
      ensures Valid()
      ensures globalScale == ClampScale(old(globalScale) - deltaY * WheelSensitivity)
      ensures touchStartDist == old(touchStartDist) && startScale == old(startScale)
      ensures lastTap == old(lastTap) && layoutConfig == old(layoutConfig)
      ensures State() == Step(old(State()), Wheel(deltaY))
    {
      var delta := -deltaY * WheelSensitivity;
      var newScale := Min(MaxScale, Max(MinScale, globalScale + delta));
      globalScale := newScale;
    }

    /** handleTouchStart: `dist` is the distance between the first two touches. */
    method HandleTouchStart(touches: nat, dist: real)
      requires Valid()
      modifies this
      ensures Valid()
      ensures touches == 2 ==> touchStartDist == Some(dist) && startScale == old(globalScale)
      ensures touches != 2 ==> touchStartDist == old(touchStartDist) && startScale == old(startScale)
      ensures globalScale == old(globalScale) && lastTap == old(lastTap) && layoutConfig == old(layoutConfig)
      ensures State() == Step(old(State()), TouchStart(touches, dist))
    {
      if touches == 2 {
        touchStartDist := Some(dist);
        startScale := globalScale;
      }
    }

    /** handleTouchMove: `dist` is the distance between the first two touches. */
    method HandleTouchMove(touches: nat, dist: real)
      requires Valid()
      requires touches == 2 && touchStartDist.Some? ==> touchStartDist.value > 0.0
      modifies this
      ensures Valid()
      ensures touches == 2 && old(touchStartDist).Some? ==>
        globalScale == ClampScale(old(startScale) * (dist / old(touchStartDist).value))
      ensures !(touches == 2 && old(touchStartDist).Some?) ==> globalScale == old(globalScale)
      ensures touchStartDist == old(touchStartDist) && startScale == old(startScale)
      ensures lastTap == old(lastTap) && layoutConfig == old(layoutConfig)
      ensures State() == Step(old(State()), TouchMove(touches, dist))
    {
      if touches == 2 && touchStartDist.Some? {
        var scaleFactor := dist / touchStartDist.value;
        var newScale := Min(MaxScale, Max(MinScale, startScale * scaleFactor));
        globalScale := newScale;
      }
    }

    /** handleTouchEnd: `now` is Date.now(). */
    method HandleTouchEnd(touches: nat, now: int)
      requires Valid()
      modifies this
      ensures Valid()
      ensures touches < 2 ==> touchStartDist == None
      ensures touches >= 2 ==> touchStartDist == old(touchStartDist)
      ensures touches == 0 && now - old(lastTap) < DoubleTapDelay ==> globalScale == 1.0 && layoutConfig == InitialLayout
      ensures !(touches == 0 && now - old(lastTap) < DoubleTapDelay) ==>
        globalScale == old(globalScale) && layoutConfig == old(layoutConfig)
      ensures lastTap == now && startScale == old(startScale)
      ensures State() == Step(old(State()), TouchEnd(touches, now))
    {
      if touches < 2 {
        touchStartDist := None;
      }
      if touches == 0 && now - lastTap < DoubleTapDelay {
        layoutConfig := InitialLayout;
        globalScale := 1.0;
      }
      lastTap := now;
    }

    /** handleLayoutChange: the draggable layer reports where the content was dropped. */
    method HandleLayoutChange(x: real, y: real)
      requires Valid()
      modifies this
      ensures Valid()
      ensures layoutConfig == Layout(x, y)
      ensures touchStartDist == old(touchStartDist) && startScale == old(startScale)
      ensures lastTap == old(lastTap) && globalScale == old(globalScale)
      ensures State() == Step(old(State()), LayoutChange(x, y))
    {
      layoutConfig := Layout(x, y);
    }
  }
}
