/**
 * The slider's pointer handling (src/components/Slider/Slider.tsx).
 *
 * A pointer-down on an enabled track starts a drag and reports a value at
 * once; while dragging, four document-wide listeners (mouse and touch move,
 * mouse-up and touch-end) are registered, so moves anywhere in the document
 * report values and a release ends the drag and removes the listeners.
 * Every reported value is positionToValue of the pointer's clamped
 * percentage along the track.
 */
module DragController {
  import opened Wrappers
  import opened RangeMapper

  /** The part of the track's bounding rectangle the conversion reads. */
  datatype TrackRect = TrackRect(left: real, width: real)

  /**
   * A measured track must have a positive width.  With a zero width the
   * source's percentage is NaN at the left edge and an infinity elsewhere.
   */
  predicate Measurable(track: Option<TrackRect>)
  {
    track.Some? ==> track.value.width > 0.0
  }

  function RealMin(a: real, b: real): (m: real)
    ensures m <= a && m <= b && (m == a || m == b)
  {
    if a <= b then a else b
  }

  function RealMax(a: real, b: real): (m: real)
    ensures m >= a && m >= b && (m == a || m == b)
  {
    if a >= b then a else b
  }

  /**
   * The pointer's percentage along the track,
   * the pointer's offset from the track's left edge as a percentage of its
   * width, capped at 100 and then raised to at least 0:
   * 0 at or left of the track, 100 at or right of its end, and the exact
   * proportion in between.
   */
  function PointerToPosition(clientX: real, track: TrackRect): (p: real)
    requires track.width > 0.0
    ensures 0.0 <= p <= 100.0
    ensures clientX <= track.left ==> p == 0.0
    ensures clientX >= track.left + track.width ==> p == 100.0
    ensures track.left < clientX < track.left + track.width ==>
              0.0 < p < 100.0 && p * track.width == (clientX - track.left) * 100.0
  {
    var f := (clientX - track.left) / track.width;
    FractionOfTrack(clientX - track.left, track.width);
    var position := f * 100.0;
    assert position * track.width == (clientX - track.left) * 100.0 by {
      assert position * track.width == (f * track.width) * 100.0;
    }
    assert track.left < clientX < track.left + track.width ==> 0.0 < f < 1.0 by {
      if track.left < clientX < track.left + track.width {
        assert (f - 1.0) * track.width == (clientX - track.left) - track.width;
        SignOfFactor(f, track.width);
        SignOfFactor(f - 1.0, track.width);
      }
    }
    RealMax(0.0, RealMin(100.0, position))
  }

  /** Dividing an offset by the track width: at most 0 before the start, at least 1 past the end. */
  lemma FractionOfTrack(d: real, w: real)
    requires w > 0.0
    ensures d <= 0.0 ==> d / w <= 0.0
    ensures d >= w ==> d / w >= 1.0
    ensures d / w * w == d
  {
    var q := d / w;
    assert q * w == d;
    assert (q - 1.0) * w == d - w;
    SignOfFactor(q, w);
    SignOfFactor(q - 1.0, w);
  }

  lemma SignOfFactor(x: real, w: real)
    requires w > 0.0
    ensures x * w >= 0.0 ==> x >= 0.0
    ensures x * w <= 0.0 ==> x <= 0.0
  {
  }

  /**
   * What updatePosition passes to onChange: nothing when the track is not
   * mounted, otherwise positionToValue of the clamped pointer position.  The
   * value is min at the left edge, max at the right edge, within the range,
   * and, strictly inside the track, one whose own position lies exactly under
   * the pointer.
   */
  function ReportedValue(s: SliderData, clientX: real, track: Option<TrackRect>): (r: Option<real>)
    requires s.Valid() && Measurable(track)
    ensures track.None? <==> r.None?
    ensures r.Some? && s.Min() <= s.Max() ==> s.Min() <= r.value <= s.Max()
    ensures r.Some? && s.Max() <= s.Min() ==> s.Max() <= r.value <= s.Min()
    ensures track.Some? && clientX <= track.value.left ==> r == Some(s.Min())
    ensures track.Some? && clientX >= track.value.left + track.value.width ==> r == Some(s.Max())
    ensures track.Some? && s.Min() < s.Max() &&
            track.value.left < clientX < track.value.left + track.value.width ==>
              ValueToPosition(s, r.value) * track.value.width == (clientX - track.value.left) * 100.0
    ensures track.Some? && track.value.left < clientX < track.value.left + track.value.width ==>
              (r.value - s.Min()) * track.value.width == (clientX - track.value.left) * (s.Max() - s.Min())
  {
    match track
    case None => None
    case Some(rect) =>
      var p := PointerToPosition(clientX, rect);
      assert s.Min() < s.Max() && 0.0 < p < 100.0 ==> ValueToPosition(s, PositionToValue(s, p)) == p by {
        if s.Min() < s.Max() && 0.0 < p < 100.0 { ValueRoundTrip(s, p); }
      }
      var v := PositionToValue(s, p);
      assert rect.left < clientX < rect.left + rect.width ==>
               (v - s.Min()) * rect.width == (clientX - rect.left) * (s.Max() - s.Min()) by {
        if rect.left < clientX < rect.left + rect.width {
          ScaledInterpolation(p, rect.width, clientX - rect.left, v - s.Min(), s.Max() - s.Min());
        }
      }
      Some(v)
  }

  /**
   * The pointer's fraction of the track (p * w == d * 100) and the value's
   * fraction of the range (e * 100 == p * span) agree: e * w == d * span.
   */
  lemma ScaledInterpolation(p: real, w: real, d: real, e: real, span: real)
    requires p * w == d * 100.0 && e * 100.0 == p * span
    ensures e * w == d * span
  {
    calc {
      (e * w) * 100.0;
      (e * 100.0) * w;
      (p * span) * w;
      (p * w) * span;
      (d * 100.0) * span;
      (d * span) * 100.0;
    }
  }

  /** The fill width and thumb offset, in percent of the track: never outside the track. */
  function ThumbPosition(s: SliderData, value: real): (p: real)
    requires s.Valid()
    ensures 0.0 <= p <= 100.0
  {
    ValueToPosition(s, value)
  }

  /**
   * A gap marker is drawn active once the thumb has reached its end: always
   * for a gap ending at or before 0, never for one ending past 100, and, at
   * or past max, exactly when the gap ends within the track.
   */
  predicate GapActive(s: SliderData, value: real, gap: Gap)
    requires s.Valid()
    ensures gap.end <= 0.0 ==> GapActive(s, value, gap)
    ensures gap.end > 100.0 ==> !GapActive(s, value, gap)
    ensures value >= s.Max() ==> (GapActive(s, value, gap) <==> gap.end <= 100.0)
  {
    ThumbPosition(s, value) >= gap.end
  }

  /** For an ordered range, a gap marker once active stays active as the value grows. */
  lemma GapActivity(s: SliderData, v1: real, v2: real, gap: Gap)
    requires s.Valid() && s.Min() <= s.Max() && v1 <= v2
    ensures GapActive(s, v1, gap) ==> GapActive(s, v2, gap)
  {
    ValueToPositionMonotone(s, v1, v2);
  }

  /** The document events a drag listens to. */
  datatype DocumentEvent = MouseMove | MouseUp | TouchMove | TouchEnd

  /** The four listeners the drag effect registers, once each. */
  const DragListeners: multiset<DocumentEvent> := multiset{MouseMove, MouseUp, TouchMove, TouchEnd}

  class Slider {
    const sliderData: SliderData
    const disabled: bool
    /** The component's isDragging state. */
    var isDragging: bool
    /** The listeners currently registered on the document, with multiplicity. */
    var listeners: multiset<DocumentEvent>
    /** Every value passed to onChange, in order. */
    var reported: seq<real>

    /**
     * Listeners are registered exactly while dragging, each of the four
     * exactly once, and a disabled slider never drags.
     */
    ghost predicate Valid()
      reads this
    {
      sliderData.Valid() &&
      listeners == (if isDragging then DragListeners else multiset{}) &&
      (disabled ==> !isDragging)
    }

    /** True exactly when the document holds the drag listeners. */
    predicate ListenersAttached()
      reads this
    {
      listeners == DragListeners
    }

    constructor (sliderData: SliderData, disabled: bool)
      requires sliderData.Valid()
      ensures Valid()
      ensures this.sliderData == sliderData && this.disabled == disabled
      ensures !isDragging && listeners == multiset{} && reported == []
    {
      this.sliderData := sliderData;
      this.disabled := disabled;
      isDragging := false;
      listeners := multiset{};
      reported := [];
    }

    /**
     * handleMouseDown (mouse-down or touch-start on the track): ignored when
     * disabled; otherwise sets isDragging first, so the drag starts even when
     * the track cannot be measured, and then reports the value under the
     * pointer.  The listener effect re-runs only when isDragging changes.
     */
    method PointerDown(clientX: real, track: Option<TrackRect>)
      requires Valid() && Measurable(track)
      modifies this
      ensures Valid()
      ensures disabled ==> isDragging == old(isDragging) && reported == old(reported)
      ensures !disabled ==> isDragging && ListenersAttached()
      ensures !disabled ==> reported == old(reported) + ToSeq(ReportedValue(sliderData, clientX, track))
    {
      if disabled {
        return;
      }
      var wasDragging := isDragging;
      isDragging := true;
      if !wasDragging {
        listeners := listeners + DragListeners;
      }
      var r := ReportedValue(sliderData, clientX, track);
      reported := reported + ToSeq(r);
    }

    /**
     * A mouse-move or touch-move anywhere in the document: handled only when
     * its listener is registered, that is while dragging; then it reports the
     * value under the pointer, unless the track cannot be measured.
     */
    method DocumentMove(touch: bool, clientX: real, track: Option<TrackRect>)
      requires Valid() && Measurable(track)
      modifies this
      ensures Valid()
      ensures isDragging == old(isDragging) && listeners == old(listeners)
      ensures reported == old(reported) +
                (if old(isDragging) then ToSeq(ReportedValue(sliderData, clientX, track)) else [])
    {
      var event := if touch then TouchMove else MouseMove;
      if event in listeners {
        var r := ReportedValue(sliderData, clientX, track);
        reported := reported + ToSeq(r);
      }
    }

    /**
     * A mouse-up or touch-end anywhere in the document: when its listener is
     * registered it clears isDragging, and the effect's cleanup removes all
     * four listeners.  No value is reported.
     */
    method DocumentRelease(touch: bool)
      requires Valid()
      modifies this
      ensures Valid()
      ensures !isDragging && !ListenersAttached() && listeners == multiset{}
      ensures reported == old(reported)
    {
      var event := if touch then TouchEnd else MouseUp;
      if event in listeners {
        isDragging := false;
        listeners := listeners - DragListeners;
      }
    }
  }

  /**
   * A click at the left edge reports min, dragging to the right edge reports
   * max, and after the release a further move reports nothing.
   */
  method EdgeDragScenario(s: SliderData, track: TrackRect) returns (log: seq<real>, dragging: bool)
    requires s.Valid() && track.width > 0.0
    ensures log == [s.Min(), s.Max()]
    ensures !dragging
  {
    var slider := new Slider(s, false);
    slider.PointerDown(track.left, Some(track));
    slider.DocumentMove(false, track.left + track.width, Some(track));
    slider.DocumentRelease(false);
    slider.DocumentMove(true, track.left, Some(track));
    log, dragging := slider.reported, slider.isDragging;
  }

  /** A disabled slider never starts dragging and never reports a value. */
  method DisabledScenario(s: SliderData, clientX: real, track: TrackRect) returns (log: seq<real>, dragging: bool)
    requires s.Valid() && track.width > 0.0
    ensures log == [] && !dragging
  {
    var slider := new Slider(s, true);
    slider.PointerDown(clientX, Some(track));
    slider.DocumentMove(false, clientX, Some(track));
    log, dragging := slider.reported, slider.isDragging;
  }

  /**
   * Pressing while the track is unmounted still starts the drag but
   * reports nothing; the next move over the mounted track reports.
   */
  method UnmountedTrackScenario(s: SliderData, clientX: real, track: TrackRect) returns (log: seq<real>, dragging: bool)
    requires s.Valid() && track.width > 0.0
    ensures dragging
    ensures log == [PositionToValue(s, PointerToPosition(clientX, track))]
  {
    var slider := new Slider(s, false);
    slider.PointerDown(clientX, None);
    slider.DocumentMove(false, clientX, Some(track));
    log, dragging := slider.reported, slider.isDragging;
  }
}
