/**
 * The tooltip's hover behaviour (Tooltip.tsx, handleMouseEnter,
 * handleMouseLeave and the setTimeout callback).
 *
 * Entering the anchor recomputes the placement from a fresh measurement
 * and re-arms the show timer, clearing any earlier one; leaving clears the
 * timer and hides at once; the timer firing makes the tooltip visible.
 * Without content, or when disabled, no handler is installed at all.
 * Time is not modelled: a timer is armed or not, and its firing is an event.
 */
module TooltipController {
  import opened Wrappers
  import opened TooltipPositioner

  /** Default side, align, sideOffset (pixels) and delayDuration (milliseconds) props. */
  const DefaultSide: Side := Top
  const DefaultAlign: Align := Center
  const DefaultSideOffset: real := 5.0
  const DefaultDelayDuration: real := 700.0

  /** The timers armed are at most the one the ref holds: so at most one. */
  lemma AtMostOneArmed(armed: set<nat>, ref: Option<nat>)
    requires forall t | t in armed :: ref == Some(t)
    ensures |armed| <= 1
    ensures ref.None? ==> armed == {}
  {
    if ref.Some? {
      assert armed <= {ref.value};
      if armed != {} {
        assert armed == {ref.value};
      }
    }
  }

  class Tooltip {
    const hasContent: bool
    const disabled: bool
    const side: Side
    const align: Align
    const sideOffset: real
    const delayDuration: real
    /** The visible state (opacity 1). */
    var visible: bool
    /** The position state: the last placement computed. */
    var position: Placement
    /** timeoutRef.current: the last timer armed and not cleared; it keeps a fired timer's id. */
    var timeoutRef: Option<nat>
    /** Timers the runtime still holds: armed, not yet fired, not cleared. */
    var armed: set<nat>
    /** The id the next setTimeout returns; browsers hand out positive ids. */
    var nextTimer: nat

    /** No content, or disabled: the children render bare, without handlers. */
    predicate Inert()
      reads this
    {
      !hasContent || disabled
    }

    /**
     * Every armed timer is the one in timeoutRef, so clearing that one leaves
     * none behind; an inert tooltip never arms, moves or shows.
     */
    ghost predicate Valid()
      reads this
    {
      (forall t | t in armed :: timeoutRef == Some(t)) &&
      (timeoutRef.Some? ==> 0 < timeoutRef.value < nextTimer) &&
      0 < nextTimer &&
      (Inert() ==> !visible && armed == {} && timeoutRef == None && position == Placement(0.0, 0.0, side))
    }

    constructor (hasContent: bool, disabled: bool, side: Side, align: Align,
                 sideOffset: real, delayDuration: real)
      ensures Valid()
      ensures this.hasContent == hasContent && this.disabled == disabled
      ensures this.side == side && this.align == align
      ensures this.sideOffset == sideOffset && this.delayDuration == delayDuration
      ensures !visible && position == Placement(0.0, 0.0, side)
      ensures timeoutRef == None && armed == {}
    {
      this.hasContent, this.disabled := hasContent, disabled;
      this.side, this.align := side, align;
      this.sideOffset, this.delayDuration := sideOffset, delayDuration;
      visible := false;
      position := Placement(0.0, 0.0, side);
      timeoutRef := None;
      armed := {};
      nextTimer := 1;
    }

    /**
     * handleMouseEnter: skipped when inert or when either element is not
     * mounted; otherwise stores the placement computed from the fresh anchor
     * rectangle, clears the pending timer and arms a new one.
     */
    method MouseEnter(child: Option<Rect>, tooltipBox: Option<Size>, viewport: Size)
      requires Valid() && viewport.Valid()
      requires tooltipBox.Some? ==> tooltipBox.value.Valid()
      modifies this
      ensures Valid() && |armed| <= 1
      ensures visible == old(visible)
      ensures Inert() || child.None? || tooltipBox.None? ==>
                position == old(position) && timeoutRef == old(timeoutRef) &&
                armed == old(armed) && nextTimer == old(nextTimer)
      ensures !Inert() && child.Some? && tooltipBox.Some? ==>
                position == CalculatePosition(child.value, side, align, sideOffset, tooltipBox.value, viewport) &&
                timeoutRef == Some(old(nextTimer)) && armed == {old(nextTimer)} &&
                nextTimer == old(nextTimer) + 1
    {
      AtMostOneArmed(armed, timeoutRef);
      if Inert() || child.None? || tooltipBox.None? {
        return;
      }
      position := CalculatePosition(child.value, side, align, sideOffset, tooltipBox.value, viewport);
      if timeoutRef.Some? {
        armed := armed - {timeoutRef.value};
      }
      var id := nextTimer;
      nextTimer := nextTimer + 1;
      armed := armed + {id};
      timeoutRef := Some(id);
      AtMostOneArmed(armed, timeoutRef);
    }

    /** handleMouseLeave: clears the pending timer and hides at once. */
    method MouseLeave()
      requires Valid()
      modifies this
      ensures Valid()
      ensures !visible && timeoutRef == None && armed == {}
      ensures position == old(position) && nextTimer == old(nextTimer)
    {
      if Inert() {
        return;
      }
      if timeoutRef.Some? {
        armed := armed - {timeoutRef.value};
        timeoutRef := None;
      }
      visible := false;
    }

    /** The setTimeout callback of an armed timer: shows the tooltip; the ref keeps the id. */
    method TimerFires(id: nat)
      requires Valid() && id in armed
      modifies this
      ensures Valid()
      ensures visible && armed == {}
      ensures position == old(position) && timeoutRef == old(timeoutRef) && nextTimer == old(nextTimer)
    {
      AtMostOneArmed(armed, timeoutRef);
      armed := armed - {id};
      visible := true;
    }
  }

  /**
   * Entering and leaving before the delay elapses, with the default props:
   * hidden, and no timer left to fire.
   */
  method EnterThenLeaveScenario(rect: Rect, box: Size, viewport: Size)
    returns (visible: bool, pending: nat)
    requires box.Valid() && viewport.Valid()
    ensures !visible && pending == 0
  {
    var t := new Tooltip(true, false, DefaultSide, DefaultAlign, DefaultSideOffset, DefaultDelayDuration);
    t.MouseEnter(Some(rect), Some(box), viewport);
    t.MouseLeave();
    visible, pending := t.visible, |t.armed|;
  }

  /** Entering and letting the timer fire shows the tooltip at the computed placement. */
  method EnterThenFireScenario(side: Side, align: Align, rect: Rect, box: Size, viewport: Size)
    returns (visible: bool, placement: Placement)
    requires box.Valid() && viewport.Valid()
    ensures visible
    ensures placement == CalculatePosition(rect, side, align, DefaultSideOffset, box, viewport)
  {
    var t := new Tooltip(true, false, side, align, DefaultSideOffset, DefaultDelayDuration);
    t.MouseEnter(Some(rect), Some(box), viewport);
    var id := t.timeoutRef.value;
    t.TimerFires(id);
    visible, placement := t.visible, t.position;
  }

  /**
   * Entering twice: the first timer is cleared, one timer is pending, and
   * the placement comes from the second measurement.
   */
  method ReEnterScenario(side: Side, align: Align, first: Rect, second: Rect, box: Size, viewport: Size)
    returns (pending: nat, firstArmed: bool, placement: Placement)
    requires box.Valid() && viewport.Valid()
    ensures pending == 1 && !firstArmed
    ensures placement == CalculatePosition(second, side, align, DefaultSideOffset, box, viewport)
  {
    var t := new Tooltip(true, false, side, align, DefaultSideOffset, DefaultDelayDuration);
    t.MouseEnter(Some(first), Some(box), viewport);
    var firstId := t.timeoutRef.value;
    t.MouseEnter(Some(second), Some(box), viewport);
    pending, firstArmed, placement := |t.armed|, firstId in t.armed, t.position;
  }

  /** A disabled tooltip, or one without content, never arms a timer and never shows. */
  method InertScenario(hasContent: bool, disabled: bool, side: Side, rect: Rect, box: Size, viewport: Size)
    returns (visible: bool, pending: nat, placement: Placement)
    requires !hasContent || disabled
    requires box.Valid() && viewport.Valid()
    ensures !visible && pending == 0 && placement == Placement(0.0, 0.0, side)
  {
    var t := new Tooltip(hasContent, disabled, side, DefaultAlign, DefaultSideOffset, DefaultDelayDuration);
    t.MouseEnter(Some(rect), Some(box), viewport);
    visible, pending, placement := t.visible, |t.armed|, t.position;
  }
}
