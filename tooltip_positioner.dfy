/**
 * Tooltip placement (calculatePosition in src/components/ui/Tooltip.tsx).
 *
 * The tooltip goes on the requested side of the anchor, `offset` away from
 * it; if it overflows the viewport on that side it flips once to the
 * opposite side (and stays there even if that overflows too).  The other
 * axis is centred on the anchor, or aligned with its start or end, and is
 * then clamped into the viewport.  The primary axis is never clamped.
 */
module TooltipPositioner {

  datatype Side = Top | Right | Bottom | Left

  datatype Align = Start | Center | End

  /** A DOMRect snapshot of the anchor element. */
  datatype Rect = Rect(top: real, left: real, width: real, height: real, right: real, bottom: real)

  /** A width and a height: the tooltip's offset size or the window's inner size. */
  datatype Size = Size(width: real, height: real)
  {
    predicate Valid() { width >= 0.0 && height >= 0.0 }
  }

  /** The computed position: coordinates and the side actually used. */
  datatype Placement = Placement(top: real, left: real, finalSide: Side)

  /** top <-> bottom, left <-> right: a different side on the same axis. */
  function Opposite(side: Side): (o: Side)
    ensures o != side
    ensures IsHorizontal(o) == IsHorizontal(side)
  {
    match side
    case Top => Bottom
    case Bottom => Top
    case Left => Right
    case Right => Left
  }

  /** Left and right place the tooltip beside the anchor; the cross axis is then vertical. */
  predicate IsHorizontal(side: Side)
  {
    side == Left || side == Right
  }

  /**
   * The coordinate on the side's own axis (top for top/bottom, left for
   * left/right): the tooltip's near edge is `offset` away from the anchor's
   * edge on that side.
   */
  function PrimaryCoordinate(rect: Rect, side: Side, offset: real, tooltip: Size): (c: real)
    ensures side == Top ==> rect.top - (c + tooltip.height) == offset
    ensures side == Bottom ==> c - rect.bottom == offset
    ensures side == Left ==> rect.left - (c + tooltip.width) == offset
    ensures side == Right ==> c - rect.right == offset
  {
    match side
    case Top => rect.top - tooltip.height - offset
    case Bottom => rect.bottom + offset
    case Left => rect.left - tooltip.width - offset
    case Right => rect.right + offset
  }

  /**
   * The overflow test applied to the requested side: the tooltip would start
   * before the viewport (top, left) or end past its far edge (bottom, right).
   */
  predicate Overflows(rect: Rect, side: Side, offset: real, tooltip: Size, viewport: Size)
    ensures side == Top ==> (Overflows(rect, side, offset, tooltip, viewport) <==> rect.top - tooltip.height - offset < 0.0)
    ensures side == Bottom ==> (Overflows(rect, side, offset, tooltip, viewport) <==> rect.bottom + offset + tooltip.height > viewport.height)
    ensures side == Left ==> (Overflows(rect, side, offset, tooltip, viewport) <==> rect.left - tooltip.width - offset < 0.0)
    ensures side == Right ==> (Overflows(rect, side, offset, tooltip, viewport) <==> rect.right + offset + tooltip.width > viewport.width)
  {
    var primary := PrimaryCoordinate(rect, side, offset, tooltip);
    match side
    case Top => primary < 0.0
    case Bottom => primary + tooltip.height > viewport.height
    case Left => primary < 0.0
    case Right => primary + tooltip.width > viewport.width
  }

  /**
   * The cross-axis coordinate after alignment, before the clamp: start puts
   * the leading edges together, end the trailing edges, center the midpoints.
   */
  function AlignedCross(rect: Rect, side: Side, align: Align, tooltip: Size): (c: real)
    ensures IsHorizontal(side) && align == Start ==> c == rect.top
    ensures IsHorizontal(side) && align == End ==> c + tooltip.height == rect.bottom
    ensures IsHorizontal(side) && align == Center ==> c + tooltip.height / 2.0 == rect.top + rect.height / 2.0
    ensures !IsHorizontal(side) && align == Start ==> c == rect.left
    ensures !IsHorizontal(side) && align == End ==> c + tooltip.width == rect.right
    ensures !IsHorizontal(side) && align == Center ==> c + tooltip.width / 2.0 == rect.left + rect.width / 2.0
  {
    if IsHorizontal(side) then
      match align
      case Start => rect.top
      case End => rect.bottom - tooltip.height
      case Center => rect.top + rect.height / 2.0 - tooltip.height / 2.0
    else
      match align
      case Start => rect.left
      case End => rect.right - tooltip.width
      case Center => rect.left + rect.width / 2.0 - tooltip.width / 2.0
  }

  /**
   * The cross coordinate raised to at least 0 and then capped at
   * viewportExtent - tooltipExtent, the cap winning: never past the far edge,
   * never before 0 when the tooltip fits, unchanged when already inside, and
   * pinned to the cap when the tooltip is larger than the viewport.
   */
  function ClampCross(x: real, viewportExtent: real, tooltipExtent: real): (c: real)
    ensures c <= viewportExtent - tooltipExtent
    ensures tooltipExtent <= viewportExtent ==> 0.0 <= c
    ensures 0.0 <= x <= viewportExtent - tooltipExtent ==> c == x
    ensures tooltipExtent <= viewportExtent && x < 0.0 ==> c == 0.0
    ensures x > viewportExtent - tooltipExtent ==> c == viewportExtent - tooltipExtent
    ensures tooltipExtent > viewportExtent ==> c == viewportExtent - tooltipExtent
  {
    var lowered := if 0.0 >= x then 0.0 else x;
    if lowered <= viewportExtent - tooltipExtent then lowered else viewportExtent - tooltipExtent
  }

  /**
   * calculatePosition: flip at most once, keeping the axis, exactly when the
   * requested side overflows; place the primary coordinate by the final
   * side's formula without clamping; clamp the cross coordinate into the
   * viewport.
   */
  function CalculatePosition(rect: Rect, side: Side, align: Align, offset: real,
                             tooltip: Size, viewport: Size): (p: Placement)
    requires tooltip.Valid() && viewport.Valid()
    ensures p.finalSide == side || p.finalSide == Opposite(side)
    ensures IsHorizontal(p.finalSide) == IsHorizontal(side)
    ensures side == Top ==> (p.finalSide == Bottom <==> rect.top - tooltip.height - offset < 0.0)
    ensures side == Bottom ==> (p.finalSide == Top <==> rect.bottom + offset + tooltip.height > viewport.height)
    ensures side == Left ==> (p.finalSide == Right <==> rect.left - tooltip.width - offset < 0.0)
    ensures side == Right ==> (p.finalSide == Left <==> rect.right + offset + tooltip.width > viewport.width)
    ensures p.finalSide == Top ==> p.top == rect.top - tooltip.height - offset
    ensures p.finalSide == Bottom ==> p.top == rect.bottom + offset
    ensures p.finalSide == Left ==> p.left == rect.left - tooltip.width - offset
    ensures p.finalSide == Right ==> p.left == rect.right + offset
    ensures !IsHorizontal(p.finalSide) ==>
              p.left <= viewport.width - tooltip.width &&
              (tooltip.width <= viewport.width ==> 0.0 <= p.left)
    ensures IsHorizontal(p.finalSide) ==>
              p.top <= viewport.height - tooltip.height &&
              (tooltip.height <= viewport.height ==> 0.0 <= p.top)
  {
    var finalSide := if Overflows(rect, side, offset, tooltip, viewport) then Opposite(side) else side;
    var primary := PrimaryCoordinate(rect, finalSide, offset, tooltip);
    var cross := AlignedCross(rect, finalSide, align, tooltip);
    if IsHorizontal(finalSide) then
      Placement(ClampCross(cross, viewport.height, tooltip.height), primary, finalSide)
    else
      Placement(primary, ClampCross(cross, viewport.width, tooltip.width), finalSide)
  }

  /**
   * The cross coordinate before the clamp: centred on the anchor, flush with
   * its leading edge (start) or with its trailing edge (end); whenever that
   * value already fits in the viewport it is the one used.
   */
  lemma CrossAxisAlignment(rect: Rect, side: Side, align: Align, offset: real,
                           tooltip: Size, viewport: Size)
    requires tooltip.Valid() && viewport.Valid()
    ensures var p := CalculatePosition(rect, side, align, offset, tooltip, viewport);
            var x := if IsHorizontal(side) then p.top else p.left;
            var vp := if IsHorizontal(side) then viewport.height else viewport.width;
            var tt := if IsHorizontal(side) then tooltip.height else tooltip.width;
            var lead := if IsHorizontal(side) then rect.top else rect.left;
            var trail := if IsHorizontal(side) then rect.bottom else rect.right;
            var extent := if IsHorizontal(side) then rect.height else rect.width;
            var aligned := match align
                           case Start => lead
                           case End => trail - tt
                           case Center => lead + extent / 2.0 - tt / 2.0;
            (0.0 <= aligned <= vp - tt ==> x == aligned) &&
            (aligned > vp - tt ==> x == vp - tt) &&
            (tt <= vp && aligned < 0.0 ==> x == 0.0) &&
            (tt > vp ==> x == vp - tt)
  {
  }

  /**
   * A tooltip above an anchor 10px from the top, 50px high with offset 12,
   * would start at -52: it flips below the anchor, offset 12 from its bottom.
   */
  lemma FlipBelowScenario(rect: Rect, align: Align, tooltipWidth: real, viewport: Size)
    requires rect.top == 10.0 && tooltipWidth >= 0.0 && viewport.Valid()
    ensures var p := CalculatePosition(rect, Top, align, 12.0, Size(tooltipWidth, 50.0), viewport);
            p.finalSide == Bottom && p.top == rect.bottom + 12.0
  {
  }

  /** When both sides overflow the flip still happens once and the overflow is accepted. */
  lemma SingleFlip(rect: Rect, side: Side, align: Align, offset: real, tooltip: Size, viewport: Size)
    requires tooltip.Valid() && viewport.Valid()
    requires Overflows(rect, side, offset, tooltip, viewport)
    requires Overflows(rect, Opposite(side), offset, tooltip, viewport)
    ensures var p := CalculatePosition(rect, side, align, offset, tooltip, viewport);
            p.finalSide == Opposite(side) &&
            (if IsHorizontal(side) then p.left else p.top)
              == PrimaryCoordinate(rect, Opposite(side), offset, tooltip)
  {
  }
}
