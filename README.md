# Slider and tooltip core, modelled in Dafny

This project models the logic of a timestamp slider widget and its tooltip:

- **RangeMapper** (`range_mapper.dfy`, from `src/components/Slider/utils.ts`): the
  clamped linear mapping between a domain value (a timestamp in milliseconds) and a
  percentage position in [0, 100] along the track, its inverse, the default sample data
  (five timestamps one day apart ending at `now`), and the slider-data record with its
  (always empty) gap list.
- **DragController** (`drag_controller.dfy`, from `src/components/Slider/Slider.tsx`): the
  conversion of a pointer's `clientX` into a clamped percentage of the track, the value
  reported to `onChange`, the thumb position and the gap-marker "active" test, and the drag
  state machine as a class `Slider` holding `isDragging`, the document listeners (a
  multiset of the four event kinds, so a duplicate registration would be visible) and the
  log of reported values.
- **TooltipPositioner** (`tooltip_positioner.dfy`, from `calculatePosition` in
  `src/components/ui/Tooltip.tsx`): choose the side, flip once to the opposite side on
  overflow, align the cross axis (start / center / end) and clamp it into the viewport.
- **TooltipController** (`tooltip_controller.dfy`, from the hover handlers of
  `src/components/ui/Tooltip.tsx`): a class `Tooltip` holding `visible`, the stored
  placement, `timeoutRef` and the set of timers still armed; mouse-enter, mouse-leave and
  the timer callback are methods, and a timer firing is an explicit event.
- `wrappers.dfy` holds the `Option` type used for DOM references that may be missing.

All arithmetic is exact over `real`. The clock (`Date.now()`), the window's inner size, the
tooltip's offset size and the anchor and track bounding rectangles are parameters of the
operations that read them. Timers have no duration: a timer is armed or not, and it fires
when the environment calls `TimerFires`.

Points where the source's behaviour is easy to misread:

- For `min == max`, `valueToPosition` gives 100 for `value >= min` and 0 below it, because the `value >= max` test comes first (src/components/Slider/utils.ts:20-21).
- `Tooltip.tsx` has no unmount cleanup for `timeoutRef`, so a timer pending at unmount still fires. The model has no teardown.
- Only an unmounted track is skipped (src/components/Slider/Slider.tsx:54, 75). A mounted track of zero width is not skipped. The model requires a mounted track to have a positive width; "## Left out" says what the source does at width 0.
- After the timer fires, the code leaves the fired id in `timeoutRef`. The model does the same. The next enter or leave clears that stale id, which changes nothing.

## Model

| member | source | states |
|---|---|---|
| RangeMapper.SampleTimestamps | src/components/Slider/utils.ts:1-5 | exactly `count` timestamps; the last one (if any) is `now`; each is one day (86400000 ms) after the one before |
| RangeMapper.SampleTimestampsIncreasing | src/components/Slider/utils.ts:1-5 | the sample timestamps are strictly increasing |
| RangeMapper.GenerateSliderData | src/components/Slider/utils.ts:8-16 | non-empty data is kept; empty data is replaced by the five default samples; the data is never empty; gaps are `[]` and the position ranges are `[{0, 100}]` |
| RangeMapper.ValueToPosition | src/components/Slider/utils.ts:17-23 | result in [0, 100]; 100 whenever `value >= max` (checked first); 0 whenever `value < max` and `value <= min`; for `min < value < max`, strictly between 0 and 100 and exactly the linear proportion, `p * (max - min) == (value - min) * 100`; the only division has a non-zero divisor, even for `min >= max` |
| RangeMapper.PositionToValue | src/components/Slider/utils.ts:24-30 | `max` for positions `>= 100`; `min` for positions `<= 0` below 100; for `0 < position < 100`, exactly the linear interpolation, `(v - min) * 100 == position * (max - min)`; the result lies between `min` and `max` (in either order); `min` for a degenerate range |
| RangeMapper.PositionRoundTrip | src/components/Slider/utils.ts:17-30 | for `min < v < max`, `positionToValue(valueToPosition(v)) == v` exactly |
| RangeMapper.ValueRoundTrip | src/components/Slider/utils.ts:17-30 | for `min < max` and `0 < p < 100`, `valueToPosition(positionToValue(p)) == p` exactly |
| RangeMapper.ValueToPositionMonotone | src/components/Slider/utils.ts:17-23 | for `min <= max`, valueToPosition is non-decreasing in the value |
| RangeMapper.PositionToValueMonotone | src/components/Slider/utils.ts:24-30 | for `min <= max`, positionToValue is non-decreasing in the position |
| RangeMapper.DefaultMiddleSampleAtHalf | src/components/Slider/utils.ts:1-23 | with the default five samples, the middle sample maps to position 50 |
| DragController.PointerToPosition | src/components/Slider/Slider.tsx:55-57 | for a positive track width: result in [0, 100]; 0 at or left of the track's left edge; 100 at or right of its right edge; strictly between 0 and 100 and the exact proportion `(clientX - left) / width * 100` in between |
| DragController.ReportedValue | src/components/Slider/Slider.tsx:53-60 | no value when the track is unmounted; otherwise `min` at the left edge and `max` at the right edge; the value lies between `min` and `max`, in either order; strictly inside the track, for any order of `min` and `max`, the value is the same fraction of the range as the pointer is of the track, `(v - min) * width == (clientX - left) * (max - min)`; for `min < max`, the value's own position is then exactly the pointer's percentage |
| DragController.ThumbPosition | src/components/Slider/Slider.tsx:41-44 | the fill width and thumb offset always lie within [0, 100] |
| DragController.GapActive | src/components/Slider/Slider.tsx:135-140 | the marker of a gap ending at or before 0 is always active; one ending after 100 never is; at or past `max`, a gap is active iff its end is at most 100 |
| DragController.GapActivity | src/components/Slider/Slider.tsx:135-140 | for `min <= max`, a gap marker once active stays active as the value grows |
| DragController.Slider.constructor | src/components/Slider/Slider.tsx:36-38 | starts idle, with no document listeners and nothing reported |
| DragController.Slider.PointerDown | src/components/Slider/Slider.tsx:46-100 | disabled: no state change, nothing reported; enabled: `isDragging` is set and the four listeners are registered once, even when the track is unmounted; then exactly the ReportedValue, if any, is appended to the log |
| DragController.Slider.DocumentMove | src/components/Slider/Slider.tsx:71-83 | while dragging, a mouse or touch move reports exactly the ReportedValue, if any; while idle no listener exists and nothing is reported; drag state and listeners unchanged |
| DragController.Slider.DocumentRelease | src/components/Slider/Slider.tsx:85-99 | mouse-up or touch-end leaves the slider idle with all four listeners removed; nothing is reported; Valid keeps `listeners == DragListeners` exactly while dragging, across any number of cycles |
| DragController.EdgeDragScenario | src/components/Slider/Slider.tsx:46-100 | press at the left edge reports `min`; a drag to the right edge reports `max`; after the release the slider is idle and a further move reports nothing |
| DragController.DisabledScenario | src/components/Slider/Slider.tsx:46-48 | a disabled slider never drags and never reports a value |
| DragController.UnmountedTrackScenario | src/components/Slider/Slider.tsx:51-54 | a press on an unmounted track still starts the drag without reporting; the next move over the mounted track reports |
| TooltipPositioner.Opposite | src/components/ui/Tooltip.tsx:109-142 | the flip target is a different side on the same axis (top and bottom, left and right) |
| TooltipPositioner.PrimaryCoordinate | src/components/ui/Tooltip.tsx:109-142 | on each side, the tooltip's near edge is exactly `offset` away from the anchor's edge on that side (above the top, below the bottom, left of the left, right of the right) |
| TooltipPositioner.Overflows | src/components/ui/Tooltip.tsx:109-142 | top overflows iff `rect.top - th - offset < 0`, bottom iff `rect.bottom + offset + th > vh`, left iff `rect.left - tw - offset < 0`, right iff `rect.right + offset + tw > vw` |
| TooltipPositioner.AlignedCross | src/components/ui/Tooltip.tsx:109-152 | start puts the tooltip's leading edge on the anchor's, end its trailing edge on the anchor's, center its midpoint on the anchor's midpoint, on the cross axis of the side |
| TooltipPositioner.ClampCross | src/components/ui/Tooltip.tsx:144-152 | the clamped coordinate is at most `viewportExtent - tooltipExtent`; when the tooltip fits it is at least 0, unchanged when already inside, 0 below 0 and the cap past the cap; when the tooltip is larger than the viewport it is always the cap `viewportExtent - tooltipExtent` |
| TooltipPositioner.CalculatePosition | src/components/ui/Tooltip.tsx:93-155 | the final side is the requested side or its opposite, on the same axis; per side, it flips iff top `rect.top - th - offset < 0`, bottom `rect.bottom + offset + th > vh`, left `rect.left - tw - offset < 0`, right `rect.right + offset + tw > vw`; the primary coordinate is the final side's formula and is never clamped; the cross coordinate is at most `viewport - tooltip` and at least 0 when the tooltip fits |
| TooltipPositioner.CrossAxisAlignment | src/components/ui/Tooltip.tsx:144-152 | before the clamp, center gives the anchor's midpoint minus half the tooltip's extent, start the anchor's leading edge, end its trailing edge minus the tooltip's extent; that value is kept when it fits; past the cap it becomes the cap; below 0 it becomes 0 when the tooltip fits; an oversized tooltip always gets the cap |
| TooltipPositioner.FlipBelowScenario | src/components/ui/Tooltip.tsx:110-116 | side top, `rect.top = 10`, tooltip height 50 and offset 12 give final side bottom at `rect.bottom + 12` |
| TooltipPositioner.SingleFlip | src/components/ui/Tooltip.tsx:109-142 | when both sides overflow the tooltip flips once and keeps the opposite side's coordinate; there is no second flip |
| TooltipController.AtMostOneArmed | src/components/ui/Tooltip.tsx:77-82 | when every armed timer is the one in `timeoutRef`, at most one timer is armed, and none when the ref is empty |
| TooltipController.Tooltip.constructor | src/components/ui/Tooltip.tsx:46-54 | starts hidden at placement `{0, 0, side}` with no timer |
| TooltipController.Tooltip.MouseEnter | src/components/ui/Tooltip.tsx:63-83 | inert, or either element unmounted: nothing changes; otherwise the stored placement is CalculatePosition of the fresh rectangle, the previous timer is cleared and exactly one new timer is armed and held by the ref; visibility unchanged |
| TooltipController.Tooltip.MouseLeave | src/components/ui/Tooltip.tsx:85-91 | always leaves the tooltip hidden with no timer armed and an empty ref; the placement is kept |
| TooltipController.Tooltip.TimerFires | src/components/ui/Tooltip.tsx:81 | an armed timer firing makes the tooltip visible and leaves no timer armed; the ref keeps the fired id |
| TooltipController.EnterThenLeaveScenario | src/components/ui/Tooltip.tsx:34-91 | with the default props (side top, align center, offset 5, delay 700), enter then leave before the timer fires: hidden, and no timer is left that could fire |
| TooltipController.EnterThenFireScenario | src/components/ui/Tooltip.tsx:63-83 | enter then the timer fires: visible at the placement computed on enter |
| TooltipController.ReEnterScenario | src/components/ui/Tooltip.tsx:63-83 | entering twice: the first timer is cleared, one timer is pending, and the placement comes from the second rectangle |
| TooltipController.InertScenario | src/components/ui/Tooltip.tsx:61 | without content, or when disabled, entering arms no timer, does not show and keeps the initial placement |

## Left out

- IEEE-754 rounding, NaN and Infinity: all arithmetic is exact.
- DragController.PointerToPosition: a mounted track must have a positive width; the zero-width case is not modelled. In the source, a zero width gives ±Infinity for `clientX != rect.left`. The clamp (src/components/Slider/Slider.tsx:57) turns that into 100 or 0, and positionToValue then reports `max` or `min`. At `clientX == rect.left` the position is NaN. NaN passes neither clamp test (src/components/Slider/utils.ts:27-28), so NaN is reported.
- `Date.now()`: `now` is a parameter of SampleTimestamps and GenerateSliderData. Each call of `generateSampleTimestamps` reads the clock anew; the model passes one reading.
- RangeMapper.SampleTimestamps: `count` is a natural number. The source's `Array.from` also accepts fractional and negative lengths, which it truncates or turns into an empty array.
- React mechanics (`useState`, `useMemo`, `useCallback`, `useEffect` dependency arrays, re-rendering) are not modelled. Each component's state is explicit, and an effect runs in the same step as the state change that triggers it. The drag effect also re-runs when `onChange` or `sliderData` change during a drag; that removes and re-adds the same four listeners, so it is left out.
- `preventDefault` on pointer events is not modelled: there are no browser default actions in the model.
- The `e.touches[0]` lookup: a touch event's `clientX` is passed in like a mouse event's.
- The Slider's own tooltip wiring is presentation and is not part of this model. This covers `showTooltip`, set by the track's mouse-enter and mouse-leave, and the Tooltip it disables. It also covers `formatFullTimestamp`, `cn`, CSS classes and JSX.
- `getPortalRoot` (the lazily created shared portal element), `createPortal` and `NoSsr` are DOM plumbing and are not part of this model.
- Measurement (`getBoundingClientRect`, `offsetWidth`, `offsetHeight`, `window.innerWidth`, `window.innerHeight`): the results are inputs, with non-negative sizes. The `|| 0` fallback of the tooltip size only matters for a missing element, which the enter handler already rules out.
- `delayDuration` is stored but not interpreted, because time is not modelled. A timer's firing is the explicit `TimerFires` event.
- The `content` and `disabled` props of the Tooltip, and `disabled` and `data` of the Slider, are fixed at construction. A prop change between events is not modelled.
- Unmounting is not modelled. For the Slider, this includes the effect cleanup that would remove the listeners of an active drag. For the Tooltip, the source has no cleanup.
- Gap-aware remapping of positions: the source never performs it (the gap list is always empty). Gaps appear only through the active-marker test.
- `src/App.tsx` is composition glue and is not part of this model.
