# Gantt timeline core, modelled in Dafny

This project models the logic of a React Gantt-style timeline
(airtable-timeline-challenge). Items with inclusive start and end dates are
drawn as bars in horizontal lanes. The user can drag a bar to other days or
another lane, resize it by either edge, zoom, rename it, cycle its colour,
and click the background to create a new one. The model covers:

- **`TimelineHelpers`**: the day width derived from the zoom and the
  container width, and the date range of the items padded by 5 days on each
  side.
- **`TimelineAxis`**: the tick interval, tick formats and tick positions,
  and the loop that splits the axis into month dividers.
- **`TimelineItem`**: where a bar is drawn, how a drag snaps to whole days,
  the lane hit test, what a drop and a resize propose, and the drag and
  resize gesture state of one bar (class `ItemController`).
- **`Timeline`**: the overlap test, the bounded forward search for a free
  window when an item is dropped on a crowded lane (method `FindGap`), the
  per-identifier updates of the item list, colour cycling, zoom clamps,
  create-on-click, and the component's state (class `Timeline`).
- **`TimelineItemHelpers` and `ColorSchemes`**: the colour lookup and the
  three-entry palette.

The smaller modules are supporting definitions:

- `Calendar` has dates as integer day numbers. `DayOfMonth` is the
  proleptic Gregorian day of the month, with day 0 = 1970-01-01.
- `Pixels` has `Floor` and `Round`. `Round` is round-half-up, as
  `Math.round`.
- `Pixels` also has `DaysToPixels`, the product of a day count and the day
  width. It is defined by repeated addition and proved equal to the product.
- `Items` has the item record.
- `Wrappers` has `Option`.

Pixel quantities, the day width and the zoom are `real`.

Methods that the source writes as loops are Dafny loops proved against a
specification function:

- `TimelineAxis.MonthDividers` is proved equal to `MonthSegments`.
- `Timeline.FindGap` is proved equal to `GapWindow`, the least free shift.
- `TimelineItem.FindLane` is proved equal to `FirstLane`, the first lane
  under a vertical position.

Lemmas state the properties of those functions. The month dividers:

- tile the axis;
- sum to its width;
- open on every first of a month.

The shift a lane change commits is the least one in 1..30 days that clears
the lane, with the item's length kept.

Two behaviours of the code worth knowing:

- **Lane change.** A lane change never reassigns the item to a lane; it
  only shifts the item's dates (src/components/Timeline.jsx:105-134).
  Lanes are recomputed from the dates. The item's dates move forward only
  when it collides with the target lane's other items, and the dates of
  the drop are committed first.
- **Target lane of a drop.** The drop's target lane is the first lane
  that contains the vertical middle of the drag preview
  (src/components/TimelineItem.jsx:206-215), so `TimelineItem.Drop` takes
  that middle as its parameter.

## Model

| member | source | states |
|---|---|---|
| Pixels.Floor | src/components/Timeline.jsx:159 | the result is the greatest integer not above x |
| Pixels.Round | src/components/TimelineItem.jsx:106 | the result lies in (x - 1/2, x + 1/2], i.e. `Math.round` rounds halves up |
| Pixels.RoundUnique | src/components/TimelineItem.jsx:106 | any integer k with k - 1/2 <= x < k + 1/2 is the rounding of x |
| Pixels.DaysToPixelsIsProduct | src/components/TimelineItem.jsx:40-41 | the pixel length of a day count is the count times the day width |
| Pixels.DaysToPixelsMono | src/components/TimelineAxis.jsx:28 | with a non-negative day width, more days never give fewer pixels |
| Pixels.DaysToPixelsStrictMono | src/components/TimelineAxis.jsx:28 | with a positive day width, more days give strictly more pixels |
| Pixels.DaysToPixelsAdd | src/components/TimelineItem.jsx:40-41 | pixel lengths of day counts add up like the counts |
| Pixels.DaysToPixelsSign | src/components/TimelineItem.jsx:40-41 | with a positive day width the pixel length of a day count has the count's sign |
| Pixels.Quotient | src/components/TimelineItem.jsx:106 | the quotient times the day width gives back the offset |
| Calendar.DayOfMonthEpoch | src/components/TimelineAxis.jsx:42 | the calendar puts day 0 (1970-01-01) on the first of a month |
| Calendar.DayOfMonthLeapDay | src/components/TimelineAxis.jsx:42 | 2024-02-29 is day 29 of its month and 2024-03-01 a first |
| ColorSchemes.IndexOf | src/components/Timeline.jsx:57 | the first palette position with the given name, or -1 exactly when no entry has it |
| TimelineItemHelpers.GetColorProperties | src/utils/timelineItemHelpers.js:10-25 | "secondary" and "tertiary" give their background and border; every other name, including none, gives the primary pair |
| TimelineItemHelpers.ColorPropertiesMatchPalette | src/utils/timelineItemHelpers.js:10-25 | for each palette entry, the lookup returns that entry's background and border |
| TimelineItemHelpers.UnknownSchemeIsPrimary | src/utils/timelineItemHelpers.js:11-13 | a name outside the palette gets the primary entry's colours |
| TimelineHelpers.DayWidth | src/utils/timelineHelpers.js:14-30 | for a positive number of days the day width is at least 5 pixels |
| TimelineHelpers.DayWidthFromZoom | src/utils/timelineHelpers.js:18-29 | from zoom 0.5 up the day width is exactly 40 times the zoom |
| TimelineHelpers.DayWidthUnmeasured | src/utils/timelineHelpers.js:18-29 | before the container is measured the day width is max(40 times the zoom, 5) |
| TimelineHelpers.DayWidthFillsContainer | src/utils/timelineHelpers.js:21-27 | below zoom 0.5 with a measured container, the day width is max((width - 20) / days, 5), the same for every such zoom |
| TimelineHelpers.Dates | src/utils/timelineHelpers.js:39 | the flattened dates are exactly the starts and ends of the items, two per item |
| TimelineHelpers.ReduceMin | src/utils/timelineHelpers.js:40 | the fold yields a lower bound of all dates that is one of them or the seed |
| TimelineHelpers.ReduceMax | src/utils/timelineHelpers.js:41 | the fold yields an upper bound of all dates that is one of them or the seed |
| TimelineHelpers.GetTimelineDateRange | src/utils/timelineHelpers.js:38-47 | start and end are the least and greatest item dates widened by 5 days; totalDays is their difference, at least 10 |
| TimelineHelpers.ItemDateWithinRange | src/utils/timelineHelpers.js:39-45 | every item date lies in [startDate + 5, endDate - 5] |
| TimelineHelpers.SameStartDate | src/utils/timelineHelpers.js:40-44 | two lists with the same items in any order have the same start date |
| TimelineHelpers.SameEndDate | src/utils/timelineHelpers.js:41-45 | two lists with the same items in any order have the same end date |
| TimelineHelpers.DateRangeOrderIndependent | src/utils/timelineHelpers.js:38-47 | the date range does not depend on the order of the items |
| TimelineAxis.TickInterval | src/components/TimelineAxis.jsx:7-12 | the interval is between 1 and 30 days, is 1 exactly from 40 pixels per day, and from 3 pixels per day spans at least 40 pixels |
| TimelineAxis.TickIntervalBands | src/components/TimelineAxis.jsx:7-12 | the interval is 30, 21, 14, 7 or 3 days below 3, 5, 10, 20 or 40 pixels per day, and 1 day from 40 |
| TimelineAxis.TickIntervalAntitone | src/components/TimelineAxis.jsx:7-12 | a wider day never gets a longer tick interval |
| TimelineAxis.TickFormat | src/components/TimelineAxis.jsx:18-24 | the label format for each band of day widths: M below 3, MMM below 10, MMM d below 40, d below 60, the full date from 60 |
| TimelineAxis.TickCount | src/components/TimelineAxis.jsx:14 | the count is the ceiling of days over interval: no ticks for an empty axis, otherwise the last tick falls inside the axis and one more would not |
| TimelineAxis.DateTicks | src/components/TimelineAxis.jsx:15-31 | tick i is dated startDate + i times the interval, sits at that many days' pixels, and uses the tick format |
| TimelineAxis.TickWithinAxis | src/components/TimelineAxis.jsx:14-28 | an axis with any tick has a positive day count, its first tick is at 0 on the start date, and every tick lies in [0, axis width) |
| TimelineAxis.TicksOrderedWithinAxis | src/components/TimelineAxis.jsx:14-28 | the first tick is at 0 on the start date, and positions strictly increase and stay below the axis width |
| TimelineAxis.MonthFormat | src/components/TimelineAxis.jsx:45-48 | the month label is M below 3 pixels per day, MMMM yyyy from 20, MMM between |
| TimelineAxis.MonthDividers | src/components/TimelineAxis.jsx:33-74 | the loop yields exactly the dividers of `MonthSegments`: those closed by a first of a month, then the one the end of the axis closes |
| TimelineAxis.OpeningDaysCount | src/components/TimelineAxis.jsx:42 | there is one opening day for day 0 and one for each first of a month among days 1..n |
| TimelineAxis.OpeningDaysIncreasing | src/components/TimelineAxis.jsx:38-42 | opening days lie inside the axis and strictly increase |
| TimelineAxis.OpeningDaysAreFirsts | src/components/TimelineAxis.jsx:42 | every opening day after day 0 is a first of a month |
| TimelineAxis.OpeningDaysComplete | src/components/TimelineAxis.jsx:42 | every first of a month inside the axis is an opening day |
| TimelineAxis.ClosedDividersAreSegments | src/components/TimelineAxis.jsx:42-58 | the dividers pushed so far run from each opening day to the next, and the open divider starts on the last opening day |
| TimelineAxis.MonthSegmentsAreSegments | src/components/TimelineAxis.jsx:38-74 | the dividers run between consecutive opening days and then to the end of the axis |
| TimelineAxis.ContiguousWidthsSum | src/components/TimelineAxis.jsx:50-54 | the widths of touching dividers add up to the distance from the first start to the last end |
| TimelineAxis.MonthSegmentsTileAxis | src/components/TimelineAxis.jsx:42-73 | one divider plus one per first of a month; the first at 0 on the start date; each starts where the previous ends; the last ends at the axis width; widths sum to it and are never negative |
| TimelineAxis.LastSegmentEmptyOnFirst | src/components/TimelineAxis.jsx:62-73 | the last divider has zero width exactly when the axis ends on a first of a month |
| TimelineAxis.MonthSegmentAt | src/components/TimelineAxis.jsx:50-58 | divider i opens on opening day i, at its pixel position, in the month format |
| TimelineAxis.MonthSegmentsMarkMonths | src/components/TimelineAxis.jsx:42-58 | dividers open inside the axis in strictly increasing date order, at their day's pixel position, and each after the first on a first of a month |
| TimelineAxis.GregorianLeapDayDividers | src/components/TimelineAxis.jsx:38-73 | under the Gregorian calendar an axis from 2024-02-29 to 2024-03-01 has February's divider one day wide and March's opening on the last day with zero width |
| TimelineAxis.MonthSegmentsCoverFirsts | src/components/TimelineAxis.jsx:38-59 | every first of a month inside the axis opens a divider |
| TimelineAxis.ShowMonthLabels | src/components/TimelineAxis.jsx:77 | month labels are shown only when date ticks are, and always from the minimum day width of 5 pixels |
| TimelineAxis.ShowDateTicks | src/components/TimelineAxis.jsx:78 | date ticks are always shown from the minimum day width of 5 pixels |
| TimelineAxis.AxisAlwaysShown | src/components/TimelineAxis.jsx:77-78 | since the day width is at least 5, month labels and ticks are always shown |
| TimelineItem.GeometryIsProduct | src/components/TimelineItem.jsx:40-41 | left = (start - startDate) times the day width and width = (end - start + 1) times the day width |
| TimelineItem.LeftOffset | src/components/TimelineItem.jsx:40 | with a positive day width the bar's left edge is right of the axis start exactly when the item starts after the axis's first day, and on it exactly when it starts on that day |
| TimelineItem.Width | src/components/TimelineItem.jsx:41 | with a positive day width a bar has positive width exactly when start <= end; a one-day item is one day width wide |
| TimelineItem.BarInsideAxis | src/components/TimelineItem.jsx:40-41 | a bar whose dates lie strictly inside the axis is drawn strictly inside it |
| TimelineItem.ItemInsideTimeline | src/components/TimelineItem.jsx:40-41 | every item of the list is drawn strictly inside the axis of the list's date range |
| TimelineItem.SnapDay | src/components/TimelineItem.jsx:106 | the snapped day is the nearest whole number to offset / dayWidth, halves rounding up |
| TimelineItem.SnapDayOfBoundary | src/components/TimelineItem.jsx:106-107 | an offset on a day boundary snaps to that day |
| TimelineItem.SnapLeft | src/components/TimelineItem.jsx:105-107 | the preview's left edge is a whole multiple of the day width |
| TimelineItem.DropDates | src/components/TimelineItem.jsx:198-200 | the new start is startDate plus the snapped day of the shadow, and the item's length is kept |
| TimelineItem.DropMatchesPreview | src/components/TimelineItem.jsx:198-199 | a drop at the previewed left edge lands on the previewed day |
| TimelineItem.FirstLane | src/components/TimelineItem.jsx:109-116 | the lowest-index lane whose [top, bottom] contains y, and none exactly when no lane does |
| TimelineItem.FindLane | src/components/TimelineItem.jsx:109-116 | the loop finds the lowest-index lane whose [top, bottom] contains y, and none exactly when no lane does; its answer is `FirstLane` |
| TimelineItem.LaneChangeOf | src/components/TimelineItem.jsx:223-225 | a lane change is asked for exactly when a lane was hit and it is not the item's own, and it is to that lane |
| TimelineItem.Drop | src/components/TimelineItem.jsx:204-225 | a drop always proposes the dates of `DropDates`; it asks for a lane change exactly when the first lane under the shadow's middle exists and differs from the item's own, and then to that lane |
| TimelineItem.ResizeProposal | src/components/TimelineItem.jsx:262-284 | a left resize moves the start to the snapped day only if it stays before the end; a right resize moves the end only if it stays after the start; the other edge is kept, and start < end in every proposal |
| TimelineItem.ItemController.constructor | src/components/TimelineItem.jsx:25-33 | no resize, no drag and no preview at first |
| TimelineItem.ItemController.DragStart | src/components/TimelineItem.jsx:127-157 | a drag starts exactly when the item is not edited or resized and the cursor is off the resize handles; then the offset is recorded and a preview appears |
| TimelineItem.ItemController.MoveShadow | src/components/TimelineItem.jsx:97-124 | during a drag the preview's left edge is the cursor less the recorded drag offset, snapped to a day, and its lane is the first lane under the cursor, or its old lane when there is none; without a drag nothing moves |
| TimelineItem.ItemController.DragEnd | src/components/TimelineItem.jsx:186-231 | ending a drag with a preview yields the drop's dates and the lane change `LaneChangeOf` the first lane under the preview's middle; it removes the preview and ends the drag |
| TimelineItem.ItemController.ResizeStart | src/components/TimelineItem.jsx:234-243 | a resize starts exactly when the item is neither edited nor dragged |
| TimelineItem.ItemController.ResizeEnd | src/components/TimelineItem.jsx:246-248 | the resize ends and nothing else changes |
| Timeline.InitialItems | src/components/Timeline.jsx:12-15 | items keep their own scheme; one without gets the palette entry of its position modulo 3; afterwards every item has a scheme |
| Timeline.ZoomedIn | src/components/Timeline.jsx:50 | zoom grows by 0.2 and never above 3 |
| Timeline.ZoomedOut | src/components/Timeline.jsx:51 | zoom shrinks by 0.2 and never below 0.125 |
| Timeline.ZoomStaysInRange | src/components/Timeline.jsx:50-51 | any sequence of zoom presses keeps a zoom in [0.125, 3] there |
| Timeline.WithDates | src/components/Timeline.jsx:74-78 | the list keeps its length and order; items with the id get the new dates and keep everything else; other items are unchanged |
| Timeline.WithName | src/components/Timeline.jsx:66-69 | the list keeps its length and order; items with the id get the new name only; other items are unchanged |
| Timeline.NextScheme | src/components/Timeline.jsx:57-59 | primary goes to secondary, secondary to tertiary, tertiary to primary, and an unknown scheme to primary |
| Timeline.NextSchemeCycles | src/components/Timeline.jsx:57-59 | each palette entry goes to the next one, and three changes bring a scheme back |
| Timeline.WithNextColor | src/components/Timeline.jsx:53-64 | the list keeps its length and order; items with the id move to the next scheme, which is in the palette; other items are unchanged |
| Timeline.Overlaps | src/components/Timeline.jsx:99-102 | the two disjuncts together are the inclusive test start <= otherEnd and otherStart <= end |
| Timeline.OverlapsSymmetric | src/components/Timeline.jsx:99-102 | the overlap test gives the same answer with the two ranges swapped |
| Timeline.AnyOverlap | src/components/Timeline.jsx:93-103 | true exactly when some item of the lane with another id overlaps the range |
| Timeline.LeastGap | src/components/Timeline.jsx:106-134 | the least shift from the given one up to 30 that clears the lane, with every smaller shift colliding; none exactly when all collide |
| Timeline.FindGap | src/components/Timeline.jsx:106-134 | the loop returns the item's window after the least clearing shift in 1..30, and none when every shift collides |
| Timeline.FirstWithId | src/components/Timeline.jsx:82-83 | the first position holding the id, and none exactly when no item has it |
| Timeline.TargetLane | src/components/Timeline.jsx:85 | an existing lane is looked up; an index outside the lanes gives an empty lane |
| Timeline.LaneMove | src/components/Timeline.jsx:81-140 | dates are committed only for an item in the list, and they are that item moved 1 to 30 days later with its length kept |
| Timeline.LaneMoveUnknownItem | src/components/Timeline.jsx:82-83 | a lane change for an id not in the list commits nothing |
| Timeline.LaneMoveNoCollision | src/components/Timeline.jsx:93-105 | a lane change commits nothing when no other item of the target lane overlaps the item |
| Timeline.MissingLaneNeverCollides | src/components/Timeline.jsx:85 | a lane index that does not exist never collides, so the lane change is a no-op |
| Timeline.LaneMoveShiftsLeast | src/components/Timeline.jsx:106-133 | committed dates are the item shifted by the least k in 1..30 that clears the lane, with its length kept; the item did collide where it was |
| Timeline.LaneMoveFindsGap | src/components/Timeline.jsx:106-133 | an item in the list that collides in the target lane, and that some shift of 1 to 30 days clears, is moved |
| Timeline.LaneMoveGivesUp | src/components/Timeline.jsx:136-138 | when every shift of up to 30 days collides, nothing is committed |
| Timeline.NewItem | src/components/Timeline.jsx:157-172 | the new item starts floor(offsetX / dayWidth) days after the axis start, ends 7 days later, is named "New Event", has the fresh id and the palette entry of the list length modulo 3 |
| Timeline.Timeline.DayWidth | src/components/Timeline.jsx:46-48 | the day width of the current zoom, container and date range is at least 5 |
| Timeline.Timeline.constructor | src/components/Timeline.jsx:12-24 | the list gets its initial colours; zoom 1; nothing edited, dragged, resized or clicked; container unmeasured |
| Timeline.Timeline.MeasureContainer | src/components/Timeline.jsx:30-32 | only the container width changes |
| Timeline.Timeline.ZoomIn | src/components/Timeline.jsx:50 | only the zoom changes, to `ZoomedIn`, and it stays in [0.125, 3] |
| Timeline.Timeline.ZoomOut | src/components/Timeline.jsx:51 | only the zoom changes, to `ZoomedOut`, and it stays in [0.125, 3] |
| Timeline.Timeline.ColorChange | src/components/Timeline.jsx:53-64 | only the list changes, to `WithNextColor` |
| Timeline.Timeline.NameChange | src/components/Timeline.jsx:66-71 | the list becomes `WithName` and editing ends; nothing else changes |
| Timeline.Timeline.ItemUpdate | src/components/Timeline.jsx:74-78 | only the list changes, to `WithDates` |
| Timeline.Timeline.LaneChange | src/components/Timeline.jsx:81-140 | the current list receives the dates `LaneMove` computes from the handler's snapshot, and is left alone when there are none; nothing else changes |
| Timeline.Timeline.MouseDown | src/components/Timeline.jsx:143-147 | a press on the background marks a click as started; nothing else changes |
| Timeline.Timeline.Click | src/components/Timeline.jsx:150-179 | a click that is on the background, started there, and comes during no resize or drag appends exactly one `NewItem` and edits it; any other click changes neither; every click clears the started flag |
| Timeline.Timeline.ResizeStart | src/components/Timeline.jsx:181-185 | a resize is under way in the given direction and a pending click is cancelled |
| Timeline.Timeline.ResizeEnd | src/components/Timeline.jsx:187-189 | the resize flag is cleared and nothing else changes |
| Timeline.Timeline.DragStart | src/components/Timeline.jsx:225 | the drag flag is set and nothing else changes |
| Timeline.Timeline.DragEnd | src/components/Timeline.jsx:226 | the drag flag is cleared and nothing else changes |
| Timeline.Timeline.StartEdit | src/components/Timeline.jsx:223 | the item becomes the one being edited and nothing else changes |

## Left out

- **Lane assignment.** `src/assignLanes.js` is not part of this model. In the lane change (`Timeline.LaneMove`), lanes enter as a sequence of item sequences. In the drag preview and the drop, they enter as a sequence of lane rectangles (`LaneRect`).
- **Throttling.** The throttle on resize moves (`src/utils/functions.js`) is timer-based rate limiting. Each resize move is modelled as one call of `ResizeProposal`.
- **DOM and browser plumbing.**
  - Not modelled: creating and removing the drag shadow element, event-listener registration, focus effects, and the window-resize listener.
  - Their results are parameters: lane rectangles, cursor coordinates, the shadow's left edge and middle, and the container width.
- **Dates and formats.** date-fns parsing and formatting of `yyyy-MM-dd` strings and of labels are not modelled. Dates are day numbers and labels are a `Format` enumeration.
  - `date.getDate()` in the month-divider loop is the parameter `dayOfMonth`; `Calendar.DayOfMonth` is the Gregorian instance, used by `TimelineAxis.GregorianLeapDayDividers`.
  - The contiguity and sum properties hold for any calendar.
- **Rounding and number range.** IEEE-754 rounding of pixels and of the 0.2 zoom steps is not modelled. Arithmetic is exact over the reals and integers.
- **Fresh id.** The `Date.now()` identifier of a new item is the parameter `freshId`.
- **React scheduling.** Asynchronous batching of state updates is not modelled: each handler is one atomic step.
  - What a handler reads from its render is passed explicitly. `Timeline.Timeline.LaneChange` takes the list snapshot and lanes that its render saw, and writes into the current list.
  - The bar's move handler reads `dragOffset` from the render that registered it, which can be older than the value just set. `MoveShadow` reads the current `dragOffset` field.
- **Name editing.** The local text state of the name editor is not modelled. The submitted name is the parameter of `NameChange`.
- **Empty item list.** `Timeline.Timeline.constructor` and `TimelineHelpers.GetTimelineDateRange` require a non-empty item list. The source seeds its minimum and maximum with the first date and has no meaningful range for an empty list.
- **Zero days.** `TimelineHelpers.DayWidth` requires a positive number of days, where the source would divide by zero. The only caller passes at least 10.
- **Drag start.** `TimelineItem.ItemController.DragStart` places the new preview over the bar itself. The source's immediate first move is a separate call of `MoveShadow`.
- TimelineItem.SnapDay: states that the snapped day is the nearest whole number to offset / dayWidth, but not the equivalent bound in pixels ("within half a day width of the cursor"), which needs nonlinear real arithmetic.
