/**
 * One item bar on the timeline: where it is drawn, how a drag snaps to
 * whole days and lands in a lane, how a resize handle proposes new dates,
 * and which gestures may start while another is under way.
 */
module TimelineItem {
  import opened Wrappers
  import opened Calendar
  import opened Pixels
  import opened Items
  import TimelineHelpers

  /**
   * Distance of the item's left edge from the start of the axis: with a
   * positive day width it lies right of the axis start exactly when the item
   * starts after the axis's first day, and on it exactly when it starts on it.
   */
  function LeftOffset(startDate: Date, item: Item, dayWidth: real): (left: real)
    ensures dayWidth > 0.0 ==> (left > 0.0 <==> startDate < item.start)
    ensures dayWidth > 0.0 ==> (left == 0.0 <==> startDate == item.start)
  {
    DaysToPixelsSign(item.start - startDate, dayWidth);
    DaysToPixels(item.start - startDate, dayWidth)
  }

  /**
   * Width of the bar: its end date is drawn, so it covers one day more than
   * the difference; with a positive day width it is positive exactly when
   * the item does not end before it starts, and one day wide for a one-day item.
   */
  function Width(item: Item, dayWidth: real): (width: real)
    ensures dayWidth > 0.0 ==> (width > 0.0 <==> item.start <= item.end)
    ensures item.start == item.end ==> width == dayWidth
  {
    DaysToPixelsSign(item.end - item.start + 1, dayWidth);
    DaysToPixels(item.end - item.start + 1, dayWidth)
  }

  /** The bar's offset and width are the day counts scaled by the day width. */
  lemma GeometryIsProduct(startDate: Date, item: Item, dayWidth: real)
    ensures LeftOffset(startDate, item, dayWidth) == (item.start - startDate) as real * dayWidth
    ensures Width(item, dayWidth) == (item.end - item.start + 1) as real * dayWidth
  {
    DaysToPixelsIsProduct(item.start - startDate, dayWidth);
    DaysToPixelsIsProduct(item.end - item.start + 1, dayWidth);
  }

  /** A bar whose dates lie inside an axis, away from both of its ends, is drawn strictly inside it. */
  lemma BarInsideAxis(startDate: Date, totalDays: int, item: Item, dayWidth: real)
    requires dayWidth > 0.0 && startDate < item.start && item.end + 1 < startDate + totalDays
    ensures 0.0 < LeftOffset(startDate, item, dayWidth)
    ensures LeftOffset(startDate, item, dayWidth) + Width(item, dayWidth) < DaysToPixels(totalDays, dayWidth)
  {
    DaysToPixelsStrictMono(0, item.start - startDate, dayWidth);
    DaysToPixelsAdd(item.start - startDate, item.end - item.start + 1, dayWidth);
    DaysToPixelsStrictMono(item.end - startDate + 1, totalDays, dayWidth);
  }

  /** Every bar is drawn strictly inside the axis of the items' date range, clear of both paddings. */
  lemma ItemInsideTimeline(items: seq<Item>, i: int, dayWidth: real)
    requires 0 <= i < |items| && dayWidth > 0.0
    ensures var range := TimelineHelpers.GetTimelineDateRange(items);
      0.0 < LeftOffset(range.startDate, items[i], dayWidth) &&
      LeftOffset(range.startDate, items[i], dayWidth) + Width(items[i], dayWidth) < DaysToPixels(range.totalDays, dayWidth)
  {
    var range := TimelineHelpers.GetTimelineDateRange(items);
    BarInsideAxis(range.startDate, range.totalDays, items[i], dayWidth);
  }

  /** The whole number of days nearest to `offset` pixels (`Math.round(offset / dayWidth)`). */
  function SnapDay(offset: real, dayWidth: real): (d: int)
    requires dayWidth > 0.0
    ensures Quotient(offset, dayWidth) - 0.5 < d as real <= Quotient(offset, dayWidth) + 0.5
  {
    Round(Quotient(offset, dayWidth))
  }

  /** An offset that lies on a day boundary snaps to that day. */
  lemma SnapDayOfBoundary(k: int, dayWidth: real)
    requires dayWidth > 0.0
    ensures SnapDay(DaysToPixels(k, dayWidth), dayWidth) == k
  {
    var b := DaysToPixels(k, dayWidth);
    DaysToPixelsIsProduct(k, dayWidth);
    assert b == k as real * dayWidth;
    var x := Quotient(b, dayWidth);
    assert x * dayWidth == b;
    MulCancel(x, k as real, dayWidth);
    RoundUnique(x, k);
  }

  /** Where the drag preview is drawn: the cursor's offset snapped to the nearest day boundary. */
  function SnapLeft(newLeft: real, dayWidth: real): (left: real)
    requires dayWidth > 0.0
    ensures left == SnapDay(newLeft, dayWidth) as real * dayWidth
  {
    DaysToPixelsIsProduct(SnapDay(newLeft, dayWidth), dayWidth);
    DaysToPixels(SnapDay(newLeft, dayWidth), dayWidth)
  }

  /** A pair of inclusive dates proposed for an item. */
  datatype Span = Span(start: Date, end: Date)

  /** The dates a drop proposes: the start on the day under the shadow, the item's length kept. */
  function DropDates(startDate: Date, shadowLeft: real, dayWidth: real, item: Item): (s: Span)
    requires dayWidth > 0.0
    ensures s.end - s.start == item.end - item.start
    ensures s.start - startDate == SnapDay(shadowLeft, dayWidth)
  {
    var newStart := startDate + SnapDay(shadowLeft, dayWidth);
    Span(newStart, newStart + (item.end - item.start))
  }

  /** A drop lands on the day the preview showed, whatever the cursor's position within that day. */
  lemma DropMatchesPreview(startDate: Date, newLeft: real, dayWidth: real, item: Item)
    requires dayWidth > 0.0
    ensures DropDates(startDate, SnapLeft(newLeft, dayWidth), dayWidth, item).start == startDate + SnapDay(newLeft, dayWidth)
  {
    SnapDayOfBoundary(SnapDay(newLeft, dayWidth), dayWidth);
  }

  /** The vertical extent of a lane on screen. */
  datatype LaneRect = LaneRect(top: real, bottom: real)

  predicate Contains(lane: LaneRect, y: real) {
    lane.top <= y <= lane.bottom
  }

  /** The lowest-index lane whose extent contains `y`, or none. */
  function FirstLane(lanes: seq<LaneRect>, y: real): (lane: Option<nat>)
    ensures lane.Some? ==> lane.value < |lanes| && Contains(lanes[lane.value], y)
    ensures lane.Some? ==> forall i :: 0 <= i < lane.value ==> !Contains(lanes[i], y)
    ensures lane.None? <==> forall i :: 0 <= i < |lanes| ==> !Contains(lanes[i], y)
  {
    if lanes == [] then None
    else if Contains(lanes[0], y) then Some(0)
    else
      match FirstLane(lanes[1..], y)
      case None => None
      case Some(j) => Some(j + 1)
  }

  /** The lane hit test: the lowest-index lane whose extent contains `y`, or none. */
  method FindLane(lanes: seq<LaneRect>, y: real) returns (lane: Option<nat>)
    ensures lane.Some? ==> lane.value < |lanes| && Contains(lanes[lane.value], y)
    ensures lane.Some? ==> forall i :: 0 <= i < lane.value ==> !Contains(lanes[i], y)
    ensures lane.None? <==> forall i :: 0 <= i < |lanes| ==> !Contains(lanes[i], y)
    ensures lane == FirstLane(lanes, y)
  {
    lane := None;
    for i := 0 to |lanes|
      invariant lane.None?
      invariant forall j :: 0 <= j < i ==> !Contains(lanes[j], y)
    {
      if Contains(lanes[i], y) {
        lane := Some(i);
        break;
      }
    }
  }

  /** The lane change a drop asks for: to the lane hit, when there is one and it is not the item's own. */
  function LaneChangeOf(hit: Option<nat>, laneIndex: nat): (change: Option<nat>)
    ensures change.Some? <==> hit.Some? && hit.value != laneIndex
    ensures change.Some? ==> change == hit
  {
    var targetLane := hit.GetOr(laneIndex);
    if targetLane != laneIndex then Some(targetLane) else None
  }

  /**
   * What a drop asks of the timeline: always the new dates, and a lane
   * change only when the shadow's middle is over a lane other than the
   * item's own. A shadow over no lane keeps the item's lane.
   */
  method Drop(startDate: Date, dayWidth: real, item: Item, laneIndex: nat,
              shadowLeft: real, shadowMiddleY: real, lanes: seq<LaneRect>)
    returns (update: Span, laneChange: Option<nat>)
    requires dayWidth > 0.0
    ensures update == DropDates(startDate, shadowLeft, dayWidth, item)
    ensures update.end - update.start == item.end - item.start
    ensures laneChange.Some? ==>
      laneChange.value != laneIndex && laneChange.value < |lanes| &&
      Contains(lanes[laneChange.value], shadowMiddleY) &&
      forall i :: 0 <= i < laneChange.value ==> !Contains(lanes[i], shadowMiddleY)
    ensures laneChange.None? <==>
      forall i :: 0 <= i < |lanes| && Contains(lanes[i], shadowMiddleY) ==>
        i == laneIndex || exists j :: 0 <= j < i && Contains(lanes[j], shadowMiddleY)
    ensures laneChange == LaneChangeOf(FirstLane(lanes, shadowMiddleY), laneIndex)
  {
    update := DropDates(startDate, shadowLeft, dayWidth, item);
    var hit := FindLane(lanes, shadowMiddleY);
    laneChange := LaneChangeOf(hit, laneIndex);
  }

  /**
   * The dates a resize handle proposes for the cursor at `mouseX`: the
   * dragged edge moves to the nearest day and the other edge stays. The
   * proposal is made only while the item keeps a start strictly before its
   * end.
   */
  function ResizeProposal(direction: Direction, mouseX: real, dayWidth: real, startDate: Date, item: Item): (r: Option<Span>)
    requires dayWidth > 0.0
    ensures r.Some? ==> r.value.start < r.value.end
    ensures direction == Left ==>
      (r.Some? <==> startDate + SnapDay(mouseX, dayWidth) < item.end) &&
      (r.Some? ==> r.value == Span(startDate + SnapDay(mouseX, dayWidth), item.end))
    ensures direction == Right ==>
      (r.Some? <==> startDate + SnapDay(mouseX, dayWidth) > item.start) &&
      (r.Some? ==> r.value == Span(item.start, startDate + SnapDay(mouseX, dayWidth)))
  {
    var newDate := startDate + SnapDay(mouseX, dayWidth);
    match direction
    case Left => if newDate < item.end then Some(Span(newDate, item.end)) else None
    case Right => if newDate > item.start then Some(Span(item.start, newDate)) else None
  }

  /** The drag preview: its left edge and the lane it was last drawn over. */
  datatype Shadow = Shadow(left: real, lane: nat)

  /** The gesture state one item bar keeps between cursor events. */
  class ItemController {
    var isResizing: bool
    var resizeDirection: Option<Direction>
    var dragOffset: real
    /** Whether a drag is under way (the bar's own flag, read synchronously by its handlers). */
    var isDragging: bool
    /** The drag preview, while there is one. */
    var shadow: Option<Shadow>

    /** A preview exists only during a drag, and a drag and a resize never run together. */
    predicate Valid()
      reads this
    {
      (shadow.Some? ==> isDragging) && !(isDragging && isResizing)
    }

    constructor()
      ensures Valid()
      ensures !isResizing && resizeDirection == None && dragOffset == 0.0 && !isDragging && shadow == None
    {
      isResizing := false;
      resizeDirection := None;
      dragOffset := 0.0;
      isDragging := false;
      shadow := None;
    }

    /**
     * Mouse down on the bar. Nothing happens while the item is being
     * edited or resized, or when the cursor is on a resize handle;
     * otherwise a drag starts with a preview over the bar's own place.
     */
    method DragStart(isEditing: bool, onResizeHandle: bool, cursorOffset: real, barLeft: real, laneIndex: nat)
      returns (started: bool)
      requires Valid()
      modifies this
      ensures Valid()
      ensures started <==> !isEditing && !old(isResizing) && !onResizeHandle
      ensures started ==> isDragging && dragOffset == cursorOffset && shadow == Some(Shadow(barLeft, laneIndex))
      ensures started ==> isResizing == old(isResizing) && resizeDirection == old(resizeDirection)
      ensures !started ==> unchanged(this)
    {
      if isEditing || isResizing || onResizeHandle {
        return false;
      }
      dragOffset := cursorOffset;
      isDragging := true;
      shadow := Some(Shadow(barLeft, laneIndex));
      started := true;
    }

    /**
     * Mouse move during a drag at `cursorX` (from the timeline's left edge):
     * the preview's left edge is the cursor less the recorded offset,
     * snapped to the nearest day, and the preview moves to the first lane
     * under the cursor, staying in its lane when there is none.
     */
    method MoveShadow(cursorX: real, dayWidth: real, cursorY: real, lanes: seq<LaneRect>)
      requires Valid() && dayWidth > 0.0
      modifies this
      ensures Valid()
      ensures isResizing == old(isResizing) && resizeDirection == old(resizeDirection)
      ensures isDragging == old(isDragging) && dragOffset == old(dragOffset)
      ensures old(isDragging) && old(shadow).Some? ==>
        shadow.Some? && shadow.value.left == SnapLeft(cursorX - old(dragOffset), dayWidth) &&
        shadow.value.lane == FirstLane(lanes, cursorY).GetOr(old(shadow).value.lane)
      ensures !(old(isDragging) && old(shadow).Some?) ==> shadow == old(shadow)
    {
      if isDragging && shadow.Some? {
        var newLeft := cursorX - dragOffset;
        var newLane := FindLane(lanes, cursorY);
        shadow := Some(Shadow(SnapLeft(newLeft, dayWidth), newLane.GetOr(shadow.value.lane)));
      }
    }

    /**
     * Mouse up ending a drag: when a preview exists it yields the
     * proposal of `Drop`; the preview is then removed and the drag ends.
     * Without a drag under way nothing happens.
     */
    method DragEnd(startDate: Date, dayWidth: real, item: Item, laneIndex: nat, shadowMiddleY: real, lanes: seq<LaneRect>)
      returns (update: Option<Span>, laneChange: Option<nat>)
      requires Valid() && dayWidth > 0.0
      modifies this
      ensures Valid()
      ensures !old(isDragging) ==> update == None && laneChange == None && unchanged(this)
      ensures old(isDragging) ==> !isDragging && shadow == None
      ensures old(isDragging) && old(shadow).Some? ==>
        update == Some(DropDates(startDate, old(shadow).value.left, dayWidth, item)) &&
        laneChange == LaneChangeOf(FirstLane(lanes, shadowMiddleY), laneIndex)
      ensures old(shadow).None? ==> update == None && laneChange == None
      ensures laneChange.Some? ==> laneChange.value != laneIndex
      ensures isResizing == old(isResizing) && resizeDirection == old(resizeDirection) && dragOffset == old(dragOffset)
    {
      update, laneChange := None, None;
      if !isDragging {
        return;
      }
      if shadow.Some? {
        var dates, lane := Drop(startDate, dayWidth, item, laneIndex, shadow.value.left, shadowMiddleY, lanes);
        update, laneChange := Some(dates), lane;
      }
      shadow := None;
      isDragging := false;
    }

    /** Mouse down on a resize handle: refused while the item is edited or dragged. */
    method ResizeStart(isEditing: bool, direction: Direction) returns (started: bool)
      requires Valid()
      modifies this
      ensures Valid()
      ensures started <==> !isEditing && !old(isDragging)
      ensures started ==> isResizing && resizeDirection == Some(direction)
      ensures started ==> isDragging == old(isDragging) && shadow == old(shadow) && dragOffset == old(dragOffset)
      ensures !started ==> unchanged(this)
    {
      if isEditing || isDragging {
        return false;
      }
      isResizing := true;
      resizeDirection := Some(direction);
      started := true;
    }

    /** Mouse up ending a resize. */
    method ResizeEnd()
      requires Valid()
      modifies this
      ensures Valid()
      ensures !isResizing
      ensures resizeDirection == old(resizeDirection) && isDragging == old(isDragging)
      ensures shadow == old(shadow) && dragOffset == old(dragOffset)
    {
      isResizing := false;
    }
  }
}
