/**
 * The timeline component: the list of items and the handlers that change
 * it (per-item updates, colour cycling, moving an item to another lane,
 * creating an item by clicking the background), the zoom, and the flags
 * that keep gestures apart.
 */
module Timeline {
  import opened Wrappers
  import opened Calendar
  import opened Pixels
  import opened Items
  import opened ColorSchemes
  import TimelineHelpers
  import opened TimelineItem

  /**
   * The initial list: an item without a colour scheme gets the palette
   * entry of its position, cycling through the palette.
   */
  function InitialItems(items: seq<Item>): (r: seq<Item>)
    ensures |r| == |items|
    ensures forall i :: 0 <= i < |items| ==>
      r[i].id == items[i].id && r[i].start == items[i].start && r[i].end == items[i].end && r[i].name == items[i].name
    ensures forall i :: 0 <= i < |items| && items[i].colorScheme != "" ==> r[i].colorScheme == items[i].colorScheme
    ensures forall i :: 0 <= i < |items| && items[i].colorScheme == "" ==> r[i].colorScheme == Palette[i % |Palette|].name
    ensures forall i :: 0 <= i < |r| ==> r[i].colorScheme != ""
  {
    seq(|items|, i requires 0 <= i < |items| =>
      items[i].(colorScheme := if items[i].colorScheme != "" then items[i].colorScheme else Palette[i % |Palette|].name))
  }

  /** The zoom starts at 1 and moves in steps of 0.2, at most to 3 and at least to 0.125. */
  const InitialZoom: real := 1.0
  const MaxZoom: real := 3.0
  const MinZoom: real := 0.125
  const ZoomStep: real := 0.2

  function ZoomedIn(zoom: real): (z: real)
    ensures z <= MaxZoom
    ensures z == zoom + ZoomStep || z == MaxZoom
    ensures zoom <= MaxZoom - ZoomStep ==> z == zoom + ZoomStep
  {
    if zoom + ZoomStep < MaxZoom then zoom + ZoomStep else MaxZoom
  }

  function ZoomedOut(zoom: real): (z: real)
    ensures z >= MinZoom
    ensures z == zoom - ZoomStep || z == MinZoom
    ensures zoom >= MinZoom + ZoomStep ==> z == zoom - ZoomStep
  {
    if zoom - ZoomStep > MinZoom then zoom - ZoomStep else MinZoom
  }

  datatype ZoomButton = ZoomInButton | ZoomOutButton

  /** The zoom after pressing the buttons in order. */
  function ApplyZooms(zoom: real, presses: seq<ZoomButton>): real
    decreases |presses|
  {
    if presses == [] then zoom
    else
      var next := if presses[0] == ZoomInButton then ZoomedIn(zoom) else ZoomedOut(zoom);
      ApplyZooms(next, presses[1..])
  }

  /** Whatever the buttons pressed, a zoom in range stays in range. */
  lemma {:induction false} ZoomStaysInRange(zoom: real, presses: seq<ZoomButton>)
    requires MinZoom <= zoom <= MaxZoom
    ensures MinZoom <= ApplyZooms(zoom, presses) <= MaxZoom
    decreases |presses|
  {
    if presses != [] {
      var next := if presses[0] == ZoomInButton then ZoomedIn(zoom) else ZoomedOut(zoom);
      ZoomStaysInRange(next, presses[1..]);
    }
  }

  /** The list with every item of identifier `id` given new dates. */
  function WithDates(items: seq<Item>, id: int, start: Date, end: Date): (r: seq<Item>)
    ensures |r| == |items|
    ensures forall i :: 0 <= i < |items| && items[i].id != id ==> r[i] == items[i]
    ensures forall i :: 0 <= i < |items| && items[i].id == id ==>
      r[i].start == start && r[i].end == end &&
      r[i].id == id && r[i].name == items[i].name && r[i].colorScheme == items[i].colorScheme
  {
    seq(|items|, i requires 0 <= i < |items| =>
      if items[i].id == id then items[i].(start := start, end := end) else items[i])
  }

  /** The list with every item of identifier `id` renamed. */
  function WithName(items: seq<Item>, id: int, name: string): (r: seq<Item>)
    ensures |r| == |items|
    ensures forall i :: 0 <= i < |items| && items[i].id != id ==> r[i] == items[i]
    ensures forall i :: 0 <= i < |items| && items[i].id == id ==>
      r[i].name == name &&
      r[i].id == id && r[i].start == items[i].start && r[i].end == items[i].end && r[i].colorScheme == items[i].colorScheme
  {
    seq(|items|, i requires 0 <= i < |items| =>
      if items[i].id == id then items[i].(name := name) else items[i])
  }

  /** The palette entry after `name`, wrapping round; a name not in the palette goes to the first entry. */
  function NextScheme(name: string): (next: string)
    ensures name == "primary" ==> next == "secondary"
    ensures name == "secondary" ==> next == "tertiary"
    ensures name == "tertiary" ==> next == "primary"
    ensures IndexOf(name) == -1 ==> next == "primary"
  {
    Palette[(IndexOf(name) + 1) % |Palette|].name
  }

  /** Three colour changes bring a palette scheme back to itself. */
  lemma NextSchemeCycles(i: nat)
    requires i < |Palette|
    ensures NextScheme(NextScheme(NextScheme(Palette[i].name))) == Palette[i].name
    ensures NextScheme(Palette[i].name) == Palette[(i + 1) % |Palette|].name
  {
  }

  /** The list with every item of identifier `id` moved on to the next colour scheme. */
  function WithNextColor(items: seq<Item>, id: int): (r: seq<Item>)
    ensures |r| == |items|
    ensures forall i :: 0 <= i < |items| && items[i].id != id ==> r[i] == items[i]
    ensures forall i :: 0 <= i < |items| && items[i].id == id ==>
      r[i].colorScheme == NextScheme(items[i].colorScheme) && IndexOf(r[i].colorScheme) >= 0 &&
      r[i].id == id && r[i].start == items[i].start && r[i].end == items[i].end && r[i].name == items[i].name
  {
    seq(|items|, i requires 0 <= i < |items| =>
      if items[i].id == id then items[i].(colorScheme := NextScheme(items[i].colorScheme)) else items[i])
  }

  /**
   * Whether the inclusive date ranges `[start, end]` and `[otherStart,
   * otherEnd]` share a day, written as the two tests the component makes.
   */
  function Overlaps(start: Date, end: Date, otherStart: Date, otherEnd: Date): (b: bool)
    ensures b <==> start <= otherEnd && otherStart <= end
  {
    (start <= otherEnd && end >= otherStart) || (otherStart <= end && otherEnd >= start)
  }

  /** The overlap test does not depend on which range is the moved one. */
  lemma OverlapsSymmetric(start: Date, end: Date, otherStart: Date, otherEnd: Date)
    ensures Overlaps(start, end, otherStart, otherEnd) == Overlaps(otherStart, otherEnd, start, end)
  {
  }

  /** Whether some item of `lane` other than `id` itself overlaps `[start, end]` (`lane.some(...)`). */
  function AnyOverlap(lane: seq<Item>, id: int, start: Date, end: Date): (b: bool)
    ensures b <==> exists j :: 0 <= j < |lane| && lane[j].id != id && Overlaps(start, end, lane[j].start, lane[j].end)
  {
    if lane == [] then false
    else
      var rest := AnyOverlap(lane[1..], id, start, end);
      assert forall j :: 1 <= j < |lane| ==> lane[j] == lane[1..][j - 1];
      (lane[0].id != id && Overlaps(start, end, lane[0].start, lane[0].end)) || rest
  }

  /** The most days a lane change moves an item forward looking for room. */
  const MaxProbes: nat := 30

  /** Whether the item, moved `k` days forward with its length kept, still collides in `lane`. */
  predicate Blocked(lane: seq<Item>, id: int, start: Date, duration: int, k: int) {
    AnyOverlap(lane, id, start + k, start + k + duration)
  }

  /** The least shift `k` in `from`..`MaxProbes` that leaves the item free of collisions, if any. */
  function LeastGap(lane: seq<Item>, id: int, start: Date, duration: int, from: nat): (r: Option<int>)
    ensures r.Some? ==> from <= r.value <= MaxProbes && !Blocked(lane, id, start, duration, r.value)
    ensures r.Some? ==> forall k :: from <= k < r.value ==> Blocked(lane, id, start, duration, k)
    ensures r.None? <==> forall k :: from <= k <= MaxProbes ==> Blocked(lane, id, start, duration, k)
    decreases MaxProbes + 1 - from
  {
    if from > MaxProbes then None
    else if !Blocked(lane, id, start, duration, from) then Some(from)
    else LeastGap(lane, id, start, duration, from + 1)
  }

  /** The item's dates after the least shift that clears `lane`, if there is one. */
  function GapWindow(lane: seq<Item>, id: int, start: Date, duration: int): Option<Span> {
    match LeastGap(lane, id, start, duration, 1)
    case None => None
    case Some(k) => Some(Span(start + k, start + k + duration))
  }

  /**
   * The search loop of a lane change: try the item 1, 2, ... 30 days later
   * with its length kept, and take the first window that collides with no
   * other item of the lane.
   */
  method FindGap(lane: seq<Item>, id: int, itemStart: Date, itemDuration: int) returns (found: Option<Span>)
    ensures found == GapWindow(lane, id, itemStart, itemDuration)
  {
    found := None;
    var testStart := itemStart;
    for i := 0 to MaxProbes
      invariant testStart == itemStart + i
      invariant found.None?
      invariant LeastGap(lane, id, itemStart, itemDuration, 1) == LeastGap(lane, id, itemStart, itemDuration, i + 1)
    {
      testStart := testStart + 1;
      var testEnd := testStart + itemDuration;
      var hasOverlapAtPosition := AnyOverlap(lane, id, testStart, testEnd);
      if !hasOverlapAtPosition {
        found := Some(Span(testStart, testEnd));
        break;
      }
    }
  }

  /** Position of the first item with identifier `id` (`find`). */
  function FirstWithId(items: seq<Item>, id: int): (r: Option<nat>)
    ensures r.Some? ==> r.value < |items| && items[r.value].id == id
    ensures r.Some? ==> forall j :: 0 <= j < r.value ==> items[j].id != id
    ensures r.None? <==> forall j :: 0 <= j < |items| ==> items[j].id != id
  {
    if items == [] then None
    else if items[0].id == id then Some(0)
    else
      match FirstWithId(items[1..], id)
      case None => None
      case Some(j) => Some(j + 1)
  }

  /** The items of lane `laneIndex`; a lane that does not exist is empty (`lanes[i] || []`). */
  function TargetLane(lanes: seq<seq<Item>>, laneIndex: int): (lane: seq<Item>)
    ensures 0 <= laneIndex < |lanes| ==> lane == lanes[laneIndex]
    ensures !(0 <= laneIndex < |lanes|) ==> lane == []
  {
    if 0 <= laneIndex < |lanes| then lanes[laneIndex] else []
  }

  /** Days from an item's start to its end. */
  function Duration(item: Item): int {
    item.end - item.start
  }

  /** Whether `span` is `item` moved 1 to 30 days later with its length kept. */
  predicate ShiftedForward(item: Item, span: Span) {
    item.start < span.start <= item.start + MaxProbes && span.end - span.start == Duration(item)
  }

  /**
   * The dates committed for `item` dropped on `lane`, or none: when it
   * collides with another item of the lane, it is shifted forward by the
   * least number of days that clears the lane, if there is one.
   */
  function ShiftInto(item: Item, lane: seq<Item>, id: int): Option<Span> {
    if !AnyOverlap(lane, id, item.start, item.end) then None
    else GapWindow(lane, id, item.start, Duration(item))
  }

  /**
   * The dates a lane change commits for item `id` moved to lane
   * `laneIndex`, or none when it changes nothing: the item is unknown, it
   * fits the lane where it is, or no shift of up to 30 days makes room.
   */
  function LaneMove(items: seq<Item>, lanes: seq<seq<Item>>, id: int, laneIndex: int): (move: Option<Span>)
    ensures move.Some? ==>
      FirstWithId(items, id).Some? && ShiftedForward(items[FirstWithId(items, id).value], move.value)
  {
    match FirstWithId(items, id)
    case None => None
    case Some(i) => ShiftInto(items[i], TargetLane(lanes, laneIndex), id)
  }

  /** The list after a lane change commits `move`. */
  function Committed(items: seq<Item>, id: int, move: Option<Span>): seq<Item> {
    match move
    case None => items
    case Some(span) => WithDates(items, id, span.start, span.end)
  }

  /** A lane change for an identifier that is not in the list changes nothing. */
  lemma LaneMoveUnknownItem(items: seq<Item>, lanes: seq<seq<Item>>, id: int, laneIndex: int)
    requires forall j :: 0 <= j < |items| ==> items[j].id != id
    ensures LaneMove(items, lanes, id, laneIndex).None?
  {
  }

  /**
   * A lane change moves nothing when no other item of the target lane
   * collides with the item, and in particular when the lane does not exist.
   */
  lemma LaneMoveNoCollision(items: seq<Item>, lanes: seq<seq<Item>>, id: int, laneIndex: int, i: nat)
    requires FirstWithId(items, id) == Some(i)
    requires !AnyOverlap(TargetLane(lanes, laneIndex), id, items[i].start, items[i].end)
    ensures LaneMove(items, lanes, id, laneIndex).None?
  {
  }

  /** A lane to a lane index that does not exist never collides. */
  lemma MissingLaneNeverCollides(lanes: seq<seq<Item>>, laneIndex: int, id: int, start: Date, end: Date)
    requires !(0 <= laneIndex < |lanes|)
    ensures !AnyOverlap(TargetLane(lanes, laneIndex), id, start, end)
  {
  }

  /**
   * When a lane change commits new dates for a colliding item, they are the
   * item shifted forward by the least number of days in 1..30 that clears
   * every other item of the lane, with its length unchanged.
   */
  lemma LaneMoveShiftsLeast(items: seq<Item>, lanes: seq<seq<Item>>, id: int, laneIndex: int, i: nat)
    requires FirstWithId(items, id) == Some(i)
    requires LaneMove(items, lanes, id, laneIndex).Some?
    ensures var span := LaneMove(items, lanes, id, laneIndex).value;
      var item := items[i];
      var lane := TargetLane(lanes, laneIndex);
      var k := span.start - item.start;
      AnyOverlap(lane, id, item.start, item.end) &&
      1 <= k <= MaxProbes &&
      span.end - span.start == Duration(item) &&
      !AnyOverlap(lane, id, span.start, span.end) &&
      forall k' :: 1 <= k' < k ==> Blocked(lane, id, item.start, Duration(item), k')
  {
  }

  /** A colliding item that some shift of up to 30 days clears is moved. */
  lemma LaneMoveFindsGap(items: seq<Item>, lanes: seq<seq<Item>>, id: int, laneIndex: int, i: nat, k: int)
    requires FirstWithId(items, id) == Some(i)
    requires AnyOverlap(TargetLane(lanes, laneIndex), id, items[i].start, items[i].end)
    requires 1 <= k <= MaxProbes && !Blocked(TargetLane(lanes, laneIndex), id, items[i].start, Duration(items[i]), k)
    ensures LaneMove(items, lanes, id, laneIndex).Some?
  {
  }

  /** A colliding item for which no shift of up to 30 days clears the lane stays where it is. */
  lemma LaneMoveGivesUp(items: seq<Item>, lanes: seq<seq<Item>>, id: int, laneIndex: int, i: nat)
    requires FirstWithId(items, id) == Some(i)
    requires forall k :: 1 <= k <= MaxProbes ==>
      Blocked(TargetLane(lanes, laneIndex), id, items[i].start, Duration(items[i]), k)
    ensures LaneMove(items, lanes, id, laneIndex).None?
  {
    var lane := TargetLane(lanes, laneIndex);
    var item := items[i];
    assert LeastGap(lane, id, item.start, Duration(item), 1).None?;
  }

  /** The label every new item starts with. */
  const NewItemName: string := "New Event"
  /** Days from a new item's start to its end. */
  const NewItemLength: int := 7

  /**
   * The item a click on the background creates: it starts on the day under
   * the cursor, ends 7 days later, and takes the palette entry of the
   * list's length.
   */
  function NewItem(startDate: Date, offsetX: real, dayWidth: real, count: nat, freshId: int): (item: Item)
    requires dayWidth > 0.0
    ensures item.id == freshId && item.name == NewItemName
    ensures item.start - startDate == Floor(Quotient(offsetX, dayWidth))
    ensures item.end - item.start == NewItemLength
    ensures item.colorScheme == Palette[count % |Palette|].name
  {
    var clickDate := startDate + Floor(Quotient(offsetX, dayWidth));
    Item(freshId, clickDate, clickDate + NewItemLength, NewItemName, Palette[count % |Palette|].name)
  }

  /** The timeline's state between events. */
  class Timeline {
    var items: seq<Item>
    var zoom: real
    var editingItemId: Option<int>
    var isDragging: bool
    var isResizing: bool
    var resizeDirection: Option<Direction>
    var clickStarted: bool
    /** The measured width of the container; 0 until it is measured. */
    var containerWidth: real

    /** There is always an item to take the date range from, and the zoom is in range. */
    predicate Valid()
      reads this
    {
      |items| > 0 && MinZoom <= zoom <= MaxZoom
    }

    /** The padded date range of the current items. */
    function Range(): TimelineHelpers.DateRange
      reads this
      requires Valid()
    {
      TimelineHelpers.GetTimelineDateRange(items)
    }

    /** Pixels per day for the current zoom, container and range. */
    function DayWidth(): (w: real)
      reads this
      requires Valid()
      ensures w >= TimelineHelpers.MinDayWidth
    {
      TimelineHelpers.DayWidth(zoom, containerWidth, Range().totalDays)
    }

    /** The item a click at `offsetX` on the background would create now. */
    function ClickedItem(offsetX: real, freshId: int): Item
      reads this
      requires Valid()
    {
      NewItem(Range().startDate, offsetX, DayWidth(), |items|, freshId)
    }

    constructor(initial: seq<Item>)
      requires |initial| > 0
      ensures Valid()
      ensures items == InitialItems(initial) && zoom == InitialZoom
      ensures editingItemId == None && !isDragging && !isResizing && resizeDirection == None && !clickStarted
      ensures containerWidth == 0.0
    {
      items := InitialItems(initial);
      zoom := InitialZoom;
      editingItemId := None;
      isDragging := false;
      isResizing := false;
      resizeDirection := None;
      clickStarted := false;
      containerWidth := 0.0;
    }

    /** The container was measured (on mount and on every window resize). */
    method MeasureContainer(width: real)
      requires Valid()
      modifies this
      ensures Valid()
      ensures containerWidth == width
      ensures items == old(items) && zoom == old(zoom) && editingItemId == old(editingItemId)
      ensures isDragging == old(isDragging) && isResizing == old(isResizing)
      ensures resizeDirection == old(resizeDirection) && clickStarted == old(clickStarted)
    {
      containerWidth := width;
    }

    method ZoomIn()
      requires Valid()
      modifies this
      ensures Valid()
      ensures zoom == ZoomedIn(old(zoom))
      ensures items == old(items) && editingItemId == old(editingItemId) && containerWidth == old(containerWidth)
      ensures isDragging == old(isDragging) && isResizing == old(isResizing)
      ensures resizeDirection == old(resizeDirection) && clickStarted == old(clickStarted)
    {
      zoom := ZoomedIn(zoom);
    }

    method ZoomOut()
      requires Valid()
      modifies this
      ensures Valid()
      ensures zoom == ZoomedOut(old(zoom))
      ensures items == old(items) && editingItemId == old(editingItemId) && containerWidth == old(containerWidth)
      ensures isDragging == old(isDragging) && isResizing == old(isResizing)
      ensures resizeDirection == old(resizeDirection) && clickStarted == old(clickStarted)
    {
      zoom := ZoomedOut(zoom);
    }

    /** Right-click on an item: it moves on to the next colour scheme. */
    method ColorChange(id: int)
      requires Valid()
      modifies this
      ensures Valid()
      ensures items == WithNextColor(old(items), id)
      ensures zoom == old(zoom) && editingItemId == old(editingItemId) && containerWidth == old(containerWidth)
      ensures isDragging == old(isDragging) && isResizing == old(isResizing)
      ensures resizeDirection == old(resizeDirection) && clickStarted == old(clickStarted)
    {
      items := WithNextColor(items, id);
    }

    /** The name edit of an item is submitted: it is renamed and editing ends. */
    method NameChange(id: int, newName: string)
      requires Valid()
      modifies this
      ensures Valid()
      ensures items == WithName(old(items), id, newName)
      ensures editingItemId == None
      ensures zoom == old(zoom) && containerWidth == old(containerWidth)
      ensures isDragging == old(isDragging) && isResizing == old(isResizing)
      ensures resizeDirection == old(resizeDirection) && clickStarted == old(clickStarted)
    {
      items := WithName(items, id, newName);
      editingItemId := None;
    }

    /** A drop or a resize gives an item new dates. */
    method ItemUpdate(id: int, newStart: Date, newEnd: Date)
      requires Valid()
      modifies this
      ensures Valid()
      ensures items == WithDates(old(items), id, newStart, newEnd)
      ensures zoom == old(zoom) && editingItemId == old(editingItemId) && containerWidth == old(containerWidth)
      ensures isDragging == old(isDragging) && isResizing == old(isResizing)
      ensures resizeDirection == old(resizeDirection) && clickStarted == old(clickStarted)
    {
      items := WithDates(items, id, newStart, newEnd);
    }

    /**
     * A drop over another lane: when the item collides with the target
     * lane's other items, it is moved to the first later window that is
     * free; otherwise nothing changes. The item and the lanes are looked up
     * in `snapshot` and `lanes`, the list and its grouping into lanes as the
     * handler last saw them; the new dates are written into the current list.
     */
    method LaneChange(snapshot: seq<Item>, lanes: seq<seq<Item>>, id: int, newLaneIndex: int)
      requires Valid()
      modifies this
      ensures Valid()
      ensures items == Committed(old(items), id, LaneMove(snapshot, lanes, id, newLaneIndex))
      ensures zoom == old(zoom) && editingItemId == old(editingItemId) && containerWidth == old(containerWidth)
      ensures isDragging == old(isDragging) && isResizing == old(isResizing)
      ensures resizeDirection == old(resizeDirection) && clickStarted == old(clickStarted)
    {
      ghost var move := LaneMove(snapshot, lanes, id, newLaneIndex);
      var index := FirstWithId(snapshot, id);
      if index.None? {
        return;
      }
      var itemToMove := snapshot[index.value];
      var targetLaneItems := TargetLane(lanes, newLaneIndex);
      assert move == ShiftInto(itemToMove, targetLaneItems, id);
      var itemDuration := itemToMove.end - itemToMove.start;
      var hasOverlap := AnyOverlap(targetLaneItems, id, itemToMove.start, itemToMove.end);
      if hasOverlap {
        var found := FindGap(targetLaneItems, id, itemToMove.start, itemDuration);
        assert found == move;
        if found.Some? {
          items := WithDates(items, id, found.value.start, found.value.end);
        }
      }
    }

    /** Mouse down on the timeline: a click may start only on the background or a lane. */
    method MouseDown(onBackground: bool)
      requires Valid()
      modifies this
      ensures Valid()
      ensures clickStarted == (old(clickStarted) || onBackground)
      ensures items == old(items) && zoom == old(zoom) && editingItemId == old(editingItemId)
      ensures containerWidth == old(containerWidth)
      ensures isDragging == old(isDragging) && isResizing == old(isResizing) && resizeDirection == old(resizeDirection)
    {
      if onBackground {
        clickStarted := true;
      }
    }

    /**
     * A click on the timeline. It creates an item, and opens it for
     * editing, only when it is on the background, the press started there,
     * and no resize or drag is under way. Every click ends the press.
     */
    method Click(onBackground: bool, offsetX: real, freshId: int)
      requires Valid()
      modifies this
      ensures Valid()
      ensures !clickStarted
      ensures onBackground && old(clickStarted) && !old(isResizing) && !old(isDragging) ==>
        items == old(items) + [old(ClickedItem(offsetX, freshId))] &&
        editingItemId == Some(freshId)
      ensures !(onBackground && old(clickStarted) && !old(isResizing) && !old(isDragging)) ==>
        items == old(items) && editingItemId == old(editingItemId)
      ensures zoom == old(zoom) && containerWidth == old(containerWidth)
      ensures isDragging == old(isDragging) && isResizing == old(isResizing) && resizeDirection == old(resizeDirection)
    {
      if onBackground && clickStarted && !isResizing && !isDragging {
        var newItem := ClickedItem(offsetX, freshId);
        items := items + [newItem];
        editingItemId := Some(freshId);
      }
      clickStarted := false;
    }

    /** An item's resize began: a pending background click is cancelled. */
    method ResizeStart(direction: Direction)
      requires Valid()
      modifies this
      ensures Valid()
      ensures isResizing && resizeDirection == Some(direction) && !clickStarted
      ensures items == old(items) && zoom == old(zoom) && editingItemId == old(editingItemId)
      ensures containerWidth == old(containerWidth) && isDragging == old(isDragging)
    {
      isResizing := true;
      resizeDirection := Some(direction);
      clickStarted := false;
    }

    method ResizeEnd()
      requires Valid()
      modifies this
      ensures Valid()
      ensures !isResizing
      ensures items == old(items) && zoom == old(zoom) && editingItemId == old(editingItemId)
      ensures containerWidth == old(containerWidth) && isDragging == old(isDragging)
      ensures resizeDirection == old(resizeDirection) && clickStarted == old(clickStarted)
    {
      isResizing := false;
    }

    method DragStart()
      requires Valid()
      modifies this
      ensures Valid()
      ensures isDragging
      ensures items == old(items) && zoom == old(zoom) && editingItemId == old(editingItemId)
      ensures containerWidth == old(containerWidth) && isResizing == old(isResizing)
      ensures resizeDirection == old(resizeDirection) && clickStarted == old(clickStarted)
    {
      isDragging := true;
    }

    method DragEnd()
      requires Valid()
      modifies this
      ensures Valid()
      ensures !isDragging
      ensures items == old(items) && zoom == old(zoom) && editingItemId == old(editingItemId)
      ensures containerWidth == old(containerWidth) && isResizing == old(isResizing)
      ensures resizeDirection == old(resizeDirection) && clickStarted == old(clickStarted)
    {
      isDragging := false;
    }

    /** Double-click on an item opens it for editing. */
    method StartEdit(id: int)
      requires Valid()
      modifies this
      ensures Valid()
      ensures editingItemId == Some(id)
      ensures items == old(items) && zoom == old(zoom) && containerWidth == old(containerWidth)
      ensures isDragging == old(isDragging) && isResizing == old(isResizing)
      ensures resizeDirection == old(resizeDirection) && clickStarted == old(clickStarted)
    {
      editingItemId := Some(id);
    }
  }
}
