/** The coordinate mapper: pixels per day, and the padded date range of the items. */
module TimelineHelpers {
  import opened Calendar
  import opened Items

  const BaseDayWidth: real := 40.0
  const MinDayWidth: real := 5.0
  /** Days of padding on each side of the items' dates. */
  const Padding: int := 5

  /** `Math.max` on two pixel values. */
  function Max(a: real, b: real): (r: real)
    ensures r >= a && r >= b && (r == a || r == b)
  {
    if a >= b then a else b
  }

  /**
   * Pixels per day. At zoom 0.5 and above (or before the container has a
   * width) the width is 40 pixels times the zoom; below 0.5 with a measured
   * container the timeline stretches to fill the container less 20 pixels.
   * Either way it is at least 5 pixels.
   */
  function DayWidth(zoom: real, containerWidth: real, totalDays: int): (w: real)
    requires totalDays > 0
    ensures w >= MinDayWidth
  {
    var standardWidth := Max(BaseDayWidth * zoom, MinDayWidth);
    if zoom < 0.5 && containerWidth > 0.0 then
      var fillContainerWidth := (containerWidth - 20.0) / totalDays as real;
      Max(fillContainerWidth, MinDayWidth)
    else
      standardWidth
  }

  /** At zoom 0.5 and above the width is exactly 40 pixels per zoom unit. */
  lemma DayWidthFromZoom(zoom: real, containerWidth: real, totalDays: int)
    requires totalDays > 0 && zoom >= 0.5
    ensures DayWidth(zoom, containerWidth, totalDays) == BaseDayWidth * zoom
  {
  }

  /** Without a measured container the zoom rule applies at every zoom, floored at 5. */
  lemma DayWidthUnmeasured(zoom: real, containerWidth: real, totalDays: int)
    requires totalDays > 0 && containerWidth <= 0.0
    ensures DayWidth(zoom, containerWidth, totalDays) == Max(BaseDayWidth * zoom, MinDayWidth)
  {
  }

  /** Below zoom 0.5 with a measured container, the zoom no longer matters. */
  lemma DayWidthFillsContainer(zoom: real, zoom': real, containerWidth: real, totalDays: int)
    requires totalDays > 0 && containerWidth > 0.0 && zoom < 0.5 && zoom' < 0.5
    ensures DayWidth(zoom, containerWidth, totalDays) == DayWidth(zoom', containerWidth, totalDays)
    ensures DayWidth(zoom, containerWidth, totalDays) == Max((containerWidth - 20.0) / totalDays as real, MinDayWidth)
  {
  }

  /** All item dates in order, start then end of each item (`flatMap`). */
  function Dates(items: seq<Item>): (ds: seq<Date>)
    ensures |ds| == 2 * |items|
    ensures forall i :: 0 <= i < |items| ==> items[i].start in ds && items[i].end in ds
    ensures forall x :: x in ds ==> exists i :: 0 <= i < |items| && (x == items[i].start || x == items[i].end)
  {
    if items == [] then []
    else
      var rest := Dates(items[1..]);
      assert forall i :: 1 <= i < |items| ==> items[i] == items[1..][i - 1];
      [items[0].start, items[0].end] + rest
  }

  /** `dates.reduce((min, date) => date < min ? date : min, acc)`. */
  function ReduceMin(ds: seq<Date>, acc: Date): (m: Date)
    ensures m <= acc && (m == acc || m in ds)
    ensures forall x :: x in ds ==> m <= x
  {
    if ds == [] then acc
    else
      var m := ReduceMin(ds[1..], if ds[0] < acc then ds[0] else acc);
      assert forall x :: x in ds ==> x == ds[0] || x in ds[1..];
      m
  }

  /** `dates.reduce((max, date) => date > max ? date : max, acc)`. */
  function ReduceMax(ds: seq<Date>, acc: Date): (m: Date)
    ensures m >= acc && (m == acc || m in ds)
    ensures forall x :: x in ds ==> m >= x
  {
    if ds == [] then acc
    else
      var m := ReduceMax(ds[1..], if ds[0] > acc then ds[0] else acc);
      assert forall x :: x in ds ==> x == ds[0] || x in ds[1..];
      m
  }

  datatype DateRange = DateRange(startDate: Date, endDate: Date, totalDays: int)

  /** True when `d` is the start or end of some item. */
  predicate IsItemDate(items: seq<Item>, d: Date) {
    exists i :: 0 <= i < |items| && (items[i].start == d || items[i].end == d)
  }

  /**
   * The padded range of the items: from the earliest of all start and end
   * dates less 5 days to the latest plus 5 days. Both reductions are seeded
   * with the first date, so the list must not be empty.
   */
  function GetTimelineDateRange(items: seq<Item>): (r: DateRange)
    requires |items| > 0
    ensures r.totalDays == r.endDate - r.startDate >= 2 * Padding
    ensures forall i :: 0 <= i < |items| ==>
      r.startDate + Padding <= items[i].start <= r.endDate - Padding &&
      r.startDate + Padding <= items[i].end <= r.endDate - Padding
    ensures IsItemDate(items, r.startDate + Padding) && IsItemDate(items, r.endDate - Padding)
  {
    var dates := Dates(items);
    var minDate := ReduceMin(dates, dates[0]);
    var maxDate := ReduceMax(dates, dates[0]);
    assert dates[0] in dates;
    var startDate := minDate - Padding;
    var endDate := maxDate + Padding;
    DateRange(startDate, endDate, endDate - startDate)
  }

  /** The range depends only on which items there are, not on their order. */
  lemma DateRangeOrderIndependent(a: seq<Item>, b: seq<Item>)
    requires |a| > 0 && multiset(a) == multiset(b)
    ensures |b| > 0
    ensures GetTimelineDateRange(a) == GetTimelineDateRange(b)
  {
    assert a[0] in multiset(b);
    SameStartDate(a, b);
    SameEndDate(a, b);
  }

  /** Both lists share their earliest date, hence the range start. */
  lemma SameStartDate(a: seq<Item>, b: seq<Item>)
    requires |a| > 0 && |b| > 0 && multiset(a) == multiset(b)
    ensures GetTimelineDateRange(a).startDate == GetTimelineDateRange(b).startDate
  {
    var sa, sb := GetTimelineDateRange(a).startDate + Padding, GetTimelineDateRange(b).startDate + Padding;
    SameDatesBound(a, b, sa);
    ItemDateWithinRange(b, sa);
    SameDatesBound(b, a, sb);
    ItemDateWithinRange(a, sb);
  }

  /** Both lists share their latest date, hence the range end. */
  lemma SameEndDate(a: seq<Item>, b: seq<Item>)
    requires |a| > 0 && |b| > 0 && multiset(a) == multiset(b)
    ensures GetTimelineDateRange(a).endDate == GetTimelineDateRange(b).endDate
  {
    var ea, eb := GetTimelineDateRange(a).endDate - Padding, GetTimelineDateRange(b).endDate - Padding;
    SameDatesBound(a, b, ea);
    ItemDateWithinRange(b, ea);
    SameDatesBound(b, a, eb);
    ItemDateWithinRange(a, eb);
  }

  /** Every item date lies inside the padding of the range. */
  lemma ItemDateWithinRange(items: seq<Item>, d: Date)
    requires |items| > 0 && IsItemDate(items, d)
    ensures GetTimelineDateRange(items).startDate + Padding <= d <= GetTimelineDateRange(items).endDate - Padding
  {
    var i :| 0 <= i < |items| && (items[i].start == d || items[i].end == d);
  }

  /** A date of some item of `a` is a date of some item of `b` when they hold the same items. */
  lemma SameDatesBound(a: seq<Item>, b: seq<Item>, d: Date)
    requires multiset(a) == multiset(b) && IsItemDate(a, d)
    ensures IsItemDate(b, d)
  {
    var i :| 0 <= i < |a| && (a[i].start == d || a[i].end == d);
    assert a[i] in multiset(b);
    var j :| 0 <= j < |b| && b[j] == a[i];
  }
}
