/** The time axis: date ticks, their labels, and the month dividers above them. */
module TimelineAxis {
  import opened Wrappers
  import opened Calendar
  import opened Pixels
  import TimelineHelpers

  /** date-fns format tokens used by the axis: 'M', 'MMM', 'MMM d', 'd', 'MMM d, yyyy', 'MMMM yyyy'. */
  datatype Format = M | MMM | MMMd | D | MMMdyyyy | MMMMyyyy

  /**
   * Days between two ticks: 30, 21, 14, 7, 3 or 1 as the day width reaches
   * 3, 5, 10, 20 and 40 pixels. From 3 pixels per day on, neighbouring ticks
   * are at least 40 pixels apart.
   */
  function TickInterval(dayWidth: real): (n: int)
    ensures 1 <= n <= 30
    ensures dayWidth >= 3.0 ==> n as real * dayWidth >= 40.0
    ensures dayWidth >= 40.0 <==> n == 1
  {
    if dayWidth < 3.0 then 30
    else if dayWidth < 5.0 then 21
    else if dayWidth < 10.0 then 14
    else if dayWidth < 20.0 then 7
    else if dayWidth < 40.0 then 3
    else 1
  }

  /** The interval of each band of day widths: 30, 21, 14, 7, 3 days below 3, 5, 10, 20, 40 pixels, and 1 day from 40. */
  lemma TickIntervalBands(dayWidth: real)
    ensures dayWidth < 3.0 ==> TickInterval(dayWidth) == 30
    ensures 3.0 <= dayWidth < 5.0 ==> TickInterval(dayWidth) == 21
    ensures 5.0 <= dayWidth < 10.0 ==> TickInterval(dayWidth) == 14
    ensures 10.0 <= dayWidth < 20.0 ==> TickInterval(dayWidth) == 7
    ensures 20.0 <= dayWidth < 40.0 ==> TickInterval(dayWidth) == 3
    ensures dayWidth >= 40.0 ==> TickInterval(dayWidth) == 1
  {
  }

  /** Zooming in never makes ticks sparser in days. */
  lemma TickIntervalAntitone(w: real, w': real)
    requires w <= w'
    ensures TickInterval(w') <= TickInterval(w)
  {
  }

  /** The label format of every tick, stated band by band of the day width. */
  function TickFormat(dayWidth: real): (f: Format)
    ensures f == M <==> dayWidth < 3.0
    ensures f == MMM <==> 3.0 <= dayWidth < 10.0
    ensures f == MMMd <==> 10.0 <= dayWidth < 40.0
    ensures f == D <==> 40.0 <= dayWidth < 60.0
    ensures f == MMMdyyyy <==> dayWidth >= 60.0
  {
    var tickInterval := TickInterval(dayWidth);
    if dayWidth < 3.0 then M
    else if dayWidth < 5.0 then MMM
    else if tickInterval >= 14 then MMM
    else if tickInterval >= 7 then MMMd
    else if tickInterval >= 3 then MMMd
    else if dayWidth < 60.0 then D
    else MMMdyyyy
  }

  /** `Math.ceil(totalDays / interval)` as an array length (never below 0). */
  function TickCount(totalDays: int, interval: int): (c: nat)
    requires interval > 0
    ensures totalDays <= 0 ==> c == 0
    ensures totalDays > 0 ==> (c - 1) * interval < totalDays <= c * interval
  {
    if totalDays <= 0 then 0 else (totalDays + interval - 1) / interval
  }

  datatype Tick = Tick(date: Date, position: real, format: Format)

  /** The tick list: tick `i` is `i * interval` days after the start, drawn at that many day widths. */
  function DateTicks(startDate: Date, totalDays: int, dayWidth: real): (ticks: seq<Tick>)
    ensures |ticks| == TickCount(totalDays, TickInterval(dayWidth))
    ensures forall i :: 0 <= i < |ticks| ==>
      ticks[i].date == startDate + i * TickInterval(dayWidth) &&
      ticks[i].position == DaysToPixels(i * TickInterval(dayWidth), dayWidth) &&
      ticks[i].format == TickFormat(dayWidth)
  {
    var tickInterval := TickInterval(dayWidth);
    var count := TickCount(totalDays, tickInterval);
    seq(count, i requires 0 <= i < count =>
      Tick(startDate + i * tickInterval, DaysToPixels(i * tickInterval, dayWidth), TickFormat(dayWidth)))
  }

  /** With a positive day width the ticks run left to right, from 0 to before the axis end. */
  lemma TicksOrderedWithinAxis(startDate: Date, totalDays: int, dayWidth: real, i: int, j: int)
    requires dayWidth > 0.0
    requires 0 <= i < j < |DateTicks(startDate, totalDays, dayWidth)|
    ensures DateTicks(startDate, totalDays, dayWidth)[0].position == 0.0
    ensures DateTicks(startDate, totalDays, dayWidth)[0].date == startDate
    ensures 0.0 <= DateTicks(startDate, totalDays, dayWidth)[i].position
    ensures DateTicks(startDate, totalDays, dayWidth)[i].position < DateTicks(startDate, totalDays, dayWidth)[j].position
    ensures DateTicks(startDate, totalDays, dayWidth)[j].position < DaysToPixels(totalDays, dayWidth)
  {
    var ticks := DateTicks(startDate, totalDays, dayWidth);
    var n := TickInterval(dayWidth);
    var count := |ticks|;
    assert (count - 1) * n < totalDays;
    IntMulMono(j, count - 1, n);
    IntMulStrictMono(i, j, n);
    IntMulMono(0, i, n);
    assert ticks[0].position == DaysToPixels(0 * n, dayWidth);
    DaysToPixelsMono(0, i * n, dayWidth);
    DaysToPixelsStrictMono(i * n, j * n, dayWidth);
    DaysToPixelsStrictMono(j * n, totalDays, dayWidth);
  }

  /**
   * With a positive day width, an axis with any tick at all is non-empty,
   * its first tick is at 0 on the start date, and every tick lies in
   * [0, axis width).
   */
  lemma TickWithinAxis(startDate: Date, totalDays: int, dayWidth: real, i: int)
    requires dayWidth > 0.0
    requires 0 <= i < |DateTicks(startDate, totalDays, dayWidth)|
    ensures totalDays > 0
    ensures DateTicks(startDate, totalDays, dayWidth)[0].position == 0.0
    ensures DateTicks(startDate, totalDays, dayWidth)[0].date == startDate
    ensures 0.0 <= DateTicks(startDate, totalDays, dayWidth)[i].position < DaysToPixels(totalDays, dayWidth)
  {
    var ticks := DateTicks(startDate, totalDays, dayWidth);
    var n := TickInterval(dayWidth);
    var count := |ticks|;
    assert (count - 1) * n < totalDays;
    IntMulMono(i, count - 1, n);
    IntMulMono(0, i, n);
    assert ticks[0].position == DaysToPixels(0 * n, dayWidth);
    DaysToPixelsMono(0, i * n, dayWidth);
    DaysToPixelsStrictMono(i * n, totalDays, dayWidth);
  }

  lemma IntMulMono(a: int, b: int, n: int)
    requires a <= b && n >= 0
    ensures a * n <= b * n
  {
    assert b * n - a * n == (b - a) * n;
  }

  lemma IntMulStrictMono(a: int, b: int, n: int)
    requires a < b && n > 0
    ensures a * n < b * n
  {
    assert b * n - a * n == (b - a) * n;
  }

  /** Month labels: 'M' below 3 pixels per day, 'MMM' below 20, 'MMMM yyyy' from 20 on. */
  function MonthFormat(dayWidth: real): (f: Format)
    ensures f in {M, MMM, MMMMyyyy}
    ensures f == MMMMyyyy <==> dayWidth >= 20.0
    ensures f == M <==> dayWidth < 3.0
  {
    if dayWidth < 3.0 then M
    else if dayWidth < 5.0 then MMM
    else if dayWidth < 20.0 then MMM
    else MMMMyyyy
  }

  /** One month divider: the month's first shown date, its label format, where it starts and how wide it is. */
  datatype MonthSegment = MonthSegment(monthStart: Date, format: Format, position: real, width: real)

  /** The segment that opens `startDay` days into the axis and closes `endDay` days into it. */
  function Segment(startDate: Date, startDay: int, endDay: int, dayWidth: real): MonthSegment {
    MonthSegment(startDate + startDay, MonthFormat(dayWidth), DaysToPixels(startDay, dayWidth),
                 DaysToPixels(endDay, dayWidth) - DaysToPixels(startDay, dayWidth))
  }

  /** Number of days `d` in 1..`n` whose date `startDate + d` is the first of a month. */
  function CountFirsts(dayOfMonth: Date -> int, startDate: Date, n: int): (c: nat)
    ensures c <= (if n < 0 then 0 else n)
  {
    if n <= 0 then 0
    else CountFirsts(dayOfMonth, startDate, n - 1) + (if OpensMonth(dayOfMonth, startDate, n) then 1 else 0)
  }

  /**
   * Day `d` of the axis falls on the first of a month, by the calendar
   * `dayOfMonth` (the date library's `getDate`; `Calendar.DayOfMonth` is the
   * Gregorian one).
   */
  predicate OpensMonth(dayOfMonth: Date -> int, startDate: Date, d: int) {
    dayOfMonth(startDate + d) == 1
  }

  /**
   * The segments between consecutive days of `bounds`: segment `i` opens on
   * day `bounds[i]` and closes on day `bounds[i + 1]`.
   */
  function Segments(startDate: Date, dayWidth: real, bounds: seq<int>): (months: seq<MonthSegment>)
    ensures |months| == if |bounds| == 0 then 0 else |bounds| - 1
  {
    if |bounds| <= 1 then []
    else Segments(startDate, dayWidth, bounds[..|bounds| - 1]) +
         [Segment(startDate, bounds[|bounds| - 2], bounds[|bounds| - 1], dayWidth)]
  }

  /** Each segment starts exactly where the previous one ends. */
  ghost predicate Contiguous(months: seq<MonthSegment>) {
    forall i :: 0 <= i < |months| - 1 ==> months[i].position + months[i].width == months[i + 1].position
  }

  /** Total width of a list of segments. */
  function SumWidths(months: seq<MonthSegment>): real {
    if months == [] then 0.0 else months[0].width + SumWidths(months[1..])
  }

  /** The widths of contiguous segments add up to the distance from the first start to the last end. */
  lemma {:induction false} ContiguousWidthsSum(months: seq<MonthSegment>)
    requires |months| > 0 && Contiguous(months)
    ensures SumWidths(months) == months[|months| - 1].position + months[|months| - 1].width - months[0].position
  {
    if |months| > 1 {
      var rest := months[1..];
      assert Contiguous(rest) by {
        forall i | 0 <= i < |rest| - 1
          ensures rest[i].position + rest[i].width == rest[i + 1].position
        {
          assert rest[i] == months[i + 1] && rest[i + 1] == months[i + 2];
        }
      }
      ContiguousWidthsSum(rest);
    }
  }

  /**
   * The days on which a month divider opens, in 0..`n`: day 0 and every
   * later day that falls on the first of a month, in increasing order.
   */
  function OpeningDays(dayOfMonth: Date -> int, startDate: Date, n: nat): (days: seq<int>)
    ensures |days| >= 1 && days[0] == 0
  {
    if n == 0 then [0]
    else OpeningDays(dayOfMonth, startDate, n - 1) + (if OpensMonth(dayOfMonth, startDate, n) then [n] else [])
  }

  /** The last opening day in 0..`n`: the day on which the divider still open on day `n` opened. */
  function LastOpening(dayOfMonth: Date -> int, startDate: Date, n: nat): (d: nat)
    ensures d <= n
  {
    if n == 0 then 0
    else if OpensMonth(dayOfMonth, startDate, n) then n
    else LastOpening(dayOfMonth, startDate, n - 1)
  }

  /** The dividers closed by day `n`: one each time a first of a month closes the divider open before it. */
  function ClosedDividers(startDate: Date, dayWidth: real, dayOfMonth: Date -> int, n: nat): seq<MonthSegment> {
    if n == 0 then []
    else if OpensMonth(dayOfMonth, startDate, n) then
      ClosedDividers(startDate, dayWidth, dayOfMonth, n - 1) +
      [Segment(startDate, LastOpening(dayOfMonth, startDate, n - 1), n, dayWidth)]
    else ClosedDividers(startDate, dayWidth, dayOfMonth, n - 1)
  }

  /** There is one opening day for day 0 and one for each first of a month after it. */
  lemma {:induction false} OpeningDaysCount(dayOfMonth: Date -> int, startDate: Date, n: nat)
    ensures |OpeningDays(dayOfMonth, startDate, n)| == 1 + CountFirsts(dayOfMonth, startDate, n)
  {
    if n > 0 {
      OpeningDaysCount(dayOfMonth, startDate, n - 1);
    }
  }

  /** The opening days lie in 0..`n` and strictly increase. */
  lemma {:induction false} OpeningDaysIncreasing(dayOfMonth: Date -> int, startDate: Date, n: nat)
    ensures forall i :: 0 <= i < |OpeningDays(dayOfMonth, startDate, n)| ==> 0 <= OpeningDays(dayOfMonth, startDate, n)[i] <= n
    ensures forall i, j :: 0 <= i < j < |OpeningDays(dayOfMonth, startDate, n)| ==>
      OpeningDays(dayOfMonth, startDate, n)[i] < OpeningDays(dayOfMonth, startDate, n)[j]
  {
    if n > 0 {
      OpeningDaysIncreasing(dayOfMonth, startDate, n - 1);
    }
  }

  /** Every opening day after day 0 is the first of a month. */
  lemma {:induction false} OpeningDaysAreFirsts(dayOfMonth: Date -> int, startDate: Date, n: nat)
    ensures forall i :: 0 < i < |OpeningDays(dayOfMonth, startDate, n)| ==>
      dayOfMonth(startDate + OpeningDays(dayOfMonth, startDate, n)[i]) == 1
  {
    if n > 0 {
      OpeningDaysAreFirsts(dayOfMonth, startDate, n - 1);
    }
  }

  /** Every first of a month in 1..`n` is an opening day. */
  lemma {:induction false} OpeningDaysComplete(dayOfMonth: Date -> int, startDate: Date, n: nat, d: int)
    requires 0 < d <= n && OpensMonth(dayOfMonth, startDate, d)
    ensures d in OpeningDays(dayOfMonth, startDate, n)
  {
    if d < n {
      OpeningDaysComplete(dayOfMonth, startDate, n - 1, d);
    }
  }

  /**
   * The month dividers of an axis of `totalDays` days: the dividers closed
   * by the last day, then the one still open, which the end of the axis
   * closes (with zero width when the axis ends on a first of the month).
   */
  function MonthSegments(startDate: Date, totalDays: int, dayWidth: real, dayOfMonth: Date -> int): seq<MonthSegment> {
    if totalDays < 0 then []
    else
      var stillOpen := Segment(startDate, LastOpening(dayOfMonth, startDate, totalDays), totalDays, dayWidth);
      ClosedDividers(startDate, dayWidth, dayOfMonth, totalDays) + [stillOpen]
  }

  /** The loop that builds the month dividers day by day. */
  method MonthDividers(startDate: Date, totalDays: int, dayWidth: real, dayOfMonth: Date -> int) returns (months: seq<MonthSegment>)
    ensures months == MonthSegments(startDate, totalDays, dayWidth, dayOfMonth)
  {
    months := [];
    var currentMonthStart: Option<Date> := None;
    var currentPosition: real := 0.0;
    var day := 0;
    while day <= totalDays
      invariant totalDays < 0 ==> day == 0
      invariant totalDays >= 0 ==> 0 <= day <= totalDays + 1
      invariant day == 0 ==> currentMonthStart == None && months == []
      invariant day > 0 ==> currentMonthStart == Some(startDate + LastOpening(dayOfMonth, startDate, day - 1))
      invariant day > 0 ==> currentPosition == DaysToPixels(LastOpening(dayOfMonth, startDate, day - 1), dayWidth)
      invariant 0 < day <= totalDays ==> months == ClosedDividers(startDate, dayWidth, dayOfMonth, day - 1)
      invariant day > totalDays >= 0 ==> months == MonthSegments(startDate, totalDays, dayWidth, dayOfMonth)
    {
      var date := startDate + day;
      if day == 0 || dayOfMonth(date) == 1 {
        if currentMonthStart.Some? {
          var segment := MonthSegment(currentMonthStart.value, MonthFormat(dayWidth), currentPosition,
                                      DaysToPixels(day, dayWidth) - currentPosition);
          months := months + [segment];
        }
        currentMonthStart := Some(date);
        currentPosition := DaysToPixels(day, dayWidth);
      }
      if day == totalDays {
        var segment := MonthSegment(currentMonthStart.value, MonthFormat(dayWidth), currentPosition,
                                    DaysToPixels(totalDays, dayWidth) - currentPosition);
        months := months + [segment];
      }
      day := day + 1;
    }
  }

  /** The dividers closed by day `n` are the segments between the opening days up to `n`. */
  lemma {:induction false} ClosedDividersAreSegments(startDate: Date, dayWidth: real, dayOfMonth: Date -> int, n: nat)
    ensures ClosedDividers(startDate, dayWidth, dayOfMonth, n) == Segments(startDate, dayWidth, OpeningDays(dayOfMonth, startDate, n))
    ensures LastOpening(dayOfMonth, startDate, n) ==
      OpeningDays(dayOfMonth, startDate, n)[|OpeningDays(dayOfMonth, startDate, n)| - 1]
  {
    if n > 0 {
      var before := OpeningDays(dayOfMonth, startDate, n - 1);
      ClosedDividersAreSegments(startDate, dayWidth, dayOfMonth, n - 1);
      if OpensMonth(dayOfMonth, startDate, n) {
        SegmentsSnoc(startDate, dayWidth, before, n);
      } else {
        assert OpeningDays(dayOfMonth, startDate, n) == before + [] == before;
      }
    }
  }

  /** The month dividers are the segments between the opening days and the end of the axis. */
  lemma MonthSegmentsAreSegments(startDate: Date, totalDays: nat, dayWidth: real, dayOfMonth: Date -> int)
    ensures MonthSegments(startDate, totalDays, dayWidth, dayOfMonth) ==
      Segments(startDate, dayWidth, OpeningDays(dayOfMonth, startDate, totalDays) + [totalDays])
  {
    ClosedDividersAreSegments(startDate, dayWidth, dayOfMonth, totalDays);
    SegmentsSnoc(startDate, dayWidth, OpeningDays(dayOfMonth, startDate, totalDays), totalDays);
  }

  /** Closing the last open segment on day `day` appends one segment. */
  lemma SegmentsSnoc(startDate: Date, dayWidth: real, starts: seq<int>, day: int)
    requires |starts| > 0
    ensures Segments(startDate, dayWidth, starts + [day]) ==
      Segments(startDate, dayWidth, starts) +
      [MonthSegment(startDate + starts[|starts| - 1], MonthFormat(dayWidth), DaysToPixels(starts[|starts| - 1], dayWidth),
                    DaysToPixels(day, dayWidth) - DaysToPixels(starts[|starts| - 1], dayWidth))]
  {
    assert (starts + [day])[..|starts|] == starts;
  }

  /** Segment `i` of `Segments(bounds)` lies between `bounds[i]` and `bounds[i + 1]`. */
  lemma {:induction false} SegmentsAt(startDate: Date, dayWidth: real, bounds: seq<int>, i: nat)
    requires i + 1 < |bounds|
    ensures Segments(startDate, dayWidth, bounds)[i] == Segment(startDate, bounds[i], bounds[i + 1], dayWidth)
    decreases |bounds|
  {
    var prefix := bounds[..|bounds| - 1];
    if i + 2 < |bounds| {
      SegmentsAt(startDate, dayWidth, prefix, i);
      assert prefix[i] == bounds[i] && prefix[i + 1] == bounds[i + 1];
    }
  }

  /** The geometry of the segments between non-decreasing bounds that start at day 0. */
  lemma SegmentsShape(startDate: Date, dayWidth: real, bounds: seq<int>)
    requires |bounds| >= 2 && bounds[0] == 0
    requires forall i :: 0 <= i < |bounds| - 1 ==> bounds[i] <= bounds[i + 1]
    ensures Segments(startDate, dayWidth, bounds)[0].position == 0.0
    ensures Contiguous(Segments(startDate, dayWidth, bounds))
    ensures Segments(startDate, dayWidth, bounds)[|bounds| - 2].position + Segments(startDate, dayWidth, bounds)[|bounds| - 2].width
      == DaysToPixels(bounds[|bounds| - 1], dayWidth)
    ensures SumWidths(Segments(startDate, dayWidth, bounds)) == DaysToPixels(bounds[|bounds| - 1], dayWidth)
    ensures forall i :: 0 <= i < |bounds| - 1 ==> Segments(startDate, dayWidth, bounds)[i] == Segment(startDate, bounds[i], bounds[i + 1], dayWidth)
    ensures dayWidth >= 0.0 ==> forall i :: 0 <= i < |bounds| - 1 ==> Segments(startDate, dayWidth, bounds)[i].width >= 0.0
  {
    var months := Segments(startDate, dayWidth, bounds);
    forall i | 0 <= i < |bounds| - 1
      ensures months[i] == Segment(startDate, bounds[i], bounds[i + 1], dayWidth)
    {
      SegmentsAt(startDate, dayWidth, bounds, i);
    }
    assert months[0] == Segment(startDate, 0, bounds[1], dayWidth);
    forall i | 0 <= i < |months| - 1
      ensures months[i].position + months[i].width == months[i + 1].position
    {
      assert months[i] == Segment(startDate, bounds[i], bounds[i + 1], dayWidth);
      assert months[i + 1] == Segment(startDate, bounds[i + 1], bounds[i + 2], dayWidth);
    }
    ContiguousWidthsSum(months);
    if dayWidth >= 0.0 {
      forall i | 0 <= i < |months|
        ensures months[i].width >= 0.0
      {
        SegmentWidthNonNegative(startDate, bounds[i], bounds[i + 1], dayWidth);
      }
    }
  }

  lemma SegmentWidthNonNegative(startDate: Date, startDay: int, endDay: int, dayWidth: real)
    requires startDay <= endDay && dayWidth >= 0.0
    ensures Segment(startDate, startDay, endDay, dayWidth).width >= 0.0
  {
    DaysToPixelsMono(startDay, endDay, dayWidth);
  }

  /** The bounds of the month dividers: the opening days, then the end of the axis. */
  lemma MonthBounds(startDate: Date, totalDays: nat, dayOfMonth: Date -> int)
    ensures var bounds := OpeningDays(dayOfMonth, startDate, totalDays) + [totalDays];
      |bounds| >= 2 && bounds[0] == 0 &&
      (forall i :: 0 <= i < |bounds| - 1 ==> bounds[i] <= bounds[i + 1])
  {
    var starts := OpeningDays(dayOfMonth, startDate, totalDays);
    var bounds := starts + [totalDays];
    OpeningDaysIncreasing(dayOfMonth, startDate, totalDays);
    forall i | 0 <= i < |bounds| - 1
      ensures bounds[i] <= bounds[i + 1]
    {
      if i + 1 < |starts| {
        assert bounds[i] == starts[i] && bounds[i + 1] == starts[i + 1];
      } else {
        assert bounds[i] == starts[i] && bounds[i + 1] == totalDays;
      }
    }
  }

  /** The month dividers tile the axis: they start at 0, touch, and end where the axis ends. */
  lemma MonthSegmentsTileAxis(startDate: Date, totalDays: nat, dayWidth: real, dayOfMonth: Date -> int)
    ensures var months := MonthSegments(startDate, totalDays, dayWidth, dayOfMonth);
      |months| == 1 + CountFirsts(dayOfMonth, startDate, totalDays) &&
      months[0].position == 0.0 && months[0].monthStart == startDate &&
      Contiguous(months) &&
      months[|months| - 1].position + months[|months| - 1].width == DaysToPixels(totalDays, dayWidth) &&
      SumWidths(months) == DaysToPixels(totalDays, dayWidth)
    ensures var months := MonthSegments(startDate, totalDays, dayWidth, dayOfMonth);
      dayWidth >= 0.0 ==> forall i :: 0 <= i < |months| ==> months[i].width >= 0.0
  {
    var bounds := OpeningDays(dayOfMonth, startDate, totalDays) + [totalDays];
    MonthSegmentsAreSegments(startDate, totalDays, dayWidth, dayOfMonth);
    OpeningDaysCount(dayOfMonth, startDate, totalDays);
    MonthBounds(startDate, totalDays, dayOfMonth);
    SegmentsShape(startDate, dayWidth, bounds);
    var months := MonthSegments(startDate, totalDays, dayWidth, dayOfMonth);
    assert months[0] == Segment(startDate, bounds[0], bounds[1], dayWidth);
  }

  /**
   * With a positive day width, the last divider is empty exactly when the
   * axis ends on a first of the month: the last day opens it and the end of
   * the axis closes it at once.
   */
  lemma LastSegmentEmptyOnFirst(startDate: Date, totalDays: nat, dayWidth: real, dayOfMonth: Date -> int)
    requires totalDays > 0 && dayWidth > 0.0
    ensures var months := MonthSegments(startDate, totalDays, dayWidth, dayOfMonth);
      months[|months| - 1].width == 0.0 <==> OpensMonth(dayOfMonth, startDate, totalDays)
    ensures var months := MonthSegments(startDate, totalDays, dayWidth, dayOfMonth);
      OpensMonth(dayOfMonth, startDate, totalDays) ==> months[|months| - 1].monthStart == startDate + totalDays
  {
    var last := LastOpening(dayOfMonth, startDate, totalDays);
    if !OpensMonth(dayOfMonth, startDate, totalDays) {
      assert last == LastOpening(dayOfMonth, startDate, totalDays - 1);
      DaysToPixelsStrictMono(last, totalDays, dayWidth);
    }
  }

  /** Divider `i` opens on opening day `i` and is labelled in the month format. */
  lemma MonthSegmentAt(startDate: Date, totalDays: nat, dayWidth: real, dayOfMonth: Date -> int, i: int)
    requires 0 <= i < |MonthSegments(startDate, totalDays, dayWidth, dayOfMonth)|
    ensures var months := MonthSegments(startDate, totalDays, dayWidth, dayOfMonth);
      var starts := OpeningDays(dayOfMonth, startDate, totalDays);
      i < |starts| &&
      months[i].monthStart == startDate + starts[i] &&
      months[i].position == DaysToPixels(starts[i], dayWidth) &&
      months[i].format == MonthFormat(dayWidth)
  {
    var starts := OpeningDays(dayOfMonth, startDate, totalDays);
    var bounds := starts + [totalDays];
    MonthSegmentsAreSegments(startDate, totalDays, dayWidth, dayOfMonth);
    SegmentsAt(startDate, dayWidth, bounds, i);
    assert bounds[i] == starts[i];
  }

  /** The dividers open inside the axis, in increasing date order, and each after the first on a first of a month. */
  lemma MonthSegmentsMarkMonths(startDate: Date, totalDays: nat, dayWidth: real, dayOfMonth: Date -> int)
    ensures var months := MonthSegments(startDate, totalDays, dayWidth, dayOfMonth);
      forall i :: 0 <= i < |months| ==>
        startDate <= months[i].monthStart <= startDate + totalDays &&
        months[i].position == DaysToPixels(months[i].monthStart - startDate, dayWidth) &&
        months[i].format == MonthFormat(dayWidth)
    ensures var months := MonthSegments(startDate, totalDays, dayWidth, dayOfMonth);
      forall i :: 0 < i < |months| ==> dayOfMonth(months[i].monthStart) == 1
    ensures var months := MonthSegments(startDate, totalDays, dayWidth, dayOfMonth);
      forall i, j :: 0 <= i < j < |months| ==> months[i].monthStart < months[j].monthStart
  {
    var months := MonthSegments(startDate, totalDays, dayWidth, dayOfMonth);
    var starts := OpeningDays(dayOfMonth, startDate, totalDays);
    OpeningDaysIncreasing(dayOfMonth, startDate, totalDays);
    OpeningDaysAreFirsts(dayOfMonth, startDate, totalDays);
    forall i | 0 <= i < |months|
      ensures i < |starts| && months[i].monthStart == startDate + starts[i]
      ensures months[i].position == DaysToPixels(starts[i], dayWidth) && months[i].format == MonthFormat(dayWidth)
    {
      MonthSegmentAt(startDate, totalDays, dayWidth, dayOfMonth, i);
    }
  }

  /**
   * The dividers under the Gregorian calendar of an axis from 2024-02-29 to
   * 2024-03-01: February's spans the one day, and March's opens on the last
   * day with zero width.
   */
  lemma GregorianLeapDayDividers(dayWidth: real)
    requires dayWidth > 0.0
    ensures var months := MonthSegments(19782, 1, dayWidth, DayOfMonth);
      |months| == 2 &&
      months[0].monthStart == 19782 && months[0].position == 0.0 && months[0].width == dayWidth &&
      months[1].monthStart == 19783 && months[1].position == dayWidth && months[1].width == 0.0
  {
    DayOfMonthLeapDay();
    assert OpensMonth(DayOfMonth, 19782, 1);
    assert LastOpening(DayOfMonth, 19782, 1) == 1;
    assert ClosedDividers(19782, dayWidth, DayOfMonth, 1) == [Segment(19782, 0, 1, dayWidth)];
    assert DaysToPixels(1, dayWidth) == dayWidth;
  }

  /** Every first of a month inside the axis opens a month divider. */
  lemma MonthSegmentsCoverFirsts(startDate: Date, totalDays: nat, dayWidth: real, dayOfMonth: Date -> int, d: int)
    requires 0 < d <= totalDays && OpensMonth(dayOfMonth, startDate, d)
    ensures exists i ::
      0 <= i < |MonthSegments(startDate, totalDays, dayWidth, dayOfMonth)| &&
      MonthSegments(startDate, totalDays, dayWidth, dayOfMonth)[i].monthStart == startDate + d
  {
    var starts := OpeningDays(dayOfMonth, startDate, totalDays);
    OpeningDaysComplete(dayOfMonth, startDate, totalDays, d);
    var i :| 0 <= i < |starts| && starts[i] == d;
    MonthSegmentsTileAxis(startDate, totalDays, dayWidth, dayOfMonth);
    OpeningDaysCount(dayOfMonth, startDate, totalDays);
    MonthSegmentAt(startDate, totalDays, dayWidth, dayOfMonth, i);
  }

  /** Month labels are drawn from 2 pixels per day on, ticks from 1.5. */
  predicate ShowMonthLabels(dayWidth: real): (shown: bool)
    ensures shown ==> ShowDateTicks(dayWidth)
    ensures dayWidth >= TimelineHelpers.MinDayWidth ==> shown
  {
    dayWidth >= 2.0
  }

  predicate ShowDateTicks(dayWidth: real): (shown: bool)
    ensures dayWidth >= TimelineHelpers.MinDayWidth ==> shown
  {
    dayWidth >= 1.5
  }

  /** Every day width the coordinate mapper produces shows both month labels and ticks. */
  lemma AxisAlwaysShown(zoom: real, containerWidth: real, totalDays: int)
    requires totalDays > 0
    ensures ShowMonthLabels(TimelineHelpers.DayWidth(zoom, containerWidth, totalDays))
    ensures ShowDateTicks(TimelineHelpers.DayWidth(zoom, containerWidth, totalDays))
  {
  }
}
