/**
 * Calendar dates as day numbers. Day 0 is 1970-01-01; the calendar is the
 * proleptic Gregorian one, which is what the timeline's local-time date
 * arithmetic (`addDays`, `getDate`) follows for date-only values.
 */
module Calendar {

  /** A calendar date, counted in whole days. */
  type Date = int

  /**
   * The day of the month (1..31) of day number `d`: the civil-from-days
   * conversion on 400-year eras of 146097 days, years starting on 1 March.
   */
  function DayOfMonth(d: Date): int {
    var z := d + 719468;
    var era := z / 146097;
    var doe := z - era * 146097;
    var yoe := (doe - doe / 1460 + doe / 36524 - doe / 146096) / 365;
    var doy := doe - (365 * yoe + yoe / 4 - yoe / 100);
    var mp := (5 * doy + 2) / 153;
    doy - (153 * mp + 2) / 5 + 1
  }

  /** `date.getDate() === 1`: the date is the first of its month. */
  predicate IsFirstOfMonth(d: Date) {
    DayOfMonth(d) == 1
  }

  /** Sample points of the conversion: 1970-01-01 is day 0, 2024-02-29 day 19782, 2024-03-01 day 19783. */
  lemma DayOfMonthEpoch()
    ensures IsFirstOfMonth(0)
  {
    assert 719468 / 146097 == 4 && 135080 / 1460 == 92 && 135080 / 36524 == 3 && 135080 / 146096 == 0;
    assert 134991 / 365 == 369 && 369 / 4 == 92 && 369 / 100 == 3 && 1532 / 153 == 10 && 1532 / 5 == 306;
  }

  lemma DayOfMonthLeapDay()
    ensures DayOfMonth(19782) == 29 && IsFirstOfMonth(19783)
  {
    assert 739250 / 146097 == 5 && 8765 / 1460 == 6 && 8765 / 36524 == 0 && 8765 / 146096 == 0;
    assert 8759 / 365 == 23 && 23 / 4 == 5 && 23 / 100 == 0 && 1827 / 153 == 11 && 1685 / 5 == 337;
    assert 739251 / 146097 == 5 && 8766 / 1460 == 6 && 8766 / 36524 == 0 && 8766 / 146096 == 0;
    assert 8760 / 365 == 24 && 24 / 4 == 6 && 24 / 100 == 0 && 2 / 153 == 0 && 2 / 5 == 0;
  }
}
