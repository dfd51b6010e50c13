/** The interval counter: business days in an inclusive date range, computed
    in closed form from whole weeks, the weekday span of the endpoints and
    the holiday count. */
module IntervalCounter {
  import opened Calendar
  import opened WeekdaySpan
  import opened HolidayFilter

  function Max(a: int, b: int): (m: int)
    ensures m >= a && m >= b && (m == a || m == b)
  {
    if a >= b then a else b
  }

  /** `business_days_interval(start, end, skip)`. An absent `skip` is the
      empty sequence; the holiday count is only computed for a non-empty
      one, as in the source. */
  function BusinessDaysInterval(start: Date, end: Date, skip: seq<Date>): (r: nat)
    ensures start > end ==> r == 0
  {
    if start > end then 0
    else
      var weeks := (end - start) / 7;
      var holidays := if |skip| > 0 then HolidayCount(start, end, skip) else 0;
      Max(weeks * 5 + Weekdays(Weekday(start), Weekday(end)).count - holidays, 0)
  }

  /** The one shape of range the closed form over-counts: Sunday to
      Saturday, where `weekdays(6, 5)` is 6 rather than 5. */
  function SundayToSaturday(start: Date, end: Date): (q: nat)
    ensures q <= 1
  {
    if start <= end && Weekday(start) == 6 && Weekday(end) == 5 then 1 else 0
  }

  /** The day-by-day weekday count over [start, start + n] depends only on
      the weekday of `start`. */
  lemma {:induction false} WeekdaysInRangeByIndex(start: Date, n: int)
    requires n >= -1
    ensures BusinessDaysIn(start, start + n, []) == DayByDayWeekdays(Weekday(start), n)
    decreases n + 1
  {
    if n >= 0 {
      WeekdaysInRangeByIndex(start, n - 1);
      WeekdayShift(start, n);
    }
  }

  /** Whole weeks plus the weekday span of the endpoints is the day-by-day
      weekday count, plus one for a Sunday-to-Saturday range. */
  lemma ClosedFormWeekdays(start: Date, end: Date)
    requires start <= end
    ensures 5 * ((end - start) / 7) + Weekdays(Weekday(start), Weekday(end)).count
         == BusinessDaysIn(start, end, []) + SundayToSaturday(start, end)
  {
    var n := end - start;
    WeekdayShift(start, n);
    assert (Weekday(end) - Weekday(start)) % 7 == n % 7;
    WeekdaysMatchesDayByDay(Weekday(start), Weekday(end));
    WholeWeeks(Weekday(start), n);
    WeekdaysInRangeByIndex(start, n);
  }

  /** With no entry listed twice, the closed form equals the day-by-day
      business-day count, except that a Sunday-to-Saturday range gets one
      day too many. The floor at 0 never takes effect. */
  lemma IntervalMatchesDayByDay(start: Date, end: Date, skip: seq<Date>)
    requires NoDuplicates(skip)
    ensures BusinessDaysInterval(start, end, skip)
         == BusinessDaysIn(start, end, skip) + SundayToSaturday(start, end)
  {
    if start <= end {
      ClosedFormWeekdays(start, end);
      WeekdaysSplitBySkip(start, end, skip);
      HolidayCountMatchesDayByDay(start, end, skip);
    }
  }

  /** With no holidays (absent or empty), the result is the number of
      weekdays in the range, plus one for Sunday to Saturday. */
  lemma IntervalWithoutHolidays(start: Date, end: Date)
    ensures BusinessDaysInterval(start, end, []) == BusinessDaysIn(start, end, []) + SundayToSaturday(start, end)
  {
    IntervalMatchesDayByDay(start, end, []);
  }

  /** Even with the Sunday-to-Saturday excess the result never exceeds the
      number of calendar days in the range. */
  lemma IntervalAtMostRangeLength(start: Date, end: Date, skip: seq<Date>)
    requires start <= end
    ensures BusinessDaysInterval(start, end, skip) <= end - start + 1
  {
    // Follows from the closed forms in the contract of `Weekdays`.
  }

  /** Listing more dates never raises the count. */
  lemma IntervalAntitoneInSkip(start: Date, end: Date, skip: seq<Date>, extra: seq<Date>)
    ensures BusinessDaysInterval(start, end, skip + extra) <= BusinessDaysInterval(start, end, skip)
  {
    HolidayCountAppend(start, end, skip, extra);
  }

  /** Listing weekend dates or dates outside the range changes nothing. */
  lemma IntervalIgnoresIrrelevantSkips(start: Date, end: Date, skip: seq<Date>, extra: seq<Date>)
    requires forall i :: 0 <= i < |extra| ==> !CountsAsHoliday(start, end, extra[i])
    ensures BusinessDaysInterval(start, end, skip + extra) == BusinessDaysInterval(start, end, skip)
  {
    HolidayCountIgnoresIrrelevant(start, end, skip, extra);
    if |skip| == 0 {
      assert skip + extra == extra;
    }
  }
}
