/** The holiday filter: how many entries of a holiday list are weekdays
    inside an inclusive date range. The list is a sequence, so an entry
    listed twice is counted twice. */
module HolidayFilter {
  import opened Calendar

  /** An entry of `skip` that `holiday_count` counts: a weekday with
      start <= d <= end. */
  predicate CountsAsHoliday(start: Date, end: Date, d: Date) {
    IsWeekday(d) && start <= d && d <= end
  }

  /** `holiday_count(start, end, skip)`. */
  function HolidayCount(start: Date, end: Date, skip: seq<Date>): (r: nat)
    ensures r <= |skip|
    ensures start > end ==> r == 0
    ensures r == 0 <==> forall i :: 0 <= i < |skip| ==> !CountsAsHoliday(start, end, skip[i])
    ensures r == |skip| <==> forall i :: 0 <= i < |skip| ==> CountsAsHoliday(start, end, skip[i])
    decreases |skip|
  {
    if |skip| == 0 then 0
    else
      var init := skip[..|skip| - 1];
      assert forall i :: 0 <= i < |init| ==> init[i] == skip[i];
      HolidayCount(start, end, init) + (if CountsAsHoliday(start, end, skip[|skip| - 1]) then 1 else 0)
  }

  /** The indices of `skip` whose entry is counted. */
  function CountedIndices(start: Date, end: Date, skip: seq<Date>): set<int> {
    set i | 0 <= i < |skip| && CountsAsHoliday(start, end, skip[i])
  }

  /** The count is the number of positions in `skip` holding a counted
      entry, so duplicates are counted once per occurrence. */
  lemma {:induction false} HolidayCountCountsPositions(start: Date, end: Date, skip: seq<Date>)
    ensures HolidayCount(start, end, skip) == |CountedIndices(start, end, skip)|
    decreases |skip|
  {
    if |skip| > 0 {
      var n := |skip| - 1;
      var init := skip[..n];
      HolidayCountCountsPositions(start, end, init);
      var before := CountedIndices(start, end, init);
      if CountsAsHoliday(start, end, skip[n]) {
        assert CountedIndices(start, end, skip) == before + {n};
      } else {
        assert CountedIndices(start, end, skip) == before;
      }
    }
  }

  /** Counting over a concatenation adds the counts of the parts. */
  lemma {:induction false} HolidayCountAppend(start: Date, end: Date, a: seq<Date>, b: seq<Date>)
    ensures HolidayCount(start, end, a + b) == HolidayCount(start, end, a) + HolidayCount(start, end, b)
    decreases |b|
  {
    if |b| > 0 {
      var n := |b| - 1;
      assert (a + b)[..|a + b| - 1] == a + b[..n];
      HolidayCountAppend(start, end, a, b[..n]);
    } else {
      assert a + b == a;
    }
  }

  /** Entries that are weekend days or lie outside [start, end] change
      nothing. */
  lemma HolidayCountIgnoresIrrelevant(start: Date, end: Date, skip: seq<Date>, extra: seq<Date>)
    requires forall i :: 0 <= i < |extra| ==> !CountsAsHoliday(start, end, extra[i])
    ensures HolidayCount(start, end, skip + extra) == HolidayCount(start, end, skip)
  {
    HolidayCountAppend(start, end, skip, extra);
  }

  predicate NoDuplicates(s: seq<Date>) {
    forall i, j :: 0 <= i < j < |s| ==> s[i] != s[j]
  }

  /** Reference definition: the weekdays in [lo, hi] that `skip` lists,
      counted one calendar day at a time (each day at most once). */
  function SkippedWeekdaysIn(lo: Date, hi: Date, skip: seq<Date>): (r: nat)
    ensures r <= if lo <= hi then hi - lo + 1 else 0
    decreases hi - lo + 1
  {
    if hi < lo then 0
    else SkippedWeekdaysIn(lo, hi - 1, skip) + (if IsWeekday(hi) && hi in skip then 1 else 0)
  }

  /** Every weekday in a range is either a business day or a skipped one. */
  lemma {:induction false} WeekdaysSplitBySkip(lo: Date, hi: Date, skip: seq<Date>)
    ensures BusinessDaysIn(lo, hi, []) == BusinessDaysIn(lo, hi, skip) + SkippedWeekdaysIn(lo, hi, skip)
    decreases hi - lo + 1
  {
    if lo <= hi {
      WeekdaysSplitBySkip(lo, hi - 1, skip);
    }
  }

  /** Listing one more date adds one skipped weekday exactly when that date
      is a weekday in range that was not listed already. */
  lemma {:induction false} SkippedWeekdaysSnoc(lo: Date, hi: Date, skip: seq<Date>, x: Date)
    ensures SkippedWeekdaysIn(lo, hi, skip + [x])
         == SkippedWeekdaysIn(lo, hi, skip) + (if CountsAsHoliday(lo, hi, x) && x !in skip then 1 else 0)
    decreases hi - lo + 1
  {
    if lo <= hi {
      SkippedWeekdaysSnoc(lo, hi - 1, skip, x);
      assert hi in skip + [x] <==> hi in skip || hi == x;
    }
  }

  /** Without duplicate entries, `holiday_count` is the day-by-day number of
      skipped weekdays in the range. */
  lemma {:induction false} HolidayCountMatchesDayByDay(start: Date, end: Date, skip: seq<Date>)
    requires NoDuplicates(skip)
    ensures HolidayCount(start, end, skip) == SkippedWeekdaysIn(start, end, skip)
    decreases |skip|
  {
    if |skip| > 0 {
      var n := |skip| - 1;
      var init := skip[..n];
      assert skip == init + [skip[n]];
      HolidayCountMatchesDayByDay(start, end, init);
      SkippedWeekdaysSnoc(start, end, init, skip[n]);
    } else {
      assert SkippedWeekdaysIn(start, end, []) == 0 by {
        WeekdaysSplitBySkip(start, end, []);
      }
    }
  }
}
