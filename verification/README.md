# biz_days in Dafny

A model of the business-day arithmetic in `biz_days.py`:

- `weekdays(dow1, dow2)` counts the Monday-to-Friday indices in the
  inclusive forward span between two day-of-week indices. It raises
  `ValueError` for an index outside 0..6.
- `holiday_count(start, end, skip)` counts the entries of a holiday list
  that are weekdays inside `[start, end]`.
- `business_days_interval(start, end, skip)` counts business days in
  `[start, end]` in closed form. The count is whole weeks times five, plus
  the weekday span of the endpoints, minus the holidays, floored at 0.
- `business_days_from_now(days, start, skip)` finds the date `days` business
  days away from `start`, not counting `start`. It steps one calendar day
  at a time in the direction of the sign of `days`.

Dates are day ordinals as in Python's `date.toordinal()`: 0001-01-01 is day
1 and is a Monday. So `date.weekday()` is `(d + 6) % 7`, and a `timedelta`
of `k` days is `+ k`. Python's `%` and Dafny's `%` agree for the divisor 7.
The holiday list is a `seq<Date>`. A missing list (`None`) is modelled as
the empty sequence, because every function in the source treats `None` and
`[]` the same way. The error of `weekdays` is the `ValueError` constructor
of `WeekdaySpan.SpanResult`.

Files:

- `calendar.dfy` (module `Calendar`): the date type, the day of the week,
  business days, and the reference day-by-day count `BusinessDaysIn`. It
  also holds a `year-month-day` to ordinal helper, used for the scenarios.
- `weekday_span.dfy`: `weekdays`.
- `holiday_filter.dfy`: `holiday_count`.
- `interval_counter.dfy`: `business_days_interval`.
- `offset_resolver.dfy`: `business_days_from_now` and its inner
  `iterate_days`.
- `scenarios.dfy`: the concrete cases of `test_biz_days.py` and of the
  docstring of `business_days_from_now`.

Every operation has a reference partner. `weekdays` is compared with a
day-by-day weekday count. `holiday_count` is compared with the set of
positions it counts and with a day-by-day count of skipped weekdays. The
closed form of `business_days_interval` is compared with the day-by-day
business-day count. The result of `business_days_from_now` is proved to be
the unique date that closes a run of exactly `|days|` business days.

The search in `iterate_days` terminates for every finite holiday list. The
measure, compared lexicographically, has three parts:

1. the business days still to go;
2. the holiday entries still ahead in the search direction;
3. the weekend days directly ahead.

Each step lowers this measure. The same measure bounds the walk: the result
lies at most `3 * (|days| + |skip|) + 2` days from `start`.

Behaviour of the code worth knowing:

- The search steps one calendar day at a time (biz_days.py:50-56).
- A holiday listed twice is subtracted twice by `business_days_interval`,
  because `holiday_count` is the length of a list comprehension
  (biz_days.py:96-97). In `business_days_from_now` a repeated entry has no
  extra effect, because it is only tested with `in` (biz_days.py:52).
- The docstring of `weekdays` says `dow2 > dow1` (biz_days.py:101), but the
  code accepts either order and wraps past Sunday (biz_days.py:114).
  `weekdays` never returns more than 6; the tests assert only that it is at
  most 7.
- The line `i not in (5, 6)` does not reduce `i` modulo 7 (biz_days.py:116).
  So `weekdays(6, 5)` counts index 12 and returns 6. Every
  Sunday-to-Saturday range therefore counts one business day more than it
  holds, although the module docstring promises the number of business days
  between two dates (biz_days.py:2-3). For example, 2017-01-01..2017-01-07
  gives 6. Widening that range by one day gives 5, so the count is not
  monotone as the range widens. The model keeps this behaviour and states
  it exactly (`SundayToSaturday`).

## Model

| member | source | states |
|---|---|---|
| `WeekdaySpan.Weekdays` | biz_days.py:100-116 | fails exactly when an index is outside 0..6; otherwise the count is at most 6; it is 1 or 0 for equal indices (weekday or weekend); for `dow1 < dow2` it is the number of indices of `[dow1, dow2]` below 5; in the wrap-around case it is `max(0, 5 - dow1) + dow2 + 1` |
| `WeekdaySpan.CountNonWeekendIndices` | biz_days.py:116 | the length of the filtered range is its size minus the members 5 and 6 it contains, tested on the unreduced integers |
| `WeekdaySpan.WeekdaysMatchesDayByDay` | biz_days.py:112-116 | for valid indices, `weekdays` equals the day-by-day weekday count of the forward span, plus 1 exactly for Sunday to Saturday |
| `HolidayFilter.HolidayCount` | biz_days.py:84-97 | the count is at most the list length; it is 0 for an inverted range; it is 0 exactly when no entry is a weekday in range; it is the full length exactly when every entry is one |
| `HolidayFilter.HolidayCountCountsPositions` | biz_days.py:96-97 | the count is the number of list positions holding a weekday in range, so a repeated entry counts once per occurrence |
| `HolidayFilter.HolidayCountAppend` | biz_days.py:96-97 | the count of a concatenation is the sum of the counts |
| `HolidayFilter.HolidayCountIgnoresIrrelevant` | biz_days.py:96-97 | appending weekend or out-of-range dates leaves the count unchanged |
| `HolidayFilter.HolidayCountMatchesDayByDay` | biz_days.py:95-97 | for a list without repeats, the count equals the day-by-day number of listed weekdays in the range |
| `IntervalCounter.BusinessDaysInterval` | biz_days.py:74-75 | an inverted range gives 0 whatever the list; the result is never negative |
| `IntervalCounter.ClosedFormWeekdays` | biz_days.py:77-81 | five per whole week plus the endpoint weekday span is the day-by-day weekday count, plus 1 exactly for a Sunday-to-Saturday range |
| `IntervalCounter.IntervalMatchesDayByDay` | biz_days.py:61-81 | for a list without repeats, the result is the day-by-day business-day count plus 1 for Sunday to Saturday; the floor at 0 never takes effect |
| `IntervalCounter.IntervalWithoutHolidays` | biz_days.py:79-81 | with no list (or an empty one) the result is the weekday count of the range, plus 1 for Sunday to Saturday |
| `IntervalCounter.IntervalAtMostRangeLength` | biz_days.py:77-81 | the result never exceeds the number of calendar days in the range |
| `IntervalCounter.IntervalAntitoneInSkip` | biz_days.py:79-81 | appending dates to the list never raises the result |
| `IntervalCounter.IntervalIgnoresIrrelevantSkips` | biz_days.py:79-81 | appending weekend or out-of-range dates leaves the result unchanged |
| `OffsetResolver.IterateDays` | biz_days.py:50-56 | the search stops on a business day exactly `remaining` business days past `current` in the search direction, and walks at most the termination measure in days |
| `OffsetResolver.BusinessDaysFromNow` | biz_days.py:29-58 | `days == 0` returns `start` unchanged; otherwise the result is a weekday not in the list, lies strictly after `start` for positive `days` and strictly before it for negative ones, closes a run of exactly `abs(days)` business days after `start`, and lies at most `3 * (abs(days) + length of the list) + 2` days away |
| `OffsetResolver.FromNowForwardUnique` | biz_days.py:48-56 | for positive `days`, every business day after `start` closing a run of `days` business days is the result |
| `OffsetResolver.FromNowBackwardUnique` | biz_days.py:48-56 | for negative `days`, every business day before `start` closing a run of `abs(days)` business days is the result |
| `Scenarios.WeekdaysCases` | test_biz_days.py:100-107 | the listed spans give 5, 1, 1, 4, 0, 5 and 0; `weekdays(6, 5)` gives 6; out-of-range indices fail |
| `Scenarios.HolidayCountCases` | test_biz_days.py:115-123 | the listed holiday lists over 2015-01-01..2017-01-01 give 0, 0, 1, 1 and 2, and a repeated entry is counted twice |
| `Scenarios.IntervalCasesNoSkips` | test_biz_days.py:64-69 | the listed ranges give 0, 0, 10, 10 and 11 |
| `Scenarios.IntervalCasesWithSkips` | test_biz_days.py:72-88 | the listed ranges and lists give 0, 0, 10, 9 and 8; the first case passes `[]`, which is also how an absent list is modelled |
| `Scenarios.SundayToSaturdayExcess` | biz_days.py:77-81 | 2017-01-01..2017-01-07 gives 6 against 5 weekdays, and 2017-01-01..2017-01-08 gives 5 |
| `Scenarios.FromNowCases` | test_biz_days.py:51-55 | -5 from 2000-01-01 is 1999-12-27; 0 from 2000-01-01 is itself; 1 from 2017-01-01 is 2017-01-02; 1 from 2017-01-03 is 2017-01-04; 2 from 2017-10-17 is 2017-10-19 |
| `Scenarios.FromNowSkipsHoliday` | biz_days.py:52 | an extra check beyond the tests: 1 from Monday 2017-01-02 with Tuesday 2017-01-03 listed is Wednesday 2017-01-04 |

## Left out

- `main`, the docopt usage text and the `__main__` block (biz_days.py:1-19, 123-140): argument parsing, `print`, `sys.exit`, and the `date.today()` default that `main` supplies for the start date.
- The `start=None` default of `business_days_from_now` (biz_days.py:29): with it, `days == 0` returns `None` and any other `days` raises `TypeError` at `None + timedelta` (biz_days.py:51). The model has no absent date; the start date is always a parameter.
- `str_to_date` (biz_days.py:119-120): text parsing and calendar validation by `datetime.date`. `Calendar.Ordinal` covers only the ordinal arithmetic of valid dates.
- The command-line tests (test_biz_days.py:131-179): they exercise docopt.
- Python runtime limits: dates are unbounded integers, so the `OverflowError` at `date.min` or `date.max` and the recursion-depth limit of `iterate_days` are not modelled.
- A holiday "list" given as a one-shot iterator, which `in` would consume: the list is a finite sequence.
- `IntervalCounter.IntervalMatchesDayByDay`: stated only for holiday lists without repeated entries. With repeats, each occurrence is subtracted (`HolidayCountCountsPositions`), and the floor at 0 can take effect.
