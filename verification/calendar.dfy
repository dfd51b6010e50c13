/** Calendar dates as proleptic Gregorian day ordinals, the way Python's
    `date.toordinal()` numbers them: 0001-01-01 is day 1 and is a Monday.
    The difference of two dates in whole days is plain subtraction, and
    adding a `timedelta` of `k` days is adding `k`. */
module Calendar {

  /** A calendar date, as its day ordinal. Ordinals are unbounded here. */
  type Date = int

  /** Day of the week, 0 = Monday .. 6 = Sunday, as `date.weekday()`. */
  function Weekday(d: Date): (w: int)
    ensures 0 <= w < 7
  {
    (d + 6) % 7
  }

  predicate IsWeekday(d: Date) {
    Weekday(d) < 5
  }

  /** A business day: Monday to Friday and not listed in `skip`. */
  predicate IsBusinessDay(d: Date, skip: seq<Date>) {
    IsWeekday(d) && d !in skip
  }

  function Abs(x: int): (r: nat)
    ensures r == x || r == -x
  {
    if x < 0 then -x else x
  }

  /** Moving `k` days forward moves the day of the week by `k`, modulo 7. */
  lemma WeekdayShift(d: Date, k: int)
    ensures Weekday(d + k) == (Weekday(d) + k) % 7
  {
  }

  /** Reference definition: the number of business days in the inclusive
      range [lo, hi], counted one calendar day at a time. */
  function BusinessDaysIn(lo: Date, hi: Date, skip: seq<Date>): (r: nat)
    ensures r <= if lo <= hi then hi - lo + 1 else 0
    decreases hi - lo + 1
  {
    if hi < lo then 0
    else BusinessDaysIn(lo, hi - 1, skip) + (if IsBusinessDay(hi, skip) then 1 else 0)
  }

  /** The day-by-day count can also be peeled off at the low end. */
  lemma {:induction false} BusinessDaysInLow(lo: Date, hi: Date, skip: seq<Date>)
    requires lo <= hi
    ensures BusinessDaysIn(lo, hi, skip)
         == (if IsBusinessDay(lo, skip) then 1 else 0) + BusinessDaysIn(lo + 1, hi, skip)
    decreases hi - lo
  {
    if lo < hi {
      BusinessDaysInLow(lo, hi - 1, skip);
    }
  }

  /** Splitting [lo, hi] at `mid` adds the counts of the two halves. */
  lemma {:induction false} BusinessDaysInSplit(lo: Date, mid: Date, hi: Date, skip: seq<Date>)
    requires lo <= mid + 1 && mid <= hi
    ensures BusinessDaysIn(lo, hi, skip)
         == BusinessDaysIn(lo, mid, skip) + BusinessDaysIn(mid + 1, hi, skip)
    decreases hi - mid
  {
    if mid < hi {
      BusinessDaysInSplit(lo, mid, hi - 1, skip);
    }
  }

  /** Days in a month of the proleptic Gregorian calendar. */
  function DaysInMonth(year: int, month: int): (n: int)
    requires 1 <= month <= 12
    ensures 28 <= n <= 31
  {
    if month == 2 then
      (if IsLeapYear(year) then 29 else 28)
    else if month in {4, 6, 9, 11} then 30
    else 31
  }

  predicate IsLeapYear(year: int) {
    year % 4 == 0 && (year % 100 != 0 || year % 400 == 0)
  }

  /** Days in the months of `year` before `month`. */
  function DaysBeforeMonth(year: int, month: int): (n: nat)
    requires 1 <= month <= 12
    ensures n <= 31 * (month - 1)
  {
    [0, 31, 59, 90, 120, 151, 181, 212, 243, 273, 304, 334][month - 1]
      + (if month > 2 && IsLeapYear(year) then 1 else 0)
  }

  /** The ordinal of a valid year-month-day triple, as `date.toordinal()`. */
  function Ordinal(year: int, month: int, day: int): (d: Date)
    requires year >= 1 && 1 <= month <= 12 && 1 <= day <= DaysInMonth(year, month)
    ensures d >= 1
  {
    var y := year - 1;
    365 * y + y / 4 - y / 100 + y / 400 + DaysBeforeMonth(year, month) + day
  }
}
