/** The weekday-span calculator: how many Monday-to-Friday indices lie in the
    inclusive forward span from one day-of-week index to another. */
module WeekdaySpan {

  /** Outcome of `weekdays`: a count, or the `ValueError` it raises for an
      index outside 0..6. */
  datatype SpanResult = Ok(count: nat) | ValueError

  predicate ValidIndex(dow: int) {
    0 <= dow <= 6
  }

  /** Number of integers i in [lo, hi] with i not in (5, 6). The test is on
      the integer itself, not on i modulo 7. */
  function CountNonWeekendIndices(lo: int, hi: int): (r: nat)
    requires lo <= hi + 1
    ensures r == (hi - lo + 1)
               - (if lo <= 5 <= hi then 1 else 0)
               - (if lo <= 6 <= hi then 1 else 0)
    decreases hi - lo + 1
  {
    if hi < lo then 0
    else CountNonWeekendIndices(lo, hi - 1) + (if hi != 5 && hi != 6 then 1 else 0)
  }

  /** `weekdays(dow1, dow2)`: the span ends at `dow2` when it lies after
      `dow1`, and at `dow2 + 7` otherwise. */
  function Weekdays(dow1: int, dow2: int): (r: SpanResult)
    ensures r.ValueError? <==> !(ValidIndex(dow1) && ValidIndex(dow2))
    ensures r.Ok? ==> r.count <= 6
    ensures r.Ok? && dow1 == dow2 ==> r.count == (if dow1 < 5 then 1 else 0)
    ensures r.Ok? && dow1 < dow2 ==>
              r.count == (if dow1 <= 4 then (if dow2 < 4 then dow2 else 4) - dow1 + 1 else 0)
    ensures r.Ok? && dow1 > dow2 ==>
              r.count == (if dow1 <= 4 then 5 - dow1 else 0) + dow2 + 1
  {
    if dow1 < 0 || dow1 > 6 || dow2 < 0 || dow2 > 6 then ValueError
    else if dow1 == dow2 then Ok(if dow1 < 5 then 1 else 0)
    else
      var d2 := if dow2 > dow1 then dow2 else dow2 + 7;
      Ok(CountNonWeekendIndices(dow1, d2))
  }

  /** 1 when index `x`, reduced modulo 7, is Monday to Friday, else 0. */
  function WeekdayBit(x: int): (b: nat)
    ensures b == 1 <==> x % 7 < 5
    ensures b <= 1
  {
    if x % 7 < 5 then 1 else 0
  }

  /** Reference definition: the number of k in [0, n] such that the day
      `k` days after weekday `dow` is Monday to Friday. */
  function DayByDayWeekdays(dow: int, n: int): (r: nat)
    ensures r <= if n >= 0 then n + 1 else 0
    decreases n + 1
  {
    if n < 0 then 0
    else DayByDayWeekdays(dow, n - 1) + WeekdayBit(dow + n)
  }

  /** Any seven consecutive integers hold exactly five Monday-to-Friday
      indices modulo 7. */
  lemma WeekOfBits(x: int)
    ensures WeekdayBit(x) + WeekdayBit(x + 1) + WeekdayBit(x + 2) + WeekdayBit(x + 3)
          + WeekdayBit(x + 4) + WeekdayBit(x + 5) + WeekdayBit(x + 6) == 5
  {
    var m := x % 7;
    BitShift(x, m, 1);
    BitShift(x, m, 2);
    BitShift(x, m, 3);
    BitShift(x, m, 4);
    BitShift(x, m, 5);
    BitShift(x, m, 6);
  }

  lemma BitShift(x: int, m: int, j: int)
    requires m == x % 7
    ensures WeekdayBit(x + j) == WeekdayBit(m + j)
  {
    assert x - m == 7 * (x / 7);
    assert (x + j) % 7 == (m + j) % 7;
  }

  /** Any seven consecutive days hold exactly five weekdays. */
  lemma SevenDaysHoldFive(dow: int, n: int)
    requires n >= 6
    ensures DayByDayWeekdays(dow, n) == DayByDayWeekdays(dow, n - 7) + 5
  {
    var x := dow + n - 6;
    var d := DayByDayWeekdays(dow, n - 7);
    assert DayByDayWeekdays(dow, n - 6) == d + WeekdayBit(x);
    assert DayByDayWeekdays(dow, n - 5) == d + WeekdayBit(x) + WeekdayBit(x + 1);
    assert DayByDayWeekdays(dow, n - 4) == d + WeekdayBit(x) + WeekdayBit(x + 1) + WeekdayBit(x + 2);
    assert DayByDayWeekdays(dow, n - 3) == d + WeekdayBit(x) + WeekdayBit(x + 1) + WeekdayBit(x + 2)
                                            + WeekdayBit(x + 3);
    assert DayByDayWeekdays(dow, n - 2) == d + WeekdayBit(x) + WeekdayBit(x + 1) + WeekdayBit(x + 2)
                                            + WeekdayBit(x + 3) + WeekdayBit(x + 4);
    assert DayByDayWeekdays(dow, n - 1) == d + WeekdayBit(x) + WeekdayBit(x + 1) + WeekdayBit(x + 2)
                                            + WeekdayBit(x + 3) + WeekdayBit(x + 4) + WeekdayBit(x + 5);
    WeekOfBits(x);
  }

  /** `weeks` whole weeks followed by `rest` more days. */
  lemma {:induction false} WeeksThenRest(dow: int, weeks: nat, rest: int)
    requires 0 <= rest < 7
    ensures DayByDayWeekdays(dow, 7 * weeks + rest) == 5 * weeks + DayByDayWeekdays(dow, rest)
    decreases weeks
  {
    if weeks > 0 {
      SevenDaysHoldFive(dow, 7 * weeks + rest);
      WeeksThenRest(dow, weeks - 1, rest);
    }
  }

  /** Whole weeks contribute five weekdays each. */
  lemma WholeWeeks(dow: int, n: nat)
    ensures DayByDayWeekdays(dow, n) == 5 * (n / 7) + DayByDayWeekdays(dow, n % 7)
  {
    WeeksThenRest(dow, n / 7, n % 7);
  }

  /** Within a span of at most seven days starting in the first week, the
      day-by-day count is the count of indices outside (5, 6) and 12, the
      indices of the first two weekends that such a span can reach. */
  lemma {:induction false} DayByDayShortSpan(dow: int, n: int)
    requires ValidIndex(dow) && 0 <= n <= 6
    ensures DayByDayWeekdays(dow, n)
         == CountNonWeekendIndices(dow, dow + n) - (if dow + n == 12 then 1 else 0)
    decreases n
  {
    if n > 0 {
      DayByDayShortSpan(dow, n - 1);
      assert (dow + n) % 7 == if dow + n < 7 then dow + n else dow + n - 7;
    }
  }

  /** `weekdays` agrees with a day-by-day count over the forward span from
      `dow1` to `dow2`, except for Sunday to Saturday, where the unreduced
      index 12 is counted as a weekday and the result is one too many. */
  lemma WeekdaysMatchesDayByDay(dow1: int, dow2: int)
    requires ValidIndex(dow1) && ValidIndex(dow2)
    ensures Weekdays(dow1, dow2).count
         == DayByDayWeekdays(dow1, (dow2 - dow1) % 7) + (if dow1 == 6 && dow2 == 5 then 1 else 0)
  {
    var n := (dow2 - dow1) % 7;
    assert dow1 + n == if dow2 >= dow1 then dow2 else dow2 + 7;
    DayByDayShortSpan(dow1, n);
  }
}
