/** The offset resolver: the date that is `days` business days away from a
    start date, exclusive of the start date, found by stepping one calendar
    day at a time in the direction of the sign of `days`. */
module OffsetResolver {
  import opened Calendar

  /** Entries of `skip` lying strictly ahead of `d` in direction `sign`. */
  function SkipAhead(sign: int, d: Date, skip: seq<Date>): (n: nat)
    ensures n <= |skip|
    decreases |skip|
  {
    if |skip| == 0 then 0
    else SkipAhead(sign, d, skip[1..]) + (if sign * (skip[0] - d) > 0 then 1 else 0)
  }

  /** Weekend days lying directly ahead of `d` in direction `sign`. */
  function WeekendAhead(sign: int, d: Date): (n: nat)
    requires sign == 1 || sign == -1
    ensures n <= 2
    ensures IsWeekday(d + sign) <==> n == 0
  {
    var w := Weekday(d);
    WeekdayShift(d, sign);
    WeekdayShift(d, 2 * sign);
    if sign == 1 then (if w == 4 then 2 else if w == 5 then 1 else 0)
    else (if w == 0 then 2 else if w == 6 then 1 else 0)
  }

  /** Stepping onto a weekend day leaves one weekend day fewer ahead. */
  lemma WeekendAheadStep(sign: int, d: Date)
    requires sign == 1 || sign == -1
    ensures !IsWeekday(d + sign) ==> WeekendAhead(sign, d + sign) == WeekendAhead(sign, d) - 1
  {
    // Follows from the contract of `WeekendAhead`.
  }

  /** One step ahead leaves behind the entries equal to the new day and no
      others. */
  lemma {:induction false} SkipAheadStep(sign: int, d: Date, skip: seq<Date>)
    requires sign == 1 || sign == -1
    ensures d + sign in skip ==> SkipAhead(sign, d + sign, skip) < SkipAhead(sign, d, skip)
    ensures d + sign !in skip ==> SkipAhead(sign, d + sign, skip) == SkipAhead(sign, d, skip)
    decreases |skip|
  {
    if |skip| > 0 {
      SkipAheadStep(sign, d, skip[1..]);
      assert d + sign in skip <==> skip[0] == d + sign || d + sign in skip[1..];
    }
  }

  /** The measure bounding how far the search still walks. */
  function StepBound(sign: int, current: Date, remaining: int, skip: seq<Date>): (b: nat)
    requires sign == 1 || sign == -1
    ensures b <= 3 * (Abs(remaining) + |skip|) + 2
  {
    3 * (Abs(remaining) + SkipAhead(sign, current, skip)) + WeekendAhead(sign, current)
  }

  /** `iterate_days(current, remaining)`: step to the next day; a business
      day moves `remaining` one closer to 0; stop on the day it reaches 0.
      It returns a business day that is exactly `remaining` business days
      past `current` in direction `sign`, and walks at most `StepBound`
      days to get there. */
  function IterateDays(sign: int, current: Date, remaining: int, skip: seq<Date>): (r: Date)
    requires sign == 1 || sign == -1
    requires remaining != 0 && (remaining > 0 <==> sign == 1)
    ensures IsBusinessDay(r, skip)
    ensures sign == 1 ==> current < r && BusinessDaysIn(current + 1, r, skip) == remaining
    ensures sign == -1 ==> r < current && BusinessDaysIn(r, current - 1, skip) == -remaining
    ensures sign * (r - current) <= StepBound(sign, current, remaining, skip)
    decreases Abs(remaining), SkipAhead(sign, current, skip), WeekendAhead(sign, current)
  {
    var cur := current + sign;
    var remaining' := if IsBusinessDay(cur, skip) then remaining - sign else remaining;
    SkipAheadStep(sign, current, skip);
    WeekendAheadStep(sign, current);
    if remaining' == 0 then cur
    else
      var r := IterateDays(sign, cur, remaining', skip);
      if sign == 1 then BusinessDaysInLow(cur, r, skip); r else r
  }

  /** `business_days_from_now(days, start, skip)`. An absent `skip` is the
      empty sequence. */
  function BusinessDaysFromNow(days: int, start: Date, skip: seq<Date>): (r: Date)
    ensures days == 0 ==> r == start
    ensures days != 0 ==> IsBusinessDay(r, skip)
    ensures days > 0 ==> start < r && BusinessDaysIn(start + 1, r, skip) == days
    ensures days < 0 ==> r < start && BusinessDaysIn(r, start - 1, skip) == -days
    ensures Abs(r - start) <= 3 * (Abs(days) + |skip|) + 2
  {
    if days == 0 then start
    else
      var sign := if days > 0 then 1 else -1;
      IterateDays(sign, start, days, skip)
  }

  /** The result is the only business day after `start` that closes a run
      of exactly `days` business days. */
  lemma FromNowForwardUnique(days: int, start: Date, skip: seq<Date>, q: Date)
    requires days > 0
    requires IsBusinessDay(q, skip) && start < q && BusinessDaysIn(start + 1, q, skip) == days
    ensures q == BusinessDaysFromNow(days, start, skip)
  {
    var r := BusinessDaysFromNow(days, start, skip);
    if q < r {
      BusinessDaysInSplit(start + 1, q, r, skip);
      BusinessDaysInSplit(q + 1, r - 1, r, skip);
      assert false;
    } else if r < q {
      BusinessDaysInSplit(start + 1, r, q, skip);
      BusinessDaysInSplit(r + 1, q - 1, q, skip);
      assert false;
    }
  }

  /** The result is the only business day before `start` that closes a run
      of exactly `-days` business days. */
  lemma FromNowBackwardUnique(days: int, start: Date, skip: seq<Date>, q: Date)
    requires days < 0
    requires IsBusinessDay(q, skip) && q < start && BusinessDaysIn(q, start - 1, skip) == -days
    ensures q == BusinessDaysFromNow(days, start, skip)
  {
    var r := BusinessDaysFromNow(days, start, skip);
    if q < r {
      BusinessDaysInSplit(q, q, start - 1, skip);
      BusinessDaysInSplit(q + 1, r - 1, start - 1, skip);
      assert false;
    } else if r < q {
      BusinessDaysInSplit(r, r, start - 1, skip);
      BusinessDaysInSplit(r + 1, q - 1, start - 1, skip);
      assert false;
    }
  }
}
