/** Concrete scenarios from the repository's tests and docstrings. Each
    date is a named ordinal, and the ScenarioDates lemmas tie every name to
    its year-month-day triple. */
module Scenarios {
  import opened Calendar
  import opened WeekdaySpan
  import opened HolidayFilter
  import opened IntervalCounter
  import opened OffsetResolver

  const Dec27_1999: Date := 730115
  const Jan01_2000: Date := 730120
  const Jan02_2000: Date := 730121
  const Jan01_2015: Date := 735599
  const Jan02_2015: Date := 735600
  const Jan01_2016: Date := 735964
  const Dec01_2016: Date := 736299
  const Dec30_2016: Date := 736328
  const Dec31_2016: Date := 736329
  const Jan01_2017: Date := 736330
  const Jan02_2017: Date := 736331
  const Jan03_2017: Date := 736332
  const Jan04_2017: Date := 736333
  const Jan05_2017: Date := 736334
  const Jan07_2017: Date := 736336
  const Jan08_2017: Date := 736337
  const Jan14_2017: Date := 736343
  const Jan15_2017: Date := 736344
  const Jan16_2017: Date := 736345
  const Oct17_2017: Date := 736619
  const Oct19_2017: Date := 736621
  const Jan01_2018: Date := 736695
  const Jan01_2019: Date := 737060

  lemma ScenarioDates0()
    ensures Ordinal(1999, 12, 27) == Dec27_1999
    ensures Ordinal(2000, 1, 1) == Jan01_2000
    ensures Ordinal(2000, 1, 2) == Jan02_2000
    ensures Ordinal(2015, 1, 1) == Jan01_2015
  {
  }

  lemma ScenarioDates1()
    ensures Ordinal(2015, 1, 2) == Jan02_2015
    ensures Ordinal(2016, 1, 1) == Jan01_2016
    ensures Ordinal(2016, 12, 1) == Dec01_2016
    ensures Ordinal(2016, 12, 30) == Dec30_2016
  {
  }

  lemma ScenarioDates2()
    ensures Ordinal(2016, 12, 31) == Dec31_2016
    ensures Ordinal(2017, 1, 1) == Jan01_2017
    ensures Ordinal(2017, 1, 2) == Jan02_2017
    ensures Ordinal(2017, 1, 3) == Jan03_2017
  {
  }

  lemma ScenarioDates3()
    ensures Ordinal(2017, 1, 4) == Jan04_2017
    ensures Ordinal(2017, 1, 5) == Jan05_2017
    ensures Ordinal(2017, 1, 7) == Jan07_2017
    ensures Ordinal(2017, 1, 8) == Jan08_2017
  {
  }

  lemma ScenarioDates4()
    ensures Ordinal(2017, 1, 14) == Jan14_2017
    ensures Ordinal(2017, 1, 15) == Jan15_2017
    ensures Ordinal(2017, 1, 16) == Jan16_2017
    ensures Ordinal(2017, 10, 17) == Oct17_2017
  {
  }

  lemma ScenarioDates5()
    ensures Ordinal(2017, 10, 19) == Oct19_2017
    ensures Ordinal(2018, 1, 1) == Jan01_2018
    ensures Ordinal(2019, 1, 1) == Jan01_2019
  {
  }

  /** 0001-01-01 is ordinal 1 ... */
  lemma OrdinalOfDayOne()
    ensures Ordinal(1, 1, 1) == 1
  {
  }

  /** ... and it is a Monday. */
  lemma DayOneIsMonday()
    ensures Weekday(1) == 0
  {
  }

  lemma ScenarioWeekdays()
    ensures Weekday(Jan01_2000) == 5 && Weekday(Jan01_2017) == 6 && Weekday(Dec27_1999) == 0
  {
  }

  lemma WeekdaysCases()
    ensures Weekdays(0, 6) == Ok(5)
    ensures Weekdays(6, 0) == Ok(1)
    ensures Weekdays(5, 0) == Ok(1)
    ensures Weekdays(1, 4) == Ok(4)
    ensures Weekdays(5, 6) == Ok(0)
    ensures Weekdays(4, 3) == Ok(5)
    ensures Weekdays(5, 5) == Ok(0)
    ensures Weekdays(6, 5) == Ok(6)
    ensures Weekdays(-1, 3) == ValueError && Weekdays(0, 7) == ValueError
  {
  }

  lemma HolidayCountCases()
    ensures HolidayCount(Jan01_2015, Jan01_2017, [Jan01_2018]) == 0
    ensures HolidayCount(Jan01_2015, Jan01_2017, [Jan01_2017]) == 0
    ensures HolidayCount(Jan01_2015, Jan01_2017, [Dec30_2016]) == 1
    ensures HolidayCount(Jan01_2015, Jan01_2017, [Dec30_2016, Jan01_2019]) == 1
    ensures HolidayCount(Jan01_2015, Jan01_2017, [Dec30_2016, Dec01_2016]) == 2
    ensures HolidayCount(Jan01_2015, Jan01_2017, [Dec30_2016, Dec30_2016]) == 2
  {
  }

  lemma IntervalCasesNoSkips()
    ensures BusinessDaysInterval(Jan01_2000, Jan02_2000, []) == 0
    ensures BusinessDaysInterval(Jan01_2016, Jan02_2015, []) == 0
    ensures BusinessDaysInterval(Dec31_2016, Jan14_2017, []) == 10
    ensures BusinessDaysInterval(Dec31_2016, Jan15_2017, []) == 10
    ensures BusinessDaysInterval(Dec31_2016, Jan16_2017, []) == 11
  {
  }

  /** The first case passes `[]`; an absent list is the same sequence. */
  lemma IntervalCasesWithSkips()
    ensures BusinessDaysInterval(Jan01_2000, Jan02_2000, []) == 0
    ensures BusinessDaysInterval(Jan01_2016, Jan02_2015, [Jan01_2016]) == 0
    ensures BusinessDaysInterval(Dec31_2016, Jan14_2017, [Jan01_2017]) == 10
    ensures BusinessDaysInterval(Dec31_2016, Jan14_2017, [Jan03_2017]) == 9
    ensures BusinessDaysInterval(Dec31_2016, Jan15_2017, [Jan03_2017, Jan05_2017]) == 8
  {
  }

  /** Sunday 2017-01-01 to Saturday 2017-01-07 counts 6 business days, one
      more than the five weekdays it holds; widening the range by the
      following Sunday lowers the count to 5. */
  lemma SundayToSaturdayExcess()
    ensures BusinessDaysInterval(Jan01_2017, Jan07_2017, []) == 6
    ensures BusinessDaysIn(Jan01_2017, Jan07_2017, []) == 5
    ensures BusinessDaysInterval(Jan01_2017, Jan08_2017, []) == 5
  {
  }

  lemma FromNowCases()
    ensures BusinessDaysFromNow(-5, Jan01_2000, []) == Dec27_1999
    ensures BusinessDaysFromNow(0, Jan01_2000, []) == Jan01_2000
    ensures BusinessDaysFromNow(1, Jan01_2017, []) == Jan02_2017
    ensures BusinessDaysFromNow(1, Jan03_2017, []) == Jan04_2017
    ensures BusinessDaysFromNow(2, Oct17_2017, []) == Oct19_2017
  {
    assert BusinessDaysIn(Dec27_1999, Dec27_1999 + 1, []) == 2;
    assert BusinessDaysIn(Dec27_1999, Dec27_1999 + 3, []) == 4;
    FromNowBackwardUnique(-5, Jan01_2000, [], Dec27_1999);
    FromNowForwardUnique(1, Jan01_2017, [], Jan02_2017);
    FromNowForwardUnique(1, Jan03_2017, [], Jan04_2017);
    FromNowForwardUnique(2, Oct17_2017, [], Oct19_2017);
  }

  /** An extra check beyond the tests: a weekday holiday is stepped over
      like a weekend day. */
  lemma FromNowSkipsHoliday()
    ensures BusinessDaysFromNow(1, Jan02_2017, [Jan03_2017]) == Jan04_2017
  {
    FromNowForwardUnique(1, Jan02_2017, [Jan03_2017], Jan04_2017);
  }
}
