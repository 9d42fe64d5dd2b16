/** Week and financial-year arithmetic of `src/utils/timeUtils.py`.
    The financial year starts on April 1; weeks run Monday to Sunday. */
module TimeUtils {
  import opened Calendar

  /** The Monday on or before day `d`: the only Monday among the seven days ending at `d`. */
  function MondayOnOrBefore(d: int): (m: int)
    ensures Weekday(m) == 1 && d - 6 <= m <= d
  {
    d - (d - 1) % 7
  }

  /** The Sunday on or after day `d`: the only Sunday among the seven days starting at `d`. */
  function SundayOnOrAfter(d: int): (s: int)
    ensures Weekday(s) == 0 && d <= s <= d + 6
  {
    d + 6 - (d + 6) % 7
  }

  /** No other day of the seven ending at `d` is a Monday. */
  lemma MondayUnique(d: int, m: int)
    requires Weekday(m) == 1 && d - 6 <= m <= d
    ensures m == MondayOnOrBefore(d)
  {
  }

  /** No other day of the seven starting at `d` is a Sunday. */
  lemma SundayUnique(d: int, s: int)
    requires Weekday(s) == 0 && d <= s <= d + 6
    ensures s == SundayOnOrAfter(d)
  {
  }

  /** A Monday is its own Monday, so the step back is idempotent. */
  lemma MondayIdempotent(d: int)
    ensures Weekday(d) == 1 ==> MondayOnOrBefore(d) == d
    ensures MondayOnOrBefore(MondayOnOrBefore(d)) == MondayOnOrBefore(d)
  {
  }

  /** Every day of a Monday-started week has that Monday as its Monday. */
  lemma MondayOfWeekDays(m: int, k: int)
    requires Weekday(m) == 1 && 0 <= k <= 6
    ensures MondayOnOrBefore(m + k) == m
  {
    MondayUnique(m + k, m);
  }

  /** The Sunday on or after a Monday ends that Monday's week. */
  lemma SundayAfterMonday(m: int)
    requires Weekday(m) == 1
    ensures SundayOnOrAfter(m) == m + 6
  {
    SundayUnique(m, m + 6);
  }

  /** Two Mondays are a whole number of weeks apart. */
  lemma MondaysWeeksApart(a: int, b: int)
    requires Weekday(a) == 1 && Weekday(b) == 1
    ensures (a - b) % 7 == 0
  {
  }

  /** The Monday on or before `d` is the latest Monday not after `d`. */
  lemma MondayIsLatest(m: int, d: int)
    requires Weekday(m) == 1 && m <= d
    ensures m <= MondayOnOrBefore(d)
  {
    MondaysWeeksApart(m, MondayOnOrBefore(d));
  }

  /** A later day never has an earlier Monday. */
  lemma MondayMonotone(a: int, b: int)
    requires a <= b
    ensures MondayOnOrBefore(a) <= MondayOnOrBefore(b)
  {
    MondayIsLatest(MondayOnOrBefore(a), b);
  }

  /** The day a week later has the Monday a week later. */
  lemma MondayNextWeek(d: int)
    ensures MondayOnOrBefore(d + 7) == MondayOnOrBefore(d) + 7
  {
    MondayUnique(d + 7, MondayOnOrBefore(d) + 7);
  }

  /** `getMondayBeforeDt`: step back one day at a time until `%w` is 1. */
  method GetMondayBeforeDt(inpDt: DateTime) returns (inpMonday: DateTime)
    ensures inpMonday == DateTime(MondayOnOrBefore(inpDt.ordinal), inpDt.secs)
  {
    inpMonday := inpDt;
    while Weekday(inpMonday.ordinal) != 1
      invariant inpMonday.secs == inpDt.secs
      invariant MondayOnOrBefore(inpDt.ordinal) <= inpMonday.ordinal <= inpDt.ordinal
      invariant MondayOnOrBefore(inpMonday.ordinal) == MondayOnOrBefore(inpDt.ordinal)
      decreases inpMonday.ordinal - MondayOnOrBefore(inpDt.ordinal)
    {
      inpMonday := AddDays(inpMonday, -1);
    }
  }

  /** The Monday of a Wednesday is two days before it, and so is the Monday of the
      Wednesday two weeks later. */
  lemma WednesdayMondays(s: int)
    requires Weekday(s) == 3
    ensures MondayOnOrBefore(s) == s - 2 && MondayOnOrBefore(s + 14) == s + 12
  {
    var q := s / 7;
    assert s - 2 == 7 * q + 1;
    assert s + 12 == 7 * (q + 2) + 1;
    MondayUnique(s, s - 2);
    MondayUnique(s + 14, s + 12);
  }

  /** `getSundayAfterDt`: step forward one day at a time until `%w` is 0. */
  method GetSundayAfterDt(inpDt: DateTime) returns (inpSunday: DateTime)
    ensures inpSunday == DateTime(SundayOnOrAfter(inpDt.ordinal), inpDt.secs)
  {
    inpSunday := inpDt;
    while Weekday(inpSunday.ordinal) != 0
      invariant inpSunday.secs == inpDt.secs
      invariant inpDt.ordinal <= inpSunday.ordinal <= SundayOnOrAfter(inpDt.ordinal)
      invariant SundayOnOrAfter(inpSunday.ordinal) == SundayOnOrAfter(inpDt.ordinal)
      decreases SundayOnOrAfter(inpDt.ordinal) - inpSunday.ordinal
    {
      inpSunday := AddDays(inpSunday, 1);
    }
  }

  /** The Monday on or before April 1 of calendar year `year`: the start of week 1. */
  function FinStartMonday(year: int): (m: int)
    ensures Weekday(m) == 1 && AprilFirst(year) - 6 <= m <= AprilFirst(year)
  {
    MondayOnOrBefore(AprilFirst(year))
  }

  /** `getWeekNumOfFinYr`: 1 + the number of whole weeks from the Monday on or before
      April 1 of the input's calendar year to the input's own Monday. Both are Mondays,
      so the day difference is a multiple of 7 and Python's float division is exact. */
  function WeekNumOfFinYr(inpDt: DateTime): (weekNum: int)
    ensures 7 * (weekNum - 1) == MondayOnOrBefore(inpDt.ordinal) - FinStartMonday(YearOf(inpDt.ordinal))
  {
    var inpMonday := MondayOnOrBefore(inpDt.ordinal);
    var finStartMonday := FinStartMonday(YearOf(inpDt.ordinal));
    MondaysWeeksApart(inpMonday, finStartMonday);
    1 + (inpMonday - finStartMonday) / 7
  }

  /** The financial year of day `d`: its calendar year from April on, the year before
      from January to March. */
  function FinYearOfDay(d: int): int {
    var y := YearOf(d);
    if DayOfYear(d) < DaysBeforeMonth(y, 4) then y - 1 else y
  }

  /** Stated with the month, as the source tests it: `year - 1` when `month < 4`. */
  lemma FinYearOfDayByMonth(d: int)
    ensures FinYearOfDay(d) == if MonthOf(d) < 4 then YearOf(d) - 1 else YearOf(d)
  {
    MonthBeforeApril(d);
  }

  /** Day `d` lies between April 1 of its financial year and April 1 of the next. */
  lemma FinYearOfDaySpan(d: int)
    ensures AprilFirst(FinYearOfDay(d)) <= d < AprilFirst(FinYearOfDay(d) + 1)
  {
    AprilBounds(d);
  }

  /** `getFinYearForDt`: the financial year in which the Sunday of the input's week falls. */
  function FinYearForDt(inpDt: DateTime): int {
    FinYearOfDay(MondayOnOrBefore(inpDt.ordinal) + 6)
  }

  /** Financial years do not overlap: the year whose April-to-March span holds
      day `d` is the financial year of `d`. */
  lemma FinYearOfDayUnique(d: int, y: int)
    requires AprilFirst(y) <= d < AprilFirst(y + 1)
    ensures FinYearOfDay(d) == y
  {
    FinYearOfDaySpan(d);
    AprilSpanUnique(d, FinYearOfDay(d), y);
  }

  /** The year whose April-to-March span holds the week's Sunday is the one
      `getFinYearForDt` returns. */
  lemma FinYearUnique(inpDt: DateTime, y: int)
    requires AprilFirst(y) <= MondayOnOrBefore(inpDt.ordinal) + 6 < AprilFirst(y + 1)
    ensures FinYearForDt(inpDt) == y
  {
    FinYearOfDayUnique(MondayOnOrBefore(inpDt.ordinal) + 6, y);
  }

  /** Dates with the same Monday have the same financial year. */
  lemma FinYearOfSameWeek(a: DateTime, b: DateTime)
    requires MondayOnOrBefore(a.ordinal) == MondayOnOrBefore(b.ordinal)
    ensures FinYearForDt(a) == FinYearForDt(b)
  {
  }

  /** The financial year is the same on every day of a Monday-to-Sunday week
      and for every time of day. */
  lemma FinYearConstantOnWeek(inpDt: DateTime, other: DateTime)
    requires MondayOnOrBefore(inpDt.ordinal) <= other.ordinal <= MondayOnOrBefore(inpDt.ordinal) + 6
    ensures FinYearForDt(other) == FinYearForDt(inpDt)
  {
    MondayUnique(other.ordinal, MondayOnOrBefore(inpDt.ordinal));
    FinYearOfSameWeek(other, inpDt);
  }

  /** Within one calendar year, week numbers differ by the number of weeks
      between the two dates' Mondays. */
  lemma WeekNumDifference(a: DateTime, b: DateTime)
    requires YearOf(a.ordinal) == YearOf(b.ordinal)
    ensures 7 * (WeekNumOfFinYr(b) - WeekNumOfFinYr(a))
      == MondayOnOrBefore(b.ordinal) - MondayOnOrBefore(a.ordinal)
  {
  }

  /** The next week of the same calendar year has the next week number. */
  lemma WeekNumNextWeek(a: DateTime, b: DateTime)
    requires b.ordinal == a.ordinal + 7 && YearOf(b.ordinal) == YearOf(a.ordinal)
    ensures WeekNumOfFinYr(b) == WeekNumOfFinYr(a) + 1
  {
    MondayNextWeek(a.ordinal);
    WeekNumDifference(a, b);
  }

  /** Week 1 is the week holding April 1. */
  lemma WeekNumFirstWeek(d: DateTime)
    requires FinStartMonday(YearOf(d.ordinal)) <= d.ordinal <= FinStartMonday(YearOf(d.ordinal)) + 6
    ensures WeekNumOfFinYr(d) == 1
  {
    MondayOfWeekDays(FinStartMonday(YearOf(d.ordinal)), d.ordinal - FinStartMonday(YearOf(d.ordinal)));
  }

  /** From April to December the week number is positive. */
  lemma WeekNumAprilOnwards(d: DateTime)
    requires MonthOf(d.ordinal) >= 4
    ensures WeekNumOfFinYr(d) >= 1
  {
    MonthBeforeApril(d.ordinal);
    AprilBounds(d.ordinal);
    MondayMonotone(AprilFirst(YearOf(d.ordinal)), d.ordinal);
  }

  /** From January to March the week number is at most 1, and it is 0 or less as soon as
      the date's Monday comes before the Monday of April 1 of the same calendar year.
      So these dates do not continue the numbering of the financial year they belong to. */
  lemma WeekNumBeforeApril(d: DateTime)
    requires MonthOf(d.ordinal) < 4
    ensures WeekNumOfFinYr(d) <= 1
    ensures MondayOnOrBefore(d.ordinal) < FinStartMonday(YearOf(d.ordinal)) ==> WeekNumOfFinYr(d) <= 0
  {
    MonthBeforeApril(d.ordinal);
    AprilBounds(d.ordinal);
    MondayMonotone(d.ordinal, AprilFirst(YearOf(d.ordinal)));
  }

  /** 2020-04-01 is a Wednesday, so week 1 of financial year 2020-21 starts on 2020-03-30. */
  lemma FinStartMonday2020()
    ensures AprilFirst(2020) == 737516 && FinStartMonday(2020) == 737514
  {
    assert AprilFirst(2020) == 737516;
  }

  /** The weekday of 2020-10-01 is Thursday; its week runs from 2020-09-28 to 2020-10-04. */
  lemma MondayBeforeExample()
    ensures MondayOnOrBefore(Date(2020, 10, 1).ordinal) == Date(2020, 9, 28).ordinal
    ensures SundayOnOrAfter(Date(2020, 10, 1).ordinal) == Date(2020, 10, 4).ordinal
  {
    assert Date(2020, 10, 1).ordinal == 737699;
    assert Date(2020, 9, 28).ordinal == 737696;
    assert Date(2020, 10, 4).ordinal == 737702;
  }

  lemma WeekNumExample()
    ensures WeekNumOfFinYr(Date(2020, 8, 10)) == 20
  {
    assert Date(2020, 8, 10).ordinal == 737647;
    DateFields(2020, 8, 10);
    FinStartMonday2020();
  }

  /** 2020-03-31 is a Tuesday whose week ends on Sunday 2020-04-05, in financial year 2020. */
  lemma FinYearExample()
    ensures FinYearForDt(Date(2020, 3, 31)) == 2020
  {
    assert Date(2020, 3, 31).ordinal == 737515;
    FinStartMonday2020();
    assert AprilFirst(2021) == 737881;
    FinYearUnique(Date(2020, 3, 31), 2020);
  }

  /** 2021-02-01 belongs to financial year 2020-21, yet its week number is -7. */
  lemma WeekNumJanuaryExample()
    ensures FinYearForDt(Date(2021, 2, 1)) == 2020
    ensures WeekNumOfFinYr(Date(2021, 2, 1)) == -7
  {
    assert Date(2021, 2, 1).ordinal == 737822;
    DateFields(2021, 2, 1);
    FinStartMonday2020();
    assert AprilFirst(2021) == 737881;
    assert FinStartMonday(2021) == 737878;
    FinYearUnique(Date(2021, 2, 1), 2020);
  }

  /** One week (2019-12-30 to 2020-01-05), two week numbers: the week number is not
      constant over a week, unlike the financial year. */
  lemma WeekNumSplitsYearEndWeek()
    ensures MondayOnOrBefore(Date(2020, 1, 1).ordinal) == Date(2019, 12, 30).ordinal
    ensures WeekNumOfFinYr(Date(2019, 12, 30)) == 40
    ensures WeekNumOfFinYr(Date(2020, 1, 1)) == -12
  {
    assert Date(2019, 12, 30).ordinal == 737423;
    assert Date(2020, 1, 1).ordinal == 737425;
    DateFields(2019, 12, 30);
    DateFields(2020, 1, 1);
    FinStartMonday2020();
    assert AprilFirst(2019) == 737150;
    assert FinStartMonday(2019) == 737150;
  }
}
