/** The proleptic Gregorian calendar of Python's `datetime` module.
    A date is its ordinal day number, as `date.toordinal()` gives it
    (0001-01-01 is day 1); a datetime adds the second of that day. */
module Calendar {

  type SecondOfDay = s: int | 0 <= s < 86400

  /** A `datetime.datetime` to the second: ordinal day and second of the day. */
  datatype DateTime = DateTime(ordinal: int, secs: SecondOfDay)

  /** A year and a 0-based day of that year. */
  datatype YearDay = YearDay(year: int, dayOfYear: int)

  /** A calendar date as (year, month, day of month). */
  datatype Civil = Civil(year: int, month: int, dayOfMonth: int)

  /** `strftime('%w')`: 0 is Sunday, 1 is Monday, ..., 6 is Saturday. */
  function Weekday(ordinal: int): (w: int)
    ensures 0 <= w < 7
  {
    ordinal % 7
  }

  /** `dt + timedelta(days=k)`: whole days, the time of day is kept. */
  function AddDays(d: DateTime, k: int): (r: DateTime)
    ensures r.ordinal == d.ordinal + k && r.secs == d.secs
  {
    DateTime(d.ordinal + k, d.secs)
  }

  /** `a <= b` on datetimes: by day, then by time of day. */
  predicate LessEq(a: DateTime, b: DateTime) {
    a.ordinal < b.ordinal || (a.ordinal == b.ordinal && a.secs <= b.secs)
  }

  predicate IsLeapYear(y: int) {
    y % 4 == 0 && (y % 100 != 0 || y % 400 == 0)
  }

  function DaysInYear(y: int): int {
    if IsLeapYear(y) then 366 else 365
  }

  function DaysInMonth(y: int, m: int): (n: int)
    requires 1 <= m <= 12
    ensures 28 <= n <= 31
  {
    if m == 2 then (if IsLeapYear(y) then 29 else 28)
    else if m == 4 || m == 6 || m == 9 || m == 11 then 30
    else 31
  }

  /** Days of year `y` before the first of month `m`. */
  function DaysBeforeMonth(y: int, m: int): (n: int)
    requires 1 <= m <= 12
    ensures 0 <= n <= 335
    ensures m == 12 ==> n + DaysInMonth(y, m) == DaysInYear(y)
  {
    // 0, 31, 59, 90, 120, 151, 181, 212, 243, 273, 304, 334 in a common year
    (367 * m - 362) / 12 - (if m <= 2 then 0 else if IsLeapYear(y) then 1 else 2)
  }

  lemma DaysBeforeNextMonth(y: int, m: int)
    requires 1 <= m < 12
    ensures DaysBeforeMonth(y, m + 1) == DaysBeforeMonth(y, m) + DaysInMonth(y, m)
  {
  }

  /** Days before January 1 of year `y`, counted from 0001-01-01. */
  function DaysBeforeYear(y: int): int {
    var p := y - 1;
    365 * p + p / 4 - p / 100 + p / 400
  }

  predicate ValidCivil(c: Civil) {
    1 <= c.month <= 12 && 1 <= c.dayOfMonth <= DaysInMonth(c.year, c.month)
  }

  /** `date(y, m, d).toordinal()`. */
  function ToOrdinal(c: Civil): int
    requires ValidCivil(c)
  {
    DaysBeforeYear(c.year) + DaysBeforeMonth(c.year, c.month) + c.dayOfMonth
  }

  /** Each year is as long as the leap-year rule says. */
  lemma YearLength(y: int)
    ensures DaysBeforeYear(y + 1) == DaysBeforeYear(y) + DaysInYear(y)
  {
    DivStep4(y);
    DivStep100(y);
    DivStep400(y);
  }

  lemma DivStep4(y: int)
    ensures y / 4 - (y - 1) / 4 == (if y % 4 == 0 then 1 else 0)
  {
    var p := y - 1;
    if p % 4 == 3 { DivMod4(p / 4 + 1, 0); } else { DivMod4(p / 4, p % 4 + 1); }
  }

  lemma DivStep100(y: int)
    ensures y / 100 - (y - 1) / 100 == (if y % 100 == 0 then 1 else 0)
  {
    var p := y - 1;
    if p % 100 == 99 { DivMod100(p / 100 + 1, 0); } else { DivMod100(p / 100, p % 100 + 1); }
  }

  lemma DivStep400(y: int)
    ensures y / 400 - (y - 1) / 400 == (if y % 400 == 0 then 1 else 0)
  {
    var p := y - 1;
    if p % 400 == 399 { DivMod400(p / 400 + 1, 0); } else { DivMod400(p / 400, p % 400 + 1); }
  }

  lemma {:induction false} DaysBeforeYearMonotone(a: int, b: int)
    requires a <= b
    ensures DaysBeforeYear(a) + 365 * (b - a) <= DaysBeforeYear(b)
    decreases b - a
  {
    if a < b {
      DaysBeforeYearMonotone(a, b - 1);
      YearLength(b - 1);
    }
  }

  /** The ordinal of a valid date lies inside its year. */
  lemma OrdinalInYear(c: Civil)
    requires ValidCivil(c)
    ensures DaysBeforeYear(c.year) < ToOrdinal(c) <= DaysBeforeYear(c.year + 1)
  {
    YearLength(c.year);
    DaysBeforeMonthEnd(c.year, c.month);
  }

  lemma {:induction false} DaysBeforeMonthEnd(y: int, m: int)
    requires 1 <= m <= 12
    ensures DaysBeforeMonth(y, m) + DaysInMonth(y, m) <= DaysInYear(y)
    decreases 12 - m
  {
    if m < 12 {
      DaysBeforeNextMonth(y, m);
      DaysBeforeMonthEnd(y, m + 1);
    }
  }

  lemma {:induction false} DaysBeforeMonthMonotone(y: int, m1: int, m2: int)
    requires 1 <= m1 < m2 <= 12
    ensures DaysBeforeMonth(y, m1) + DaysInMonth(y, m1) <= DaysBeforeMonth(y, m2)
    decreases m2 - m1
  {
    DaysBeforeNextMonth(y, m1);
    if m1 + 1 < m2 { DaysBeforeMonthMonotone(y, m1 + 1, m2); }
  }

  /** Later dates have larger ordinals. */
  lemma OrdinalOrder(c1: Civil, c2: Civil)
    requires ValidCivil(c1) && ValidCivil(c2)
    requires c1.year < c2.year
      || (c1.year == c2.year && c1.month < c2.month)
      || (c1.year == c2.year && c1.month == c2.month && c1.dayOfMonth < c2.dayOfMonth)
    ensures ToOrdinal(c1) < ToOrdinal(c2)
  {
    if c1.year < c2.year {
      OrdinalInYear(c1);
      OrdinalInYear(c2);
      DaysBeforeYearMonotone(c1.year + 1, c2.year);
    } else if c1.month < c2.month {
      DaysBeforeMonthMonotone(c1.year, c1.month, c2.month);
    }
  }

  /** Distinct valid dates have distinct ordinals. */
  lemma OrdinalInjective(c1: Civil, c2: Civil)
    requires ValidCivil(c1) && ValidCivil(c2) && ToOrdinal(c1) == ToOrdinal(c2)
    ensures c1 == c2
  {
    if c1 != c2 {
      if c1.year < c2.year || (c1.year == c2.year && c1.month < c2.month)
        || (c1.year == c2.year && c1.month == c2.month && c1.dayOfMonth < c2.dayOfMonth)
      {
        OrdinalOrder(c1, c2);
      } else {
        OrdinalOrder(c2, c1);
      }
    }
  }

  lemma DivMod4(a: int, r: int)
    requires 0 <= r < 4
    ensures (4 * a + r) / 4 == a && (4 * a + r) % 4 == r
  {
  }

  lemma DivMod100(a: int, r: int)
    requires 0 <= r < 100
    ensures (100 * a + r) / 100 == a && (100 * a + r) % 100 == r
  {
  }

  lemma DivMod400(a: int, r: int)
    requires 0 <= r < 400
    ensures (400 * a + r) / 400 == a && (400 * a + r) % 400 == r
  {
  }

  /** The first day of year `400*q400 + 100*q100 + 4*q4 + q1 + 1` inside one 400-year cycle. */
  lemma CycleYearStart(q400: int, q100: int, q4: int, q1: int)
    requires 0 <= q100 <= 3 && 0 <= q4 <= 24 && 0 <= q1 <= 3
    ensures DaysBeforeYear(400 * q400 + 100 * q100 + 4 * q4 + q1 + 1)
      == 146097 * q400 + 36524 * q100 + 1461 * q4 + 365 * q1
  {
    DivMod4(100 * q400 + 25 * q100 + q4, q1);
    DivMod100(4 * q400 + q100, 4 * q4 + q1);
    DivMod400(q400, 100 * q100 + 4 * q4 + q1);
  }

  /** Which years of a 400-year cycle are leap years. */
  lemma CycleYearLeap(q400: int, q100: int, q4: int, q1: int)
    requires 0 <= q100 <= 3 && 0 <= q4 <= 24 && 0 <= q1 <= 3
    ensures IsLeapYear(400 * q400 + 100 * q100 + 4 * q4 + q1 + 1)
      <==> q1 == 3 && (q4 != 24 || q100 == 3)
  {
    if q1 == 3 {
      DivMod4(100 * q400 + 25 * q100 + q4 + 1, 0);
    } else {
      DivMod4(100 * q400 + 25 * q100 + q4, q1 + 1);
    }
    if q4 == 24 && q1 == 3 {
      DivMod100(4 * q400 + q100 + 1, 0);
    } else {
      DivMod100(4 * q400 + q100, 4 * q4 + q1 + 1);
    }
    if q100 == 3 && q4 == 24 && q1 == 3 {
      DivMod400(q400 + 1, 0);
    } else {
      DivMod400(q400, 100 * q100 + 4 * q4 + q1 + 1);
    }
  }

  /** The year holding day `n` and the 0-based day of that year, by the
      400/100/4/1-year decomposition Python's `date.fromordinal` uses. */
  function YearAndDay(n: int): YearDay {
    var n0 := n - 1;
    var q400, r400 := n0 / 146097, n0 % 146097;
    var q100, r100 := r400 / 36524, r400 % 36524;
    var q4, r4 := r100 / 1461, r100 % 1461;
    var q1, r1 := r4 / 365, r4 % 365;
    CycleYearDay(q400, q100, q4, q1, r1)
  }

  /** The year and day reached after `q400` 400-year cycles, `q100` centuries, `q4`
      4-year cycles, `q1` years and `r1` days. */
  function CycleYearDay(q400: int, q100: int, q4: int, q1: int, r1: int): YearDay {
    var y := 400 * q400 + 100 * q100 + 4 * q4 + q1 + 1;
    // the last day of a 400-year or of a 4-year cycle is December 31 of a leap year
    if q100 == 4 || q1 == 4 then YearDay(y - 1, 365) else YearDay(y, r1)
  }

  lemma CycleYearDayCorrect(q400: int, q100: int, q4: int, q1: int, r1: int)
    requires 0 <= q100 <= 4 && 0 <= q4 <= 24 && 0 <= q1 <= 4 && 0 <= r1 < 365
    requires q100 == 4 ==> q4 == 0 && q1 == 0 && r1 == 0
    requires q1 == 4 ==> r1 == 0
    requires q4 == 24 ==> q1 <= 3
    ensures var yd := CycleYearDay(q400, q100, q4, q1, r1);
      && DaysBeforeYear(yd.year) + yd.dayOfYear == 146097 * q400 + 36524 * q100 + 1461 * q4 + 365 * q1 + r1
      && 0 <= yd.dayOfYear < DaysInYear(yd.year)
  {
    if q100 == 4 {
      LastDayOfCycle(q400, 3, 24);
    } else if q1 == 4 {
      LastDayOfCycle(q400, q100, q4);
    } else {
      CycleYearStart(q400, q100, q4, q1);
      CycleYearLeap(q400, q100, q4, q1);
    }
  }

  /** Day `n` is day `doy` of year `y`: the decomposition inverts `DaysBeforeYear`. */
  lemma YearAndDayCorrect(n: int)
    ensures var yd := YearAndDay(n);
      DaysBeforeYear(yd.year) + yd.dayOfYear == n - 1 && 0 <= yd.dayOfYear < DaysInYear(yd.year)
  {
    var n0 := n - 1;
    var q400, r400 := n0 / 146097, n0 % 146097;
    var q100, r100 := r400 / 36524, r400 % 36524;
    var q4, r4 := r100 / 1461, r100 % 1461;
    var q1, r1 := r4 / 365, r4 % 365;
    CycleYearDayCorrect(q400, q100, q4, q1, r1);
  }

  /** The fourth year of a 4-year cycle is a leap year whose first day is 3 * 365 days on. */
  lemma LastDayOfCycle(q400: int, q100: int, q4: int)
    requires 0 <= q100 <= 3 && 0 <= q4 <= 24 && (q4 == 24 ==> q100 == 3)
    ensures var y := 400 * q400 + 100 * q100 + 4 * q4 + 4;
      DaysBeforeYear(y) == 146097 * q400 + 36524 * q100 + 1461 * q4 + 3 * 365 && IsLeapYear(y)
  {
    CycleYearStart(q400, q100, q4, 3);
    CycleYearLeap(q400, q100, q4, 3);
  }

  /** The month holding day `doy` (0-based) of year `y`, found as `date.fromordinal`
      does: the estimate `(doy + 50) >> 5` is the month or the month after it. */
  function MonthOfDay(y: int, doy: int): (month: int)
    requires 0 <= doy < DaysInYear(y)
    ensures 1 <= month <= 12
  {
    var estimate := (doy + 50) / 32;
    if DaysBeforeMonth(y, estimate) > doy then estimate - 1 else estimate
  }

  /** The month `MonthOfDay` finds holds the day. */
  lemma MonthOfDayCorrect(y: int, doy: int)
    requires 0 <= doy < DaysInYear(y)
    ensures var m := MonthOfDay(y, doy);
      DaysBeforeMonth(y, m) <= doy < DaysBeforeMonth(y, m) + DaysInMonth(y, m)
  {
  }

  /** The date of day `doy` (0-based) of year `y`. */
  function CivilOfDay(y: int, doy: int): (c: Civil)
    requires 0 <= doy < DaysInYear(y)
    ensures ValidCivil(c) && c.year == y
    ensures DaysBeforeMonth(y, c.month) + c.dayOfMonth == doy + 1
  {
    MonthOfDayCorrect(y, doy);
    var m := MonthOfDay(y, doy);
    Civil(y, m, doy + 1 - DaysBeforeMonth(y, m))
  }

  /** `date.fromordinal(n)`. That the result has ordinal `n` is lemma ToFromOrdinal. */
  function FromOrdinal(n: int): (c: Civil)
    ensures ValidCivil(c)
  {
    YearAndDayCorrect(n);
    var yd := YearAndDay(n);
    CivilOfDay(yd.year, yd.dayOfYear)
  }

  /** The date `FromOrdinal` finds has the ordinal it was given. */
  lemma ToFromOrdinal(n: int)
    ensures ToOrdinal(FromOrdinal(n)) == n
  {
    YearAndDayCorrect(n);
  }

  /** Converting a valid date to its ordinal and back gives the date again. */
  lemma FromToOrdinal(c: Civil)
    requires ValidCivil(c)
    ensures FromOrdinal(ToOrdinal(c)) == c
  {
    ToFromOrdinal(ToOrdinal(c));
    OrdinalInjective(FromOrdinal(ToOrdinal(c)), c);
  }

  /** `dt.year`. */
  function YearOf(ordinal: int): int { YearAndDay(ordinal).year }

  /** The 0-based day of the year, `dt.timetuple().tm_yday - 1`. */
  function DayOfYear(ordinal: int): int { YearAndDay(ordinal).dayOfYear }

  /** The year `YearOf` reads off is the year of the date `FromOrdinal` builds. */
  lemma YearOfFromOrdinal(n: int)
    ensures YearOf(n) == FromOrdinal(n).year
  {
  }

  /** A day of the year comes before April exactly when fewer days than the days
      of January to March precede it. */
  lemma MonthBeforeApril(n: int)
    ensures MonthOf(n) < 4 <==> DayOfYear(n) < DaysBeforeMonth(YearOf(n), 4)
  {
    YearAndDayCorrect(n);
    var c := FromOrdinal(n);
    if c.month < 4 {
      DaysBeforeMonthMonotone(c.year, c.month, 4);
    } else if c.month > 4 {
      DaysBeforeMonthMonotone(c.year, 4, c.month);
    }
  }

  /** `dt.month`. */
  function MonthOf(ordinal: int): (m: int)
    ensures 1 <= m <= 12
  {
    FromOrdinal(ordinal).month
  }

  /** `dt.day`. */
  function DayOfMonth(ordinal: int): (d: int)
    ensures 1 <= d <= 31
  {
    FromOrdinal(ordinal).dayOfMonth
  }

  /** Two days with the same year, month and day of the month are the same day. */
  lemma FieldsDetermineOrdinal(a: int, b: int)
    requires YearOf(a) == YearOf(b) && MonthOf(a) == MonthOf(b) && DayOfMonth(a) == DayOfMonth(b)
    ensures a == b
  {
    YearOfFromOrdinal(a);
    YearOfFromOrdinal(b);
    ToFromOrdinal(a);
    ToFromOrdinal(b);
    assert FromOrdinal(a) == FromOrdinal(b);
  }

  /** `datetime(y, m, d)`: midnight of that date. */
  function Date(y: int, m: int, d: int): DateTime
    requires ValidCivil(Civil(y, m, d))
  {
    DateTime(ToOrdinal(Civil(y, m, d)), 0)
  }

  /** The year, month and day of `datetime(y, m, d)` are `y`, `m` and `d`. */
  lemma DateFields(y: int, m: int, d: int)
    requires ValidCivil(Civil(y, m, d))
    ensures YearOf(Date(y, m, d).ordinal) == y
    ensures MonthOf(Date(y, m, d).ordinal) == m
    ensures DayOfMonth(Date(y, m, d).ordinal) == d
  {
    FromToOrdinal(Civil(y, m, d));
  }

  /** The ordinal of April 1 in year `y`, the first day of financial year `y`. */
  function AprilFirst(y: int): int {
    ToOrdinal(Civil(y, 4, 1))
  }

  /** A date falls in financial year `y` of its calendar year exactly when it does not
      come before April; January to March belong to the financial year before. */
  lemma AprilBounds(n: int)
    ensures var y := YearOf(n);
      DayOfYear(n) >= DaysBeforeMonth(y, 4) ==> AprilFirst(y) <= n < AprilFirst(y + 1)
    ensures var y := YearOf(n);
      DayOfYear(n) < DaysBeforeMonth(y, 4) ==> AprilFirst(y - 1) <= n < AprilFirst(y)
  {
    YearAndDayCorrect(n);
    var y := YearOf(n);
    YearLength(y);
    YearLength(y - 1);
  }

  /** April firsts of later years are later. */
  lemma AprilFirstMonotone(a: int, b: int)
    requires a < b
    ensures AprilFirst(a) < AprilFirst(b)
  {
    DaysBeforeYearMonotone(a, b);
    assert DaysBeforeMonth(a, 4) <= DaysBeforeMonth(b, 4) + 1;
  }

  /** A day lies in the April-to-March span of one year only. */
  lemma AprilSpanUnique(n: int, a: int, b: int)
    requires AprilFirst(a) <= n < AprilFirst(a + 1)
    requires AprilFirst(b) <= n < AprilFirst(b + 1)
    ensures a == b
  {
    if a < b { AprilFirstNotBefore(a, b); }
    if b < a { AprilFirstNotBefore(b, a); }
  }

  lemma AprilFirstNotBefore(a: int, b: int)
    requires a < b
    ensures AprilFirst(a + 1) <= AprilFirst(b)
  {
    if a + 1 < b { AprilFirstMonotone(a + 1, b); }
  }
}
