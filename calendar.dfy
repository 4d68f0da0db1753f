/**
 * The calendar split applied to every kept event: a millisecond instant since
 * 1970-01-01T00:00:00 UTC becomes (hour, day, ISO week, month, year, weekday)
 * in the proleptic Gregorian calendar.
 *
 * Days are counted from 0001-01-01 and split into 400-, 100-, 4- and 1-year
 * cycles; the result is proved against a closed-form count of the days before
 * a year and a table of month lengths, in both directions. ISO 8601 week
 * numbers use the Thursday rule: a Monday-to-Sunday week belongs to the year
 * that holds its Thursday, and week 1 is the one holding that year's first
 * Thursday.
 */
module Calendar {

  const MsPerHour: nat := 3_600_000
  const MsPerDay: nat := 86_400_000
  /** Days from 0001-01-01 up to 1970-01-01. */
  const EpochOrdinal: nat := 719_162
  /** Weekday of 1970-01-01 (a Thursday), counting Monday as 0. */
  const EpochWeekday: nat := 3
  const NsPerMs: nat := 1_000_000
  /** The largest nanosecond count a pandas timestamp holds: 2^63 - 1. */
  const MaxNanoseconds: nat := 0x7FFF_FFFF_FFFF_FFFF

  /** pandas can turn `ts` milliseconds into a timestamp: in nanoseconds it fits 64 bits. */
  predicate InDatetimeRange(ts: nat) {
    ts * NsPerMs <= MaxNanoseconds
  }

  datatype Date = Date(year: int, month: int, day: int)

  /** A year and a 0-based day within it (0 is January 1st). */
  datatype OrdinalDate = OrdinalDate(year: int, dayOfYear: nat)

  /** The calendar fields derived from one instant. */
  datatype TimeRow = TimeRow(instant: nat, hour: nat, day: nat, week: nat, month: nat, year: int, weekday: nat)

  predicate IsLeap(y: int) {
    y % 4 == 0 && (y % 100 != 0 || y % 400 == 0)
  }

  function YearLength(y: int): nat {
    if IsLeap(y) then 366 else 365
  }

  function MonthLength(y: int, m: int): nat
    requires 1 <= m <= 12
  {
    if m == 2 then (if IsLeap(y) then 29 else 28)
    else if m == 4 || m == 6 || m == 9 || m == 11 then 30
    else 31
  }

  /** Days of year `y` that come before the first of month `m`. */
  function DaysBeforeMonth(y: int, m: int): nat
    requires 1 <= m <= 12
  {
    [0, 31, 59, 90, 120, 151, 181, 212, 243, 273, 304, 334][m - 1]
      + (if m > 2 && IsLeap(y) then 1 else 0)
  }

  /** Days from 0001-01-01 up to January 1st of year `y`. */
  function DaysBeforeYear(y: int): int
    requires y >= 1
  {
    var p := y - 1;
    365 * p + p / 4 - p / 100 + p / 400
  }

  predicate ValidDate(d: Date) {
    d.year >= 1 && 1 <= d.month <= 12 && 1 <= d.day <= MonthLength(d.year, d.month)
  }

  /** Days since 1970-01-01 of a valid date (negative before it). */
  function DaysFromCivil(d: Date): int
    requires ValidDate(d)
  {
    DaysBeforeYear(d.year) - EpochOrdinal + DaysBeforeMonth(d.year, d.month) + d.day - 1
  }

  /** Consecutive months abut: the month table counts every day once. */
  lemma MonthsAbut(y: int, m: int)
    requires 1 <= m < 12
    ensures DaysBeforeMonth(y, m + 1) == DaysBeforeMonth(y, m) + MonthLength(y, m)
  {
  }

  /** December ends the year: the twelve months fill it exactly. */
  lemma MonthsFillYear(y: int)
    ensures DaysBeforeMonth(y, 12) + MonthLength(y, 12) == YearLength(y)
  {
  }

  /** The closed form agrees with counting the days of each year in turn. */
  lemma YearsAbut(y: int)
    requires y >= 1
    ensures DaysBeforeYear(y + 1) == DaysBeforeYear(y) + YearLength(y)
  {
    var p := y - 1;
    assert (p + 1) / 4 - p / 4 == if y % 4 == 0 then 1 else 0;
    assert (p + 1) / 100 - p / 100 == if y % 100 == 0 then 1 else 0;
    assert (p + 1) / 400 - p / 400 == if y % 400 == 0 then 1 else 0;
  }

  /** Days of the first `a` 400-year cycles, `b` centuries, `c` four-year groups and `e` years. */
  lemma CycleDays(a: nat, b: nat, c: nat, e: nat)
    requires b <= 3 && c <= 24 && e <= 3
    ensures DaysBeforeYear(400 * a + 100 * b + 4 * c + e + 1)
         == 146097 * a + 36524 * b + 1461 * c + 365 * e
  {
    var p := 400 * a + 100 * b + 4 * c + e;
    assert p / 4 == 100 * a + 25 * b + c;
    assert p / 100 == 4 * a + b;
    assert p / 400 == a;
  }

  /** Which year of the cycles is a leap year: the last of a four-year group,
      unless that group closes a century other than the fourth. */
  lemma CycleLeap(a: nat, b: nat, c: nat, e: nat)
    requires b <= 3 && c <= 24 && e <= 3
    ensures IsLeap(400 * a + 100 * b + 4 * c + e + 1) <==> (e == 3 && (c != 24 || b == 3))
  {
    var y := 400 * a + 100 * b + 4 * c + e + 1;
    if e < 3 {
      DivMod(y, 4, 100 * a + 25 * b + c, e + 1);
    } else {
      DivMod(y, 4, 100 * a + 25 * b + c + 1, 0);
      if c < 24 {
        DivMod(y, 100, 4 * a + b, 4 * c + 4);
      } else {
        DivMod(y, 100, 4 * a + b + 1, 0);
        if b < 3 {
          DivMod(y, 400, a, 100 * b + 100);
        } else {
          DivMod(y, 400, a + 1, 0);
        }
      }
    }
  }

  /** Splits a count of days since 0001-01-01 into a year and a day within it. */
  function YearOfDay(z: nat): (r: OrdinalDate)
    ensures r.year >= 1 && r.dayOfYear < YearLength(r.year)
    ensures DaysBeforeYear(r.year) + r.dayOfYear == z
  {
    var a := z / 146097;
    var r400 := z % 146097;
    var b := if r400 / 36524 < 3 then r400 / 36524 else 3;
    var r100 := r400 - 36524 * b;
    var c := r100 / 1461;
    var r4 := r100 % 1461;
    var e := if r4 / 365 < 3 then r4 / 365 else 3;
    var doy := r4 - 365 * e;
    assert c <= 24;
    CycleDays(a, b, c, e);
    CycleLeap(a, b, c, e);
    OrdinalDate(400 * a + 100 * b + 4 * c + e + 1, doy)
  }

  /** Quotient and remainder are unique. */
  lemma DivMod(z: int, d: int, q: int, r: int)
    requires 0 < d && 0 <= r < d && z == d * q + r
    ensures z / d == q && z % d == r
  {
    var q', r' := z / d, z % d;
    assert d * (q - q') == r' - r;
    if q > q' {
      MulAtLeast(d, q - q');
    } else if q < q' {
      MulAtLeast(d, q' - q);
    }
  }

  lemma MulAtLeast(d: int, x: int)
    requires d > 0 && x >= 1
    ensures d * x >= d
  {
    var t := x - 1;
    assert d * x == d * t + d;
    assert d * t >= 0;
  }

  /** The split takes apart what the cycles put together. */
  lemma SplitOfCycles(a: nat, b: nat, c: nat, e: nat, k: nat)
    requires b <= 3 && c <= 24 && e <= 3 && k <= 365
    requires k == 365 ==> e == 3 && (c != 24 || b == 3)
    ensures YearOfDay(146097 * a + 36524 * b + 1461 * c + 365 * e + k)
         == OrdinalDate(400 * a + 100 * b + 4 * c + e + 1, k)
  {
    var inCentury := 1461 * c + 365 * e + k;
    var inCycle := 36524 * b + inCentury;
    DivMod(146097 * a + inCycle, 146097, a, inCycle);
    if inCentury == 36524 {
      assert b == 3;
      DivMod(inCycle, 36524, 4, 0);
    } else {
      DivMod(inCycle, 36524, b, inCentury);
    }
    DivMod(inCentury, 1461, c, 365 * e + k);
    if k == 365 {
      DivMod(365 * e + k, 365, 4, 0);
    } else {
      DivMod(365 * e + k, 365, e, k);
    }
  }

  /** The split is the inverse of counting: every (year, day) pair comes back. */
  lemma YearOfDayInverse(y: int, k: nat)
    requires y >= 1 && k < YearLength(y)
    ensures YearOfDay(DaysBeforeYear(y) + k) == OrdinalDate(y, k)
  {
    var p := y - 1;
    var a, inCycle := p / 400, p % 400;
    var b, inCentury := inCycle / 100, inCycle % 100;
    var c, e := inCentury / 4, inCentury % 4;
    assert p == 400 * a + 100 * b + 4 * c + e;
    CycleDays(a, b, c, e);
    CycleLeap(a, b, c, e);
    SplitOfCycles(a, b, c, e, k);
  }

  /** The month holding day `doy` of year `y`: the last one starting on or before it. */
  function MonthStartingBy(y: int, doy: nat, m: int): (r: int)
    requires 1 <= m <= 12
    ensures 1 <= r <= m && DaysBeforeMonth(y, r) <= doy
    ensures r < m ==> doy < DaysBeforeMonth(y, r + 1)
    decreases m
  {
    if DaysBeforeMonth(y, m) <= doy || m == 1 then m else MonthStartingBy(y, doy, m - 1)
  }

  /** Where a month ends: at the next month's start, or at the end of the year. */
  lemma MonthEnd(y: int, m: int)
    requires 1 <= m <= 12
    ensures DaysBeforeMonth(y, m) + MonthLength(y, m)
         == if m < 12 then DaysBeforeMonth(y, m + 1) else YearLength(y)
  {
    if m < 12 { MonthsAbut(y, m); } else { MonthsFillYear(y); }
  }

  /** Month and day of day `doy` of year `y`. */
  function MonthAndDay(y: int, doy: nat): (r: Date)
    requires doy < YearLength(y)
    ensures r.year == y && 1 <= r.month <= 12 && 1 <= r.day <= MonthLength(y, r.month)
    ensures DaysBeforeMonth(y, r.month) + r.day - 1 == doy
  {
    var m := MonthStartingBy(y, doy, 12);
    MonthEnd(y, m);
    Date(y, m, doy - DaysBeforeMonth(y, m) + 1)
  }

  /** A month ends no later than any later month starts. */
  lemma {:induction false} MonthStartsIncrease(y: int, m: int, n: int)
    requires 1 <= m < n <= 12
    ensures DaysBeforeMonth(y, m) + MonthLength(y, m) <= DaysBeforeMonth(y, n)
    decreases n - m
  {
    MonthsAbut(y, m);
    if m + 1 < n { MonthStartsIncrease(y, m + 1, n); }
  }

  /** Every valid month and day of a year is found back from its day number. */
  lemma MonthAndDayInverse(y: int, m: int, d: int)
    requires ValidDate(Date(y, m, d))
    ensures DaysBeforeMonth(y, m) + d - 1 < YearLength(y)
    ensures MonthAndDay(y, DaysBeforeMonth(y, m) + d - 1) == Date(y, m, d)
  {
    var doy := DaysBeforeMonth(y, m) + d - 1;
    MonthEnd(y, m);
    if m < 12 { MonthStartsIncrease(y, m, 12); MonthsFillYear(y); }
    var r := MonthStartingBy(y, doy, 12);
    if r < m {
      MonthStartsIncrease(y, r, m);
      if r + 1 < m { MonthStartsIncrease(y, r + 1, m); }
    } else if r > m {
      MonthStartsIncrease(y, m, r);
    }
  }

  /** The civil date of a day counted from 1970-01-01. */
  function CivilFromDays(n: nat): (d: Date)
    ensures ValidDate(d) && d.year >= 1970
    ensures DaysFromCivil(d) == n
  {
    var od := YearOfDay(n + EpochOrdinal);
    EpochOrLater(od.year, od.dayOfYear);
    MonthAndDay(od.year, od.dayOfYear)
  }

  /** A day on or after 1970-01-01 lies in 1970 or a later year. */
  lemma EpochOrLater(y: int, k: nat)
    requires y >= 1 && k < YearLength(y) && DaysBeforeYear(y) + k >= EpochOrdinal
    ensures y >= 1970
  {
    if y < 1970 {
      YearsBeforeEpoch(y);
    }
  }

  /** No day of a year before 1970 is as late as 1970-01-01. */
  lemma YearsBeforeEpoch(y: int)
    requires 1 <= y < 1970
    ensures DaysBeforeYear(y) + YearLength(y) <= EpochOrdinal
  {
    YearsAbut(y);
    DaysBeforeYearMonotone(y + 1, 1970);
  }

  lemma {:induction false} DaysBeforeYearMonotone(y: int, z: int)
    requires 1 <= y <= z
    ensures DaysBeforeYear(y) <= DaysBeforeYear(z)
    decreases z - y
  {
    if y < z {
      YearsAbut(y);
      DaysBeforeYearMonotone(y + 1, z);
    }
  }

  /** Every valid date from 1970 on is found back from its day count. */
  lemma CivilFromDaysInverse(d: Date)
    requires ValidDate(d) && d.year >= 1970
    ensures DaysFromCivil(d) >= 0
    ensures CivilFromDays(DaysFromCivil(d)) == d
  {
    DaysFromEpoch(d);
    MonthAndDayInverse(d.year, d.month, d.day);
    YearOfDate(d);
  }

  lemma DaysFromEpoch(d: Date)
    requires ValidDate(d) && d.year >= 1970
    ensures DaysFromCivil(d) >= 0
  {
    DaysBeforeYearMonotone(1970, d.year);
  }

  lemma YearOfDate(d: Date)
    requires ValidDate(d) && d.year >= 1970
    ensures DaysBeforeMonth(d.year, d.month) + d.day - 1 < YearLength(d.year)
    ensures YearOfDay(DaysFromCivil(d) + EpochOrdinal) == OrdinalDate(d.year, DaysBeforeMonth(d.year, d.month) + d.day - 1)
  {
    MonthAndDayInverse(d.year, d.month, d.day);
    YearOfDayInverse(d.year, DaysBeforeMonth(d.year, d.month) + d.day - 1);
  }

  /** Two different days never get the same date. */
  lemma CivilFromDaysInjective(n1: nat, n2: nat)
    requires n1 != n2
    ensures CivilFromDays(n1) != CivilFromDays(n2)
  {
  }

  /** Weekday of a day counted from 1970-01-01, Monday being 0. */
  function Weekday(n: nat): (w: nat)
    ensures w < 7
  {
    (n + EpochWeekday) % 7
  }

  /** Year and 0-based day of year of the Thursday in the Monday-to-Sunday week of day `n`. */
  function WeekThursday(n: nat): OrdinalDate
  {
    var thursday := n - Weekday(n) + 3;
    YearOfDay(thursday + EpochOrdinal)
  }

  /** ISO 8601 week number of day `n`. */
  function IsoWeek(n: nat): (w: nat)
    ensures 1 <= w <= 53
  {
    WeekThursday(n).dayOfYear / 7 + 1
  }

  /** The calendar split of a millisecond instant. */
  function TimeOf(ts: nat): (t: TimeRow)
    ensures t.instant == ts
    ensures t.hour < 24 && t.hour * MsPerHour <= ts % MsPerDay < (t.hour + 1) * MsPerHour
    ensures 1 <= t.month <= 12 && 1 <= t.day <= 31 && 1 <= t.week <= 53 && t.weekday < 7
    ensures t.year >= 1970 && ValidDate(Date(t.year, t.month, t.day))
    ensures DaysFromCivil(Date(t.year, t.month, t.day)) == ts / MsPerDay
  {
    var days := ts / MsPerDay;
    var d := CivilFromDays(days);
    TimeRow(ts, (ts % MsPerDay) / MsPerHour, d.day, IsoWeek(days), d.month, d.year, Weekday(days))
  }

  /** January 4th always lies in ISO week 1. */
  lemma JanuaryFourthInWeekOne(y: int)
    requires y >= 1970
    ensures DaysFromCivil(Date(y, 1, 4)) >= 0
    ensures IsoWeek(DaysFromCivil(Date(y, 1, 4))) == 1
  {
    DaysBeforeYearMonotone(1970, y);
    var n := DaysFromCivil(Date(y, 1, 4));
    var k := 3 - Weekday(n) + 3;
    assert n - Weekday(n) + 3 + EpochOrdinal == DaysBeforeYear(y) + k;
    YearOfDayInverse(y, k);
  }

  /** Weekdays follow each other, Monday after Sunday. */
  lemma WeekdayNextDay(n: nat)
    ensures Weekday(n + 1) == if Weekday(n) == 6 then 0 else Weekday(n) + 1
  {
    var w := Weekday(n);
    var q := (n + EpochWeekday) / 7;
    if w == 6 {
      DivMod(n + 1 + EpochWeekday, 7, q + 1, 0);
    } else {
      DivMod(n + 1 + EpochWeekday, 7, q, w + 1);
    }
  }

  /** Within a Monday-to-Sunday week the ISO week number stays; after a
      Sunday it goes up by one or starts again at 1. */
  lemma IsoWeekNextDay(n: nat)
    ensures Weekday(n) < 6 ==> IsoWeek(n + 1) == IsoWeek(n)
    ensures Weekday(n) == 6 ==> IsoWeek(n + 1) == IsoWeek(n) + 1 || IsoWeek(n + 1) == 1
  {
    WeekdayNextDay(n);
    var z := n - Weekday(n) + 3 + EpochOrdinal;
    if Weekday(n) == 6 {
      assert WeekThursday(n + 1) == YearOfDay(z + 7) by {
        assert n + 1 - Weekday(n + 1) + 3 + EpochOrdinal == z + 7;
      }
      WeekLater(z);
    } else {
      assert WeekThursday(n + 1) == WeekThursday(n);
    }
  }

  /** Seven days later the week number within a year is one more, or the next year has begun. */
  lemma WeekLater(z: nat)
    ensures YearOfDay(z + 7).dayOfYear / 7 == YearOfDay(z).dayOfYear / 7 + 1
         || YearOfDay(z + 7).dayOfYear < 7
  {
    var od := YearOfDay(z);
    var y, d := od.year, od.dayOfYear;
    assert z + 7 == DaysBeforeYear(y) + d + 7;
    if d + 7 < YearLength(y) {
      WeekLaterSameYear(y, d);
    } else {
      WeekLaterNextYear(y, d);
    }
  }

  lemma WeekLaterSameYear(y: int, d: nat)
    requires y >= 1 && d + 7 < YearLength(y)
    ensures YearOfDay(DaysBeforeYear(y) + d + 7).dayOfYear / 7 == d / 7 + 1
  {
    YearOfDayInverse(y, d + 7);
    DivMod(d + 7, 7, d / 7 + 1, d % 7);
  }

  lemma WeekLaterNextYear(y: int, d: nat)
    requires y >= 1 && d < YearLength(y) <= d + 7
    ensures YearOfDay(DaysBeforeYear(y) + d + 7).dayOfYear < 7
  {
    var k := d + 7 - YearLength(y);
    YearsAbut(y);
    YearOfDayInverse(y + 1, k);
  }

  /** The instant 0 is 1970-01-01, 00h, a Thursday, in ISO week 1. */
  lemma EpochTimeRow()
    ensures TimeOf(0) == TimeRow(0, 0, 1, 1, 1, 1970, 3)
  {
    CivilFromDaysInverse(Date(1970, 1, 1));
    YearOfDayInverse(1970, 0);
  }

  /** An instant of the event logs: 1541105830796 ms is 2018-11-01 at 20h,
      a Thursday, in ISO week 44. */
  lemma SampleTimeRow()
    ensures TimeOf(1541105830796) == TimeRow(1541105830796, 20, 1, 44, 11, 2018, 3)
  {
    DivMod(1541105830796, MsPerDay, 17836, 75430796);
    DivMod(75430796, MsPerHour, 20, 3430796);
    assert DaysBeforeYear(2018) == 736694;
    assert DaysFromCivil(Date(2018, 11, 1)) == 17836;
    CivilFromDaysInverse(Date(2018, 11, 1));
    assert CivilFromDays(17836) == Date(2018, 11, 1);
    DivMod(17836 + EpochWeekday, 7, 2548, 3);
    assert Weekday(17836) == 3;
    YearOfDayInverse(2018, 304);
    assert WeekThursday(17836) == OrdinalDate(2018, 304);
    assert IsoWeek(17836) == 44;
  }

  /** 2000-01-01 was a Saturday. */
  lemma MillenniumSaturday()
    ensures Weekday(DaysFromCivil(Date(2000, 1, 1))) == 5
  {
  }

  /** The last millisecond pandas can convert is 9223372036854, which is
      2262-04-11 at 23h; the next one is out of range. */
  lemma LatestTimestamp()
    ensures InDatetimeRange(9_223_372_036_854) && !InDatetimeRange(9_223_372_036_855)
    ensures var t := TimeOf(9_223_372_036_854); t.year == 2262 && t.month == 4 && t.day == 11 && t.hour == 23
  {
    DivMod(9_223_372_036_854, MsPerDay, 106751, 85636854);
    DivMod(85636854, MsPerHour, 23, 2836854);
    assert DaysBeforeYear(2262) == 825813;
    assert DaysFromCivil(Date(2262, 4, 11)) == 106751;
    CivilFromDaysInverse(Date(2262, 4, 11));
  }

  /** The ISO year of day `n`: the calendar year of the Thursday of its Monday-to-Sunday week. */
  function IsoYear(n: nat): int {
    CivilFromDays(n + 3 - Weekday(n)).year
  }

  /** The Monday that starts ISO week 1 of year `y`: the Monday of the week holding January 4th. */
  function WeekOneMonday(y: int): int
    requires y >= 1
  {
    var j := DaysFromCivil(Date(y, 1, 4));
    j - (j + EpochWeekday) % 7
  }

  /** The ISO 8601 week number, stated without the Thursday shortcut: it counts
      the whole weeks from the Monday of week 1 of the day's ISO year, from 1. */
  lemma IsoWeekFromWeekOne(n: nat)
    ensures IsoYear(n) >= 1970 && WeekOneMonday(IsoYear(n)) <= n
    ensures IsoWeek(n) == (n - WeekOneMonday(IsoYear(n))) / 7 + 1
  {
    var w := Weekday(n);
    var t := n + 3 - w;
    assert t % 7 == 0 by {
      DivMod(t, 7, (n + EpochWeekday) / 7, 0);
    }
    var od := YearOfDay(t + EpochOrdinal);
    var y, d := od.year, od.dayOfYear;
    assert IsoYear(n) == y;
    assert IsoWeek(n) == d / 7 + 1;
    WeekOneMondayAt(y, d, t);
    WeeksSinceWeekOne(n, w, t, d);
  }

  lemma WeekOneMondayAt(y: int, d: int, t: int)
    requires y >= 1 && DaysBeforeYear(y) + d == t + EpochOrdinal
    ensures WeekOneMonday(y) == (t - d + 3) - (t - d + 6) % 7
  {
    assert DaysFromCivil(Date(y, 1, 4)) == t - d + 3;
  }

  /** The day arithmetic behind the week count, for day `n` of weekday `w`, the
      Thursday `t` of its week, `d` days into its year. */
  lemma WeeksSinceWeekOne(n: int, w: int, t: int, d: int)
    requires 0 <= w < 7 && t == n + 3 - w && t % 7 == 0 && d >= 0
    ensures var m := (t - d + 3) - (t - d + 6) % 7;
      m <= n && (n - m) / 7 == d / 7
  {
    var q, p, r := t / 7, d / 7, d % 7;
    DivMod(t - d + 6, 7, q - p, 6 - r);
    DivMod(n - ((t - d + 3) - (6 - r)), 7, p, w);
  }

  /** A day is in ISO week 1 exactly when it lies in the seven days from the
      Monday of week 1 of its ISO year. */
  lemma IsoWeekOne(n: nat)
    ensures IsoWeek(n) == 1 <==> n < WeekOneMonday(IsoYear(n)) + 7
  {
    IsoWeekFromWeekOne(n);
  }
}
