/** Calendar dates as Python's datetime.date sees them: the proleptic Gregorian
    calendar, day arithmetic by timedelta, ordering by (year, month, day) and
    date.weekday(), where Monday is 0. */
module Dates {

  datatype YearMonthDay = YMD(year: int, month: int, day: int)

  predicate IsLeapYear(y: int) {
    y % 4 == 0 && (y % 100 != 0 || y % 400 == 0)
  }

  function DaysInYear(y: int): int {
    if IsLeapYear(y) then 366 else 365
  }

  function DaysInMonth(y: int, m: int): (n: int)
    requires 1 <= m <= 12
    ensures 28 <= n <= 31
    ensures n == 29 <==> m == 2 && IsLeapYear(y)
  {
    if m == 2 then (if IsLeapYear(y) then 29 else 28)
    else if m == 4 || m == 6 || m == 9 || m == 11 then 30
    else 31
  }

  ghost predicate IsCalendarDate(d: YearMonthDay) {
    1 <= d.month <= 12 && 1 <= d.day <= DaysInMonth(d.year, d.month)
  }

  /** A real calendar day: month 1..12 and a day that exists in that month. */
  type Date = d: YearMonthDay | IsCalendarDate(d) witness YMD(1, 1, 1)

  /** Days in the years before `y`, counted from 0001-01-01 (Python's days_before_year). */
  function DaysBeforeYear(y: int): int {
    var p := y - 1;
    365 * p + p / 4 - p / 100 + p / 400
  }

  /** Days in the months of year `y` before month `m` (Python's days_before_month). */
  function DaysBeforeMonth(y: int, m: int): int
    requires 1 <= m <= 13
  {
    var table := [0, 31, 59, 90, 120, 151, 181, 212, 243, 273, 304, 334, 365];
    table[m - 1] + (if m > 2 && IsLeapYear(y) then 1 else 0)
  }

  /** Python's date.toordinal(): 0001-01-01 is day 1. */
  function Ordinal(d: Date): int {
    DaysBeforeYear(d.year) + DaysBeforeMonth(d.year, d.month) + d.day
  }

  /** Python's date.weekday(): Monday is 0, Sunday is 6. */
  function Weekday(d: Date): (w: int)
    ensures 0 <= w < 7
  {
    (Ordinal(d) + 6) % 7
  }

  /** Python's comparison of dates, field by field. */
  predicate Le(a: Date, b: Date) {
    a.year < b.year || (a.year == b.year && (a.month < b.month || (a.month == b.month && a.day <= b.day)))
  }

  predicate Lt(a: Date, b: Date) {
    Le(a, b) && a != b
  }

  /** No day occurs twice. */
  predicate DistinctDates(ds: seq<Date>) {
    forall i, j :: 0 <= i < j < |ds| ==> ds[i] != ds[j]
  }

  function FirstOfMonth(d: Date): (r: Date)
    ensures r.year == d.year && r.month == d.month && r.day == 1
  {
    YMD(d.year, d.month, 1)
  }

  function LastOfMonth(d: Date): (r: Date)
    ensures r.year == d.year && r.month == d.month && r.day == DaysInMonth(d.year, d.month)
  {
    YMD(d.year, d.month, DaysInMonth(d.year, d.month))
  }

  /** The day after `d` (date + timedelta(days=1)). */
  function NextDay(d: Date): (r: Date)
    ensures Lt(d, r)
  {
    if d.day < DaysInMonth(d.year, d.month) then YMD(d.year, d.month, d.day + 1)
    else if d.month < 12 then YMD(d.year, d.month + 1, 1)
    else YMD(d.year + 1, 1, 1)
  }

  /** The day before `d` (date - timedelta(days=1)). */
  function PrevDay(d: Date): (r: Date)
    ensures Lt(r, d)
  {
    if d.day > 1 then YMD(d.year, d.month, d.day - 1)
    else if d.month > 1 then YMD(d.year, d.month - 1, DaysInMonth(d.year, d.month - 1))
    else YMD(d.year - 1, 12, 31)
  }

  /** date + timedelta(days=n), for any sign of n. */
  function AddDays(d: Date, n: int): Date
    decreases if n >= 0 then n else -n
  {
    if n == 0 then d
    else if n > 0 then AddDays(NextDay(d), n - 1)
    else AddDays(PrevDay(d), n + 1)
  }

  // ---------------------------------------------------------------------------
  // Ordinal arithmetic

  lemma DivStep(p: int)
    ensures (p + 1) / 4 - p / 4 == (if (p + 1) % 4 == 0 then 1 else 0)
    ensures (p + 1) / 100 - p / 100 == (if (p + 1) % 100 == 0 then 1 else 0)
    ensures (p + 1) / 400 - p / 400 == (if (p + 1) % 400 == 0 then 1 else 0)
  {
  }

  lemma YearLength(y: int)
    ensures DaysBeforeYear(y + 1) == DaysBeforeYear(y) + DaysInYear(y)
  {
    LeapArith(y - 1);
  }

  lemma LeapArith(p: int)
    ensures 365 * (p + 1) + (p + 1) / 4 - (p + 1) / 100 + (p + 1) / 400
            == 365 * p + p / 4 - p / 100 + p / 400
               + (if (p + 1) % 4 == 0 && ((p + 1) % 100 != 0 || (p + 1) % 400 == 0) then 366 else 365)
  {
    DivStep(p);
  }

  lemma YearsLater(y1: int, y2: int)
    requires y1 < y2
    ensures DaysBeforeYear(y1) + DaysInYear(y1) <= DaysBeforeYear(y2)
    decreases y2 - y1
  {
    YearLength(y1);
    if y1 + 1 < y2 {
      YearsLater(y1 + 1, y2);
    }
  }

  lemma MonthLength(y: int, m: int)
    requires 1 <= m <= 12
    ensures DaysBeforeMonth(y, m + 1) == DaysBeforeMonth(y, m) + DaysInMonth(y, m)
    ensures DaysBeforeMonth(y, 13) == DaysInYear(y)
    ensures DaysBeforeMonth(y, 1) == 0
  {
  }

  lemma MonthsLater(y: int, m1: int, m2: int)
    requires 1 <= m1 < m2 <= 13
    ensures DaysBeforeMonth(y, m1) + DaysInMonth(y, m1) <= DaysBeforeMonth(y, m2)
    decreases m2 - m1
  {
    MonthLength(y, m1);
    if m1 + 1 < m2 {
      MonthsLater(y, m1 + 1, m2);
    }
  }

  lemma {:induction false} OrdinalStrict(a: Date, b: Date)
    requires Lt(a, b)
    ensures Ordinal(a) < Ordinal(b)
  {
    if a.year < b.year {
      MonthsLater(a.year, a.month, 13);
      MonthLength(a.year, 1);
      YearsLater(a.year, b.year);
    } else if a.month < b.month {
      MonthsLater(a.year, a.month, b.month);
    }
  }

  /** Python's date ordering is the ordering of ordinals. */
  lemma LeIffOrdinal(a: Date, b: Date)
    ensures Le(a, b) <==> Ordinal(a) <= Ordinal(b)
    ensures a == b <==> Ordinal(a) == Ordinal(b)
  {
    if Lt(a, b) {
      OrdinalStrict(a, b);
    } else if Lt(b, a) {
      OrdinalStrict(b, a);
    }
  }

  lemma LeTransitive(a: Date, b: Date, c: Date)
    requires Le(a, b) && Le(b, c)
    ensures Le(a, c)
  {
  }

  lemma LeTotal(a: Date, b: Date)
    ensures Le(a, b) || Le(b, a)
    ensures Le(a, b) && Le(b, a) ==> a == b
  {
  }

  lemma {:induction false} NextDayOrdinal(d: Date)
    ensures Ordinal(NextDay(d)) == Ordinal(d) + 1
  {
    if d.day < DaysInMonth(d.year, d.month) {
    } else if d.month < 12 {
      MonthLength(d.year, d.month);
    } else {
      MonthLength(d.year, 12);
      YearLength(d.year);
    }
  }

  lemma {:induction false} PrevDayOrdinal(d: Date)
    ensures Ordinal(PrevDay(d)) == Ordinal(d) - 1
  {
    if d.day > 1 {
    } else if d.month > 1 {
      MonthLength(d.year, d.month - 1);
    } else {
      MonthLength(d.year - 1, 12);
      YearLength(d.year - 1);
    }
  }

  /** Adding n days moves the ordinal by exactly n. */
  lemma {:induction false} AddDaysOrdinal(d: Date, n: int)
    ensures Ordinal(AddDays(d, n)) == Ordinal(d) + n
    decreases if n >= 0 then n else -n
  {
    if n > 0 {
      NextDayOrdinal(d);
      AddDaysOrdinal(NextDay(d), n - 1);
    } else if n < 0 {
      PrevDayOrdinal(d);
      AddDaysOrdinal(PrevDay(d), n + 1);
    }
  }

  /** Shifting forward then back by the same number of days is the identity. */
  lemma AddDaysCancel(d: Date, n: int)
    ensures AddDays(AddDays(d, n), -n) == d
  {
    AddDaysOrdinal(d, n);
    AddDaysOrdinal(AddDays(d, n), -n);
    LeIffOrdinal(AddDays(AddDays(d, n), -n), d);
  }

  /** AddDays agrees with the ordering: it moves forward exactly when n >= 0. */
  lemma AddDaysOrder(d: Date, n: int)
    ensures Le(d, AddDays(d, n)) <==> n >= 0
    ensures Le(AddDays(d, n), d) <==> n <= 0
  {
    AddDaysOrdinal(d, n);
    LeIffOrdinal(d, AddDays(d, n));
    LeIffOrdinal(AddDays(d, n), d);
  }

  lemma AddDaysCompose(d: Date, m: int, n: int)
    ensures AddDays(AddDays(d, m), n) == AddDays(d, m + n)
  {
    AddDaysOrdinal(d, m);
    AddDaysOrdinal(AddDays(d, m), n);
    AddDaysOrdinal(d, m + n);
    LeIffOrdinal(AddDays(AddDays(d, m), n), AddDays(d, m + n));
  }

  /** Distinct offsets give distinct days. */
  lemma AddDaysInjective(d: Date, m: int, n: int)
    requires m != n
    ensures AddDays(d, m) != AddDays(d, n)
  {
    AddDaysOrdinal(d, m);
    AddDaysOrdinal(d, n);
  }
}
