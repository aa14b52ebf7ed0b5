/**
 * Proleptic Gregorian civil dates, the day count since 1970-01-01, and the
 * day arithmetic JavaScript's `Date` setters perform (`setDate` with an
 * out-of-range day rolls into the neighbouring months).
 */
module Calendar {
  /** Milliseconds in one day. */
  const MsPerDay: int := 86400000

  predicate IsLeapYear(y: int)
  {
    y % 4 == 0 && (y % 100 != 0 || y % 400 == 0)
  }

  function DaysInMonth(y: int, m: int): (n: int)
    requires 1 <= m <= 12
    ensures 28 <= n <= 31
    ensures n == 29 <==> m == 2 && IsLeapYear(y)
  {
    if m == 2 then (if IsLeapYear(y) then 29 else 28)
    else if m == 4 || m == 6 || m == 9 || m == 11 then 30
    else 31
  }

  /** Days of year `y` before the first of month `m`. */
  function DaysBeforeMonth(y: int, m: int): int
    requires 1 <= m <= 12
  {
    var common :=
      if m == 1 then 0 else if m == 2 then 31 else if m == 3 then 59 else if m == 4 then 90
      else if m == 5 then 120 else if m == 6 then 151 else if m == 7 then 181 else if m == 8 then 212
      else if m == 9 then 243 else if m == 10 then 273 else if m == 11 then 304 else 334;
    if m > 2 && IsLeapYear(y) then common + 1 else common
  }

  lemma MonthStep(y: int, m: int)
    requires 1 <= m < 12
    ensures DaysBeforeMonth(y, m + 1) == DaysBeforeMonth(y, m) + DaysInMonth(y, m)
  {
  }

  lemma DaysBeforeMonthMonotone(y: int, m: int, n: int)
    requires 1 <= m <= n <= 12
    ensures DaysBeforeMonth(y, m) <= DaysBeforeMonth(y, n)
  {
  }

  /** Number of leap years strictly before year `y`, counted from a fixed origin. */
  function LeapYearsBefore(y: int): int
  {
    (y - 1) / 4 - (y - 1) / 100 + (y - 1) / 400
  }

  lemma LeapYearsStep(y: int)
    ensures LeapYearsBefore(y + 1) == LeapYearsBefore(y) + (if IsLeapYear(y) then 1 else 0)
  {
    DivStep(y, 4);
    DivStep(y, 100);
    DivStep(y, 400);
  }

  /** Euclidean division by `k` steps up by one exactly at the multiples of `k`. */
  lemma DivStep(y: int, k: int)
    requires k == 4 || k == 100 || k == 400
    ensures y / k - (y - 1) / k == if y % k == 0 then 1 else 0
  {
    if k == 4 {
      assert y / 4 - (y - 1) / 4 == if y % 4 == 0 then 1 else 0;
    } else if k == 100 {
      assert y / 100 - (y - 1) / 100 == if y % 100 == 0 then 1 else 0;
    }
  }

  /** Days from 1970-01-01 to the first of January of year `y`. */
  function DaysBeforeYear(y: int): int
  {
    365 * (y - 1970) + LeapYearsBefore(y) - LeapYearsBefore(1970)
  }

  /** A year is the sum of its months. */
  lemma YearStep(y: int)
    ensures DaysBeforeYear(y + 1) == DaysBeforeYear(y) + DaysBeforeMonth(y, 12) + DaysInMonth(y, 12)
  {
    LeapYearsStep(y);
  }

  datatype Date = Date(year: int, month: int, day: int)
  {
    predicate Valid()
    {
      1 <= month <= 12 && 1 <= day <= DaysInMonth(year, month)
    }
  }

  /** Days since 1970-01-01 (negative before it). */
  function DayNumber(d: Date): int
    requires d.Valid()
  {
    DaysBeforeYear(d.year) + DaysBeforeMonth(d.year, d.month) + d.day - 1
  }

  lemma EpochIsDayZero()
    ensures DayNumber(Date(1970, 1, 1)) == 0
  {
  }

  /** The month before (`y`, `m`), rolling back into December of the previous year. */
  function PrevMonth(y: int, m: int): (r: (int, int))
    requires 1 <= m <= 12
    ensures 1 <= r.1 <= 12
    ensures r.0 * 12 + r.1 == y * 12 + m - 1
  {
    if m == 1 then (y - 1, 12) else (y, m - 1)
  }

  /** The month after (`y`, `m`), rolling into January of the next year. */
  function NextMonth(y: int, m: int): (r: (int, int))
    requires 1 <= m <= 12
    ensures 1 <= r.1 <= 12
    ensures r.0 * 12 + r.1 == y * 12 + m + 1
  {
    if m == 12 then (y + 1, 1) else (y, m + 1)
  }

  function FirstOfMonth(y: int, m: int): (d: Date)
    requires 1 <= m <= 12
    ensures d.Valid() && d.year == y && d.month == m && d.day == 1
  {
    Date(y, m, 1)
  }

  function LastOfMonth(y: int, m: int): (d: Date)
    requires 1 <= m <= 12
    ensures d.Valid() && d.year == y && d.month == m && d.day == DaysInMonth(y, m)
  {
    Date(y, m, DaysInMonth(y, m))
  }

  /** The last day of a month is the day right before the first of the next month. */
  lemma LastOfPrevMonthPrecedesFirst(y: int, m: int)
    requires 1 <= m <= 12
    ensures DayNumber(LastOfMonth(PrevMonth(y, m).0, PrevMonth(y, m).1)) + 1 == DayNumber(FirstOfMonth(y, m))
  {
    if m == 1 {
      YearStep(y - 1);
    } else {
      MonthStep(y, m - 1);
    }
  }

  /** The civil day after `d`. */
  function NextDay(d: Date): (r: Date)
    requires d.Valid()
    ensures r.Valid()
  {
    if d.day < DaysInMonth(d.year, d.month) then Date(d.year, d.month, d.day + 1)
    else FirstOfMonth(NextMonth(d.year, d.month).0, NextMonth(d.year, d.month).1)
  }

  /** The civil day before `d`. */
  function PrevDay(d: Date): (r: Date)
    requires d.Valid()
    ensures r.Valid()
  {
    if d.day > 1 then Date(d.year, d.month, d.day - 1)
    else LastOfMonth(PrevMonth(d.year, d.month).0, PrevMonth(d.year, d.month).1)
  }

  lemma NextDayNumber(d: Date)
    requires d.Valid()
    ensures DayNumber(NextDay(d)) == DayNumber(d) + 1
  {
    if d.day == DaysInMonth(d.year, d.month) {
      var n := NextMonth(d.year, d.month);
      assert PrevMonth(n.0, n.1) == (d.year, d.month);
      LastOfPrevMonthPrecedesFirst(n.0, n.1);
    }
  }

  lemma PrevDayNumber(d: Date)
    requires d.Valid()
    ensures DayNumber(PrevDay(d)) + 1 == DayNumber(d)
  {
    if d.day == 1 {
      LastOfPrevMonthPrecedesFirst(d.year, d.month);
    }
  }

  /**
   * `d` moved by `k` days, forwards or backwards, across month and year ends:
   * what `setDate(getDate() + k)` does to a JavaScript `Date`.
   */
  function AddDays(d: Date, k: int): (r: Date)
    requires d.Valid()
    ensures r.Valid()
    ensures DayNumber(r) == DayNumber(d) + k
    decreases if k < 0 then -k else k
  {
    if k == 0 then d
    else if k > 0 then NextDayNumber(d); AddDays(NextDay(d), k - 1)
    else PrevDayNumber(d); AddDays(PrevDay(d), k + 1)
  }

  /** Moving forward inside a month only changes the day. */
  lemma {:induction false} AddDaysWithinMonth(d: Date, k: nat)
    requires d.Valid() && d.day + k <= DaysInMonth(d.year, d.month)
    ensures AddDays(d, k) == Date(d.year, d.month, d.day + k)
    decreases k
  {
    if k > 0 {
      AddDaysWithinMonth(NextDay(d), k - 1);
    }
  }

  /** The day number determines the date. */
  lemma DayNumberInjective(a: Date, b: Date)
    requires a.Valid() && b.Valid() && DayNumber(a) == DayNumber(b)
    ensures a == b
  {
    if a.year < b.year {
      YearBefore(a, b);
    } else if b.year < a.year {
      YearBefore(b, a);
    } else if a.month != b.month {
      var lo := if a.month < b.month then a else b;
      var hi := if a.month < b.month then b else a;
      DaysBeforeMonthMonotone(a.year, lo.month + 1, hi.month);
      MonthStep(a.year, lo.month);
    }
  }

  /** Every day of an earlier year has a smaller day number. */
  lemma YearBefore(a: Date, b: Date)
    requires a.Valid() && b.Valid() && a.year < b.year
    ensures DayNumber(a) < DayNumber(b)
  {
    DaysBeforeMonthMonotone(a.year, a.month, 12);
    YearStep(a.year);
    DaysBeforeYearMonotone(a.year + 1, b.year);
  }

  lemma {:induction false} DaysBeforeYearMonotone(x: int, y: int)
    requires x <= y
    ensures DaysBeforeYear(x) <= DaysBeforeYear(y)
    decreases y - x
  {
    if x < y {
      YearStep(x);
      DaysBeforeYearMonotone(x + 1, y);
    }
  }

  /** 0 = Sunday … 6 = Saturday, as `Date.prototype.getDay`; 1970-01-01 was a Thursday. */
  function Weekday(d: Date): (w: int)
    requires d.Valid()
    ensures 0 <= w < 7
  {
    (DayNumber(d) + 4) % 7
  }

  lemma EpochWasThursday()
    ensures Weekday(Date(1970, 1, 1)) == 4
  {
  }

  /** Moving `k` days moves the weekday by `k`, modulo 7. */
  lemma WeekdayAddDays(d: Date, k: int)
    requires d.Valid()
    ensures Weekday(AddDays(d, k)) == (Weekday(d) + k) % 7
  {
    ShiftMod7(DayNumber(d) + 4, k);
  }

  lemma ShiftMod7(a: int, k: int)
    ensures (a + k) % 7 == (a % 7 + k) % 7
  {
    var x := a % 7 + k;
    assert a + k == 7 * (a / 7) + x;
  }

  /** A date with a time of day in milliseconds, both in one fixed time zone. */
  datatype DateTime = DateTime(date: Date, msOfDay: int)
  {
    predicate Valid()
    {
      date.Valid() && 0 <= msOfDay < MsPerDay
    }
  }

  /** Milliseconds since the epoch of that zone's 1970-01-01 00:00. */
  function Millis(t: DateTime): int
    requires t.Valid()
  {
    DayNumber(t.date) * MsPerDay + t.msOfDay
  }

  /** Later date, or same date and later time, means a later instant. */
  lemma MillisOrder(a: DateTime, b: DateTime)
    requires a.Valid() && b.Valid()
    ensures Millis(a) < Millis(b) <==>
      DayNumber(a.date) < DayNumber(b.date) || (DayNumber(a.date) == DayNumber(b.date) && a.msOfDay < b.msOfDay)
  {
  }
}
