/**
 * Report date ranges: a range tag and the current instant give a pair of
 * UTC-day-aligned instants (milliseconds since the epoch). The server's local
 * zone is taken to be UTC, so the `date-fns` helpers, which work in local
 * time, and the UTC day boundaries agree.
 */
module DateRangeHelper {
  import opened Wrappers
  import opened Calendar

  datatype DateRange = DateRange(startDate: int, endDate: int)

  /** `startOfDayUTC`: 00:00:00.000 of the UTC day holding `t`. */
  function StartOfDayUtc(t: int): (r: int)
    ensures r % MsPerDay == 0
    ensures r <= t < r + MsPerDay
  {
    t - t % MsPerDay
  }

  /** `endOfDayUTC`: 23:59:59.999 of the UTC day holding `t`. */
  function EndOfDayUtc(t: int): (r: int)
    ensures (r + 1) % MsPerDay == 0
    ensures r - MsPerDay < t <= r
  {
    StartOfDayUtc(t) + MsPerDay - 1
  }

  /** Both ends lie in the same day, 86 399 999 ms apart. */
  lemma DayBoundsSpan(t: int)
    ensures EndOfDayUtc(t) - StartOfDayUtc(t) == 86399999
    ensures StartOfDayUtc(EndOfDayUtc(t)) == StartOfDayUtc(t)
  {
  }

  /** The start of the day of a civil date-time is that date at midnight. */
  lemma StartOfDayOfDateTime(t: DateTime)
    requires t.Valid()
    ensures StartOfDayUtc(Millis(t)) == DayNumber(t.date) * MsPerDay
  {
    MidnightOf(DayNumber(t.date), t.msOfDay);
  }

  lemma MidnightOf(n: int, ms: int)
    requires 0 <= ms < MsPerDay
    ensures StartOfDayUtc(n * MsPerDay + ms) == n * MsPerDay
  {
    assert (n * MsPerDay + ms) % MsPerDay == ms;
  }

  /** `subDays`: `n` whole days earlier (no daylight-saving shifts in UTC). */
  function SubDays(t: int, n: int): (r: int)
    ensures t - r == n * MsPerDay
  {
    t - n * MsPerDay
  }

  /** `addMonths` of `date-fns`: the same day `n` months later, clamped to the length of that month. */
  function AddMonths(d: Date, n: int): (r: Date)
    requires d.Valid()
    ensures r.Valid()
    ensures r.year * 12 + r.month == d.year * 12 + d.month + n
    ensures r.day == if d.day < DaysInMonth(r.year, r.month) then d.day else DaysInMonth(r.year, r.month)
  {
    var index := d.year * 12 + (d.month - 1) + n;
    var y, m := index / 12, index % 12 + 1;
    Date(y, m, if d.day < DaysInMonth(y, m) then d.day else DaysInMonth(y, m))
  }

  /** Two (year, month) pairs with months in 1..12 and the same month count are equal. */
  lemma MonthIndexUnique(y1: int, m1: int, y2: int, m2: int)
    requires 1 <= m1 <= 12 && 1 <= m2 <= 12 && y1 * 12 + m1 == y2 * 12 + m2
    ensures y1 == y2 && m1 == m2
  {
  }

  /** The first month (1, 4, 7 or 10) of the quarter holding month `m`. */
  function QuarterStart(m: int): (q: int)
    requires 1 <= m <= 12
    ensures q <= m < q + 3 && q % 3 == 1
  {
    m - (m - 1) % 3
  }

  /** The calendar periods of the THIS_ and LAST_ tags. */
  datatype Period = Month | Quarter | Year

  /** Months between the same point of two consecutive periods (`subMonths`, `subQuarters`, `subYears`). */
  function Span(p: Period): int
  {
    match p
    case Month => 1
    case Quarter => 3
    case Year => 12
  }

  /** `startOfMonth`, `startOfQuarter` and `startOfYear`. */
  function StartOf(p: Period, d: Date): (r: Date)
    requires d.Valid()
    ensures r.Valid() && r.year == d.year && r.day == 1 && r.month <= d.month
  {
    match p
    case Month => FirstOfMonth(d.year, d.month)
    case Quarter => FirstOfMonth(d.year, QuarterStart(d.month))
    case Year => FirstOfMonth(d.year, 1)
  }

  /** `endOfMonth`, `endOfQuarter` and `endOfYear`. */
  function EndOf(p: Period, d: Date): (r: Date)
    requires d.Valid()
    ensures r.Valid() && r.year == d.year && r.day == DaysInMonth(r.year, r.month) && r.month >= d.month
  {
    match p
    case Month => LastOfMonth(d.year, d.month)
    case Quarter => LastOfMonth(d.year, QuarterStart(d.month) + 2)
    case Year => LastOfMonth(d.year, 12)
  }

  /** A date at local midnight (what `startOf*` returns), as an instant. */
  function Midnight(d: Date): int requires d.Valid() { Millis(DateTime(d, 0)) }

  /** A date at 23:59:59.999 (what `endOf*` returns), as an instant. */
  function LastMilli(d: Date): int requires d.Valid() { Millis(DateTime(d, MsPerDay - 1)) }

  /** THIS_MONTH, THIS_QUARTER, THIS_YEAR: from the start of the period to the end of today. */
  function ThisPeriod(p: Period, now: DateTime): DateRange
    requires now.Valid()
  {
    DateRange(StartOfDayUtc(Midnight(StartOf(p, now.date))), EndOfDayUtc(Millis(now)))
  }

  /** LAST_MONTH, LAST_QUARTER, LAST_YEAR: the whole period holding the same day one period ago. */
  function LastPeriod(p: Period, now: DateTime): DateRange
    requires now.Valid()
  {
    var earlier := AddMonths(now.date, -Span(p));
    DateRange(StartOfDayUtc(Midnight(StartOf(p, earlier))), EndOfDayUtc(LastMilli(EndOf(p, earlier))))
  }

  /** The tags `calculateDateRange` knows. */
  const KnownTags: seq<string> := ["TODAY", "YESTERDAY", "LAST_7_DAYS", "LAST_30_DAYS", "LAST_90_DAYS",
    "THIS_MONTH", "LAST_MONTH", "THIS_QUARTER", "LAST_QUARTER", "THIS_YEAR", "LAST_YEAR", "CUSTOM"]

  /** A range whose start is the first and whose end the last millisecond of a UTC day. */
  predicate DayAligned(r: DateRange)
  {
    r.startDate % MsPerDay == 0 && (r.endDate + 1) % MsPerDay == 0
  }

  /** `isValidDateRange`. */
  predicate IsValidDateRange(r: DateRange)
  {
    r.startDate <= r.endDate
  }

  /**
   * `calculateDateRange`: the range for a tag at instant `now`. CUSTOM without
   * both bounds is the thrown error; an unknown tag falls back to the last 30 days.
   */
  function CalculateDateRange(rangeType: string, customStart: Option<int>, customEnd: Option<int>,
                              now: DateTime): (r: Result<DateRange>)
    requires now.Valid()
    ensures r.Failure? <==> rangeType == "CUSTOM" && (customStart.None? || customEnd.None?)
    ensures rangeType == "CUSTOM" && r.Success? ==>
      r.value == DateRange(StartOfDayUtc(customStart.value), EndOfDayUtc(customEnd.value))
  {
    var t := Millis(now);
    if rangeType == "TODAY" then
      Success(DateRange(StartOfDayUtc(t), EndOfDayUtc(t)))
    else if rangeType == "YESTERDAY" then
      var yesterday := SubDays(t, 1);
      Success(DateRange(StartOfDayUtc(yesterday), EndOfDayUtc(yesterday)))
    else if rangeType == "LAST_7_DAYS" then
      Success(DateRange(StartOfDayUtc(SubDays(t, 6)), EndOfDayUtc(t)))
    else if rangeType == "LAST_30_DAYS" then
      Success(DateRange(StartOfDayUtc(SubDays(t, 29)), EndOfDayUtc(t)))
    else if rangeType == "LAST_90_DAYS" then
      Success(DateRange(StartOfDayUtc(SubDays(t, 89)), EndOfDayUtc(t)))
    else if rangeType == "THIS_MONTH" then Success(ThisPeriod(Month, now))
    else if rangeType == "LAST_MONTH" then Success(LastPeriod(Month, now))
    else if rangeType == "THIS_QUARTER" then Success(ThisPeriod(Quarter, now))
    else if rangeType == "LAST_QUARTER" then Success(LastPeriod(Quarter, now))
    else if rangeType == "THIS_YEAR" then Success(ThisPeriod(Year, now))
    else if rangeType == "LAST_YEAR" then Success(LastPeriod(Year, now))
    else if rangeType == "CUSTOM" then
      if customStart.None? || customEnd.None? then Failure("Custom date range requires startDate and endDate")
      else Success(DateRange(StartOfDayUtc(customStart.value), EndOfDayUtc(customEnd.value)))
    else
      Success(DateRange(StartOfDayUtc(SubDays(t, 29)), EndOfDayUtc(t)))
  }

  /** TODAY is exactly today's UTC day. */
  lemma TodayIsOneDay(now: DateTime, cs: Option<int>, ce: Option<int>)
    requires now.Valid()
    ensures CalculateDateRange("TODAY", cs, ce, now) ==
      Success(DateRange(DayNumber(now.date) * MsPerDay, DayNumber(now.date) * MsPerDay + MsPerDay - 1))
  {
    StartOfDayOfDateTime(now);
  }

  /** LAST_n_DAYS starts n − 1 days before the start of today and ends at the end of today. */
  lemma LastNDays(tag: string, n: int, now: DateTime, cs: Option<int>, ce: Option<int>)
    requires now.Valid()
    requires (tag, n) in {("LAST_7_DAYS", 7), ("LAST_30_DAYS", 30), ("LAST_90_DAYS", 90)}
    ensures CalculateDateRange(tag, cs, ce, now) == Success(DateRange(
      StartOfDayUtc(Millis(now)) - (n - 1) * MsPerDay, EndOfDayUtc(Millis(now))))
  {
    var t := Millis(now);
    ShiftedStartOfDay(t, n - 1);
  }

  /** Moving back whole days moves the start of the day by the same amount. */
  lemma ShiftedStartOfDay(t: int, k: int)
    ensures StartOfDayUtc(t - k * MsPerDay) == StartOfDayUtc(t) - k * MsPerDay
  {
    var q := t / MsPerDay;
    assert t == q * MsPerDay + t % MsPerDay;
    assert t - k * MsPerDay == (q - k) * MsPerDay + t % MsPerDay;
  }

  /** An unrecognised tag gives the LAST_30_DAYS range. */
  lemma UnknownTagIsLast30Days(tag: string, now: DateTime, cs: Option<int>, ce: Option<int>)
    requires now.Valid() && tag !in KnownTags
    ensures CalculateDateRange(tag, cs, ce, now) == CalculateDateRange("LAST_30_DAYS", cs, ce, now)
  {
  }

  /** The period before the one holding `d` ends on the day right before it starts. */
  lemma PreviousPeriodAdjoins(p: Period, d: Date)
    requires d.Valid()
    ensures DayNumber(EndOf(p, AddMonths(d, -Span(p)))) + 1 == DayNumber(StartOf(p, d))
  {
    var e := AddMonths(d, -Span(p));
    var q := match p case Month => d.month case Quarter => QuarterStart(d.month) case Year => 1;
    if p == Month {
      var prev := PrevMonth(d.year, d.month);
      MonthIndexUnique(e.year, e.month, prev.0, prev.1);
    } else if p == Year {
      MonthIndexUnique(e.year, e.month, d.year - 1, d.month);
    } else if d.month <= 3 {
      MonthIndexUnique(e.year, e.month, d.year - 1, d.month + 9);
    } else {
      MonthIndexUnique(e.year, e.month, d.year, d.month - 3);
    }
    assert (EndOf(p, e).year, EndOf(p, e).month) == PrevMonth(d.year, q);
    LastOfPrevMonthPrecedesFirst(d.year, q);
  }

  lemma MidnightAligned(d: Date)
    requires d.Valid()
    ensures StartOfDayUtc(Midnight(d)) == DayNumber(d) * MsPerDay
    ensures EndOfDayUtc(LastMilli(d)) == DayNumber(d) * MsPerDay + MsPerDay - 1
  {
    StartOfDayOfDateTime(DateTime(d, 0));
    StartOfDayOfDateTime(DateTime(d, MsPerDay - 1));
  }

  /** The first day of a period is no later than any of its days. */
  lemma StartOfPrecedes(p: Period, d: Date)
    requires d.Valid()
    ensures DayNumber(StartOf(p, d)) <= DayNumber(d)
  {
    DaysBeforeMonthMonotone(d.year, StartOf(p, d).month, d.month);
  }

  /** The last day of a period is no earlier than its first. */
  lemma EndOfFollows(p: Period, d: Date)
    requires d.Valid()
    ensures DayNumber(StartOf(p, d)) <= DayNumber(EndOf(p, d))
  {
    DaysBeforeMonthMonotone(d.year, StartOf(p, d).month, EndOf(p, d).month);
  }

  /** THIS_ ranges run from the first day of the period to the end of today. */
  lemma ThisPeriodIsValid(p: Period, now: DateTime)
    requires now.Valid()
    ensures DayAligned(ThisPeriod(p, now)) && IsValidDateRange(ThisPeriod(p, now))
    ensures ThisPeriod(p, now).startDate == DayNumber(StartOf(p, now.date)) * MsPerDay
    ensures ThisPeriod(p, now).startDate <= StartOfDayUtc(Millis(now))
  {
    StartOfDayOfDateTime(now);
    MidnightAligned(StartOf(p, now.date));
    StartOfPrecedes(p, now.date);
  }

  /**
   * LAST_ ranges cover the previous period from its first to its last day and
   * end the millisecond before the matching THIS_ range starts, so strictly
   * before today.
   */
  lemma LastPeriodAdjoinsThisPeriod(p: Period, now: DateTime)
    requires now.Valid()
    ensures DayAligned(LastPeriod(p, now)) && IsValidDateRange(LastPeriod(p, now))
    ensures LastPeriod(p, now).endDate + 1 == ThisPeriod(p, now).startDate
    ensures LastPeriod(p, now).endDate < StartOfDayUtc(Millis(now))
  {
    var e := AddMonths(now.date, -Span(p));
    MidnightAligned(StartOf(p, e));
    MidnightAligned(EndOf(p, e));
    EndOfFollows(p, e);
    PreviousPeriodAdjoins(p, now.date);
    ThisPeriodIsValid(p, now);
  }

  /** Every tag but CUSTOM gives a well-ordered, day-aligned range. */
  lemma NonCustomRangesAreValid(tag: string, now: DateTime, cs: Option<int>, ce: Option<int>)
    requires now.Valid() && tag != "CUSTOM"
    ensures CalculateDateRange(tag, cs, ce, now).Success?
    ensures IsValidDateRange(CalculateDateRange(tag, cs, ce, now).value)
    ensures DayAligned(CalculateDateRange(tag, cs, ce, now).value)
  {
    if tag == "THIS_MONTH" || tag == "LAST_MONTH" {
      PeriodTagsValid(tag, Month, now, cs, ce);
    } else if tag == "THIS_QUARTER" || tag == "LAST_QUARTER" {
      PeriodTagsValid(tag, Quarter, now, cs, ce);
    } else if tag == "THIS_YEAR" || tag == "LAST_YEAR" {
      PeriodTagsValid(tag, Year, now, cs, ce);
    } else {
      DayTagsValid(tag, now, cs, ce);
    }
  }

  /** The THIS_ and LAST_ tags of period `p`. */
  function PeriodTags(p: Period): (string, string)
  {
    match p
    case Month => ("THIS_MONTH", "LAST_MONTH")
    case Quarter => ("THIS_QUARTER", "LAST_QUARTER")
    case Year => ("THIS_YEAR", "LAST_YEAR")
  }

  lemma PeriodTagsValid(tag: string, p: Period, now: DateTime, cs: Option<int>, ce: Option<int>)
    requires now.Valid() && (tag == PeriodTags(p).0 || tag == PeriodTags(p).1)
    ensures CalculateDateRange(tag, cs, ce, now).Success?
    ensures IsValidDateRange(CalculateDateRange(tag, cs, ce, now).value)
    ensures DayAligned(CalculateDateRange(tag, cs, ce, now).value)
  {
    PeriodRangeValid(p, now);
  }

  lemma DayTagsValid(tag: string, now: DateTime, cs: Option<int>, ce: Option<int>)
    requires now.Valid() && tag != "CUSTOM"
    requires tag != "THIS_MONTH" && tag != "LAST_MONTH" && tag != "THIS_QUARTER" && tag != "LAST_QUARTER"
    requires tag != "THIS_YEAR" && tag != "LAST_YEAR"
    ensures CalculateDateRange(tag, cs, ce, now).Success?
    ensures IsValidDateRange(CalculateDateRange(tag, cs, ce, now).value)
    ensures DayAligned(CalculateDateRange(tag, cs, ce, now).value)
  {
    var t := Millis(now);
    DayRangeValid(t);
    DayRangeValid(SubDays(t, 1));
    TrailingRangeValid(t, 6);
    TrailingRangeValid(t, 29);
    TrailingRangeValid(t, 89);
  }

  /** The THIS_ and LAST_ ranges of one period, with only the facts the range check needs. */
  lemma PeriodRangeValid(p: Period, now: DateTime)
    requires now.Valid()
    ensures DayAligned(ThisPeriod(p, now)) && IsValidDateRange(ThisPeriod(p, now))
    ensures DayAligned(LastPeriod(p, now)) && IsValidDateRange(LastPeriod(p, now))
  {
    ThisPeriodIsValid(p, now);
    LastPeriodAdjoinsThisPeriod(p, now);
  }

  /** One whole day is an aligned, ordered range. */
  lemma DayRangeValid(x: int)
    ensures var r := DateRange(StartOfDayUtc(x), EndOfDayUtc(x)); DayAligned(r) && IsValidDateRange(r)
  {
  }

  /** The days from `k` days back to today form an aligned, ordered range. */
  lemma TrailingRangeValid(t: int, k: nat)
    ensures var r := DateRange(StartOfDayUtc(SubDays(t, k)), EndOfDayUtc(t)); DayAligned(r) && IsValidDateRange(r)
  {
    ShiftedStartOfDay(t, k);
  }

  /** CUSTOM does not order its bounds: an end before the start is returned as given. */
  lemma CustomRangeMayBeInverted(now: DateTime)
    requires now.Valid()
    ensures CalculateDateRange("CUSTOM", Some(2 * MsPerDay), Some(0), now).Success?
    ensures !IsValidDateRange(CalculateDateRange("CUSTOM", Some(2 * MsPerDay), Some(0), now).value)
  {
  }

  /** `Math.ceil(x / d)` for a non-negative `x` and positive `d`. */
  function CeilDiv(x: nat, d: int): (q: nat)
    requires d > 0
    ensures (q - 1) * d < x <= q * d
  {
    (x + d - 1) / d
  }

  function Abs(x: int): nat { if x < 0 then -x else x }

  /** `getDaysInRange` as written: `ceil(|end − start| / day) + 1`. */
  function GetDaysInRange(r: DateRange): (n: int)
    ensures n >= 1
  {
    CeilDiv(Abs(r.endDate - r.startDate), MsPerDay) + 1
  }

  /** Both counts ignore which end comes first. */
  lemma DayCountsSymmetric(r: DateRange)
    ensures GetDaysInRange(r) == GetDaysInRange(DateRange(r.endDate, r.startDate))
    ensures DaysCovered(r) == DaysCovered(DateRange(r.endDate, r.startDate))
  {
  }

  /** The count as written is one too many for every range the tags produce: TODAY counts 2 days. */
  lemma DaysInRangeOvercounts(tag: string, n: int, now: DateTime, cs: Option<int>, ce: Option<int>)
    requires now.Valid()
    requires (tag, n) in {("TODAY", 1), ("LAST_7_DAYS", 7), ("LAST_30_DAYS", 30), ("LAST_90_DAYS", 90)}
    ensures GetDaysInRange(CalculateDateRange(tag, cs, ce, now).value) == n + 1
  {
    if tag == "TODAY" {
      TodayIsOneDay(now, cs, ce);
    } else {
      LastNDays(tag, n, now, cs, ce);
    }
    var r := CalculateDateRange(tag, cs, ce, now).value;
    assert r.endDate - r.startDate == n * MsPerDay - 1;
  }

  /** The number of UTC days a range touches, both ends included. */
  function DaysCovered(r: DateRange): (n: int)
    ensures n >= 1
  {
    Abs(r.endDate / MsPerDay - r.startDate / MsPerDay) + 1
  }

  /** The corrected count gives each tag its number of days. */
  lemma DaysCoveredByTags(tag: string, n: int, now: DateTime, cs: Option<int>, ce: Option<int>)
    requires now.Valid()
    requires (tag, n) in {("TODAY", 1), ("LAST_7_DAYS", 7), ("LAST_30_DAYS", 30), ("LAST_90_DAYS", 90)}
    ensures DaysCovered(CalculateDateRange(tag, cs, ce, now).value) == n
  {
    if tag == "TODAY" {
      TodayIsOneDay(now, cs, ce);
    } else {
      LastNDays(tag, n, now, cs, ce);
    }
    var r := CalculateDateRange(tag, cs, ce, now).value;
    var s := r.startDate / MsPerDay;
    assert r.startDate == s * MsPerDay;
    assert r.endDate == (s + n - 1) * MsPerDay + (MsPerDay - 1);
  }
}
