/**
 * Schedule times: the next run instant of a schedule, and the texts and
 * option lists the schedule form shows. All instants are in one fixed zone;
 * the `timezone` argument of the next-run calculation is accepted and ignored.
 */
module TimezoneHelper {
  import opened Wrappers
  import opened Text
  import opened Calendar
  import opened TimezoneCatalog

  const MsPerMinute: int := 60000
  const MsPerHour: int := 3600000

  /**
   * `timeOfDay.split(":").map(Number)` for the stored "HH:MM" format: two
   * digits, a colon, two digits. Other strings are outside the model.
   */
  function ParseTimeOfDay(s: string): (r: Option<(nat, nat)>)
  {
    if |s| == 5 && AllDigits(s[..2]) && s[2] == ':' && AllDigits(s[3..])
    then Some((DigitsValue(s[..2]), DigitsValue(s[3..])))
    else None
  }

  /** Two zero-padded numbers joined by a colon read back as those numbers. */
  lemma TimeOfDayRoundTrip(h: nat, m: nat)
    requires h < 100 && m < 100
    ensures ParseTimeOfDay(Pad2(h) + ":" + Pad2(m)) == Some((h, m))
  {
    var s := Pad2(h) + ":" + Pad2(m);
    assert s[..2] == Pad2(h) && s[3..] == Pad2(m);
    Pad2RoundTrip(h);
    Pad2RoundTrip(m);
  }

  /** Two digits read as a number and padded back to two digits give the digits. */
  lemma Pad2OfTwoDigits(t: string)
    requires |t| == 2 && AllDigits(t)
    ensures DigitsValue(t) < 100 && Pad2(DigitsValue(t)) == t
  {
    assert t[..1][..0] == [];
    assert DigitsValue(t[..1]) == t[0] as int - '0' as int;
  }

  /** A parsed time prints back, zero-padded, as the text it was read from. */
  lemma ParseTimeOfDayInverse(s: string)
    requires ParseTimeOfDay(s).Some?
    ensures Pad2(ParseTimeOfDay(s).value.0) + ":" + Pad2(ParseTimeOfDay(s).value.1) == s
  {
    Pad2OfTwoDigits(s[..2]);
    Pad2OfTwoDigits(s[3..]);
    assert s == s[..2] + [s[2]] + s[3..];
  }

  /** `hours % 12 || 12`: the hour on a 12-hour clock. */
  function DisplayHour(hours: nat): (d: nat)
    ensures 1 <= d <= 12
    ensures d % 12 == hours % 12
  {
    if hours % 12 == 0 then 12 else hours % 12
  }

  /** "AM" or "PM". */
  function Period(hours: nat): (p: string)
    ensures p == "PM" <==> hours >= 12
    ensures p == "AM" <==> hours < 12
  {
    if hours >= 12 then "PM" else "AM"
  }

  /** `formatTimeDisplay` on an already split time: "h:mm AM". */
  function FormatTimeDisplay(hours: nat, minutes: nat): (r: string)
  {
    NatToString(DisplayHour(hours)) + ":" + Pad2(minutes) + " " + Period(hours)
  }

  /** The caption splits into the hour, the two minute digits and the period, at fixed distances from its end. */
  lemma TimeDisplayParts(hours: nat, minutes: nat)
    requires minutes < 100
    ensures var r := FormatTimeDisplay(hours, minutes);
      |r| >= 7 && r[..|r| - 6] == NatToString(DisplayHour(hours)) && r[|r| - 5..|r| - 3] == Pad2(minutes) &&
      r[|r| - 2..] == Period(hours)
  {
    NatToStringRoundTrip(DisplayHour(hours));
    CaptionParts(NatToString(DisplayHour(hours)), Pad2(minutes), Period(hours));
  }

  /** Where the parts of "<a>:<p> <q>" sit when `p` and `q` have two characters each. */
  lemma CaptionParts(a: string, p: string, q: string)
    requires |p| == 2 && |q| == 2
    ensures var r := a + ":" + p + " " + q;
      |r| == |a| + 6 && r[..|r| - 6] == a && r[|r| - 5..|r| - 3] == p && r[|r| - 2..] == q
  {
    var t := ":" + p + " " + q;
    var r := a + t;
    assert a + ":" + p + " " + q == r;
    assert r[..|r| - 6] == a;
    assert r[|r| - 5..|r| - 3] == t[1..3] == p;
    assert r[|r| - 2..] == t[4..] == q;
  }

  /** The caption ends in "PM" exactly for the afternoon hours. */
  lemma TimeDisplayPeriod(hours: nat, minutes: nat)
    requires minutes < 100
    ensures EndsWith(FormatTimeDisplay(hours, minutes), "PM") <==> hours >= 12
  {
    TimeDisplayParts(hours, minutes);
    assert "AM"[0] != "PM"[0];
  }

  /** Different times of day get different captions. */
  lemma TimeDisplayInjective(h1: nat, m1: nat, h2: nat, m2: nat)
    requires h1 < 24 && h2 < 24 && m1 < 60 && m2 < 60
    requires FormatTimeDisplay(h1, m1) == FormatTimeDisplay(h2, m2)
    ensures h1 == h2 && m1 == m2
  {
    TimeDisplayParts(h1, m1);
    TimeDisplayParts(h2, m2);
    Pad2RoundTrip(m1);
    Pad2RoundTrip(m2);
    NatToStringInjective(DisplayHour(h1), DisplayHour(h2));
    assert (Period(h1) == "PM") == (Period(h2) == "PM");
  }

  lemma FormatTimeDisplayExamples()
    ensures FormatTimeDisplay(0, 0) == "12:00 AM"
    ensures FormatTimeDisplay(9, 5) == "9:05 AM"
    ensures FormatTimeDisplay(12, 30) == "12:30 PM"
    ensures FormatTimeDisplay(23, 0) == "11:00 PM"
  {
    assert NatToString(11) == "11";
  }

  /** `getDayOfWeekName`: the English weekday for 0 (Sunday) … 6, and "" for anything else. */
  function GetDayOfWeekName(day: int): (r: string)
    ensures r == "" <==> !(0 <= day < 7)
  {
    if 0 <= day < 7 then
      ["Sunday", "Monday", "Tuesday", "Wednesday", "Thursday", "Friday", "Saturday"][day]
    else ""
  }

  lemma EpochDayName()
    ensures GetDayOfWeekName(Weekday(Date(1970, 1, 1))) == "Thursday"
  {
    EpochWasThursday();
  }

  /** `getOrdinalSuffix`, with `%` truncating as in JavaScript. */
  function GetOrdinalSuffix(day: int): (r: string)
    ensures r in {"st", "nd", "rd", "th"}
    ensures 1 <= day <= 31 ==> (r == "st" <==> day in {1, 21, 31})
    ensures 1 <= day <= 31 ==> (r == "nd" <==> day in {2, 22})
    ensures 1 <= day <= 31 ==> (r == "rd" <==> day in {3, 23})
    ensures day <= 0 || 4 <= day <= 20 ==> r == "th"
  {
    if day > 3 && day < 21 then "th"
    else
      var last := JsRem(day, 10);
      if last == 1 then "st" else if last == 2 then "nd" else if last == 3 then "rd" else "th"
  }

  /** `formatDayOfMonth`: "1st", "22nd", … */
  function FormatDayOfMonth(day: int): (r: string)
    ensures EndsWith(r, GetOrdinalSuffix(day))
  {
    IntToString(day) + GetOrdinalSuffix(day)
  }

  datatype TimeOption = TimeOption(value: string, caption: string)
  datatype DayOption = DayOption(value: int, caption: string)

  /** `generateDayOfWeekOptions`: Sunday (0) to Saturday (6), each captioned with its name. */
  function GenerateDayOfWeekOptions(): (r: seq<DayOption>)
    ensures |r| == 7
    ensures forall i :: 0 <= i < 7 ==> r[i].value == i && r[i].caption == GetDayOfWeekName(i)
  {
    [DayOption(0, "Sunday"), DayOption(1, "Monday"), DayOption(2, "Tuesday"), DayOption(3, "Wednesday"),
     DayOption(4, "Thursday"), DayOption(5, "Friday"), DayOption(6, "Saturday")]
  }

  /** The option for `hour`:`minute`: "HH:MM" and its 12-hour caption. */
  function ClockOption(hour: nat, minute: nat): TimeOption
  {
    TimeOption(Pad2(hour) + ":" + Pad2(minute), FormatTimeDisplay(hour, minute))
  }

  /** Every option's value reads back as its hour and minute. */
  lemma ClockOptionParses(hour: nat, minute: nat)
    requires hour < 100 && minute < 100
    ensures ParseTimeOfDay(ClockOption(hour, minute).value) == Some((hour, minute))
  {
    TimeOfDayRoundTrip(hour, minute);
  }

  /** The options on the hour and the half hour for the first `hours` hours of the day. */
  function HalfHourOptions(hours: nat): (r: seq<TimeOption>)
    ensures |r| == 2 * hours
  {
    if hours == 0 then [] else HalfHourOptions(hours - 1) + [ClockOption(hours - 1, 0), ClockOption(hours - 1, 30)]
  }

  lemma {:induction false} HalfHourOptionsAt(hours: nat, h: nat)
    requires h < hours
    ensures HalfHourOptions(hours)[2 * h] == ClockOption(h, 0)
    ensures HalfHourOptions(hours)[2 * h + 1] == ClockOption(h, 30)
  {
    if h < hours - 1 {
      HalfHourOptionsAt(hours - 1, h);
    }
  }

  /** `generateTimeOptions`: every half hour from 00:00 to 23:30, in order. */
  method GenerateTimeOptions() returns (options: seq<TimeOption>)
    ensures |options| == 48
    ensures forall h :: 0 <= h < 24 ==> options[2 * h] == ClockOption(h, 0) && options[2 * h + 1] == ClockOption(h, 30)
  {
    options := [];
    var hour := 0;
    while hour < 24
      invariant 0 <= hour <= 24
      invariant options == HalfHourOptions(hour)
    {
      var minute := 0;
      while minute < 60
        invariant minute == 0 || minute == 30 || minute == 60
        invariant options == HalfHourOptions(hour) + HourSoFar(hour, minute)
      {
        var value := Pad2(hour) + ":" + Pad2(minute);
        assert TimeOption(value, FormatTimeDisplay(hour, minute)) == ClockOption(hour, minute);
        options := options + [TimeOption(value, FormatTimeDisplay(hour, minute))];
        minute := minute + 30;
      }
      hour := hour + 1;
    }
    HalfHourOptionsOfDay();
  }

  /** The options of `hour` the inner loop has added once it reaches `minute`. */
  function HourSoFar(hour: nat, minute: nat): seq<TimeOption>
  {
    if minute == 0 then [] else if minute == 30 then [ClockOption(hour, 0)] else [ClockOption(hour, 0), ClockOption(hour, 30)]
  }

  lemma HalfHourOptionsOfDay()
    ensures |HalfHourOptions(24)| == 48
    ensures forall h :: 0 <= h < 24 ==>
      HalfHourOptions(24)[2 * h] == ClockOption(h, 0) && HalfHourOptions(24)[2 * h + 1] == ClockOption(h, 30)
  {
    forall h | 0 <= h < 24
      ensures HalfHourOptions(24)[2 * h] == ClockOption(h, 0) && HalfHourOptions(24)[2 * h + 1] == ClockOption(h, 30)
    {
      HalfHourOptionsAt(24, h);
    }
  }

  /** `generateDayOfMonthOptions`: the days 1 … 31, then −1 for the last day of the month. */
  method GenerateDayOfMonthOptions() returns (options: seq<DayOption>)
    ensures |options| == 32
    ensures forall i :: 0 <= i < 31 ==> options[i] == DayOption(i + 1, FormatDayOfMonth(i + 1))
    ensures options[31] == DayOption(-1, "Last day of month")
  {
    options := [];
    var day := 1;
    while day <= 31
      invariant 1 <= day <= 32
      invariant |options| == day - 1
      invariant forall i :: 0 <= i < |options| ==> options[i] == DayOption(i + 1, FormatDayOfMonth(i + 1))
    {
      options := options + [DayOption(day, FormatDayOfMonth(day))];
      day := day + 1;
    }
    var last := DayOption(-1, "Last day of month");
    assert forall i :: 0 <= i < |options| ==> (options + [last])[i] == options[i];
    options := options + [last];
  }

  /** `setHours(hours, minutes, 0, 0)`: that time on the same day, rolling into later days past 24:00. */
  function SetHours(t: DateTime, hours: nat, minutes: nat): (r: DateTime)
    requires t.Valid()
    ensures r.Valid()
    ensures hours < 24 && minutes < 60 ==> r == DateTime(t.date, hours * MsPerHour + minutes * MsPerMinute)
  {
    var total := hours * MsPerHour + minutes * MsPerMinute;
    DateTime(AddDays(t.date, total / MsPerDay), total % MsPerDay)
  }

  /** `setDate(getDate() + k)`. */
  function ShiftDays(t: DateTime, k: int): (r: DateTime)
    requires t.Valid()
    ensures r.Valid() && r.msOfDay == t.msOfDay
    ensures Millis(r) == Millis(t) + k * MsPerDay
  {
    DateTime(AddDays(t.date, k), t.msOfDay)
  }

  /** `setDate(day)`: day `day` of the same month, rolling over either end of it. */
  function SetDate(t: DateTime, day: int): (r: DateTime)
    requires t.Valid()
    ensures r.Valid() && r.msOfDay == t.msOfDay
    ensures 1 <= day <= DaysInMonth(t.date.year, t.date.month) ==> r.date == Date(t.date.year, t.date.month, day)
  {
    var first := FirstOfMonth(t.date.year, t.date.month);
    var r := DateTime(AddDays(first, day - 1), t.msOfDay);
    if 1 <= day <= DaysInMonth(t.date.year, t.date.month) then AddDaysWithinMonth(first, day - 1); r else r
  }

  /** `setMonth(getMonth() + 1, day)`: day `day` of the next month, rolling over either end of it. */
  function SetNextMonth(t: DateTime, day: int): (r: DateTime)
    requires t.Valid()
    ensures r.Valid() && r.msOfDay == t.msOfDay
  {
    var next := NextMonth(t.date.year, t.date.month);
    DateTime(AddDays(FirstOfMonth(next.0, next.1), day - 1), t.msOfDay)
  }

  /** DAILY: today at the time, or tomorrow once that has passed. */
  function DailyRun(atTime: DateTime, now: DateTime): (r: DateTime)
    requires atTime.Valid() && now.Valid()
    ensures r.Valid()
  {
    if Millis(atTime) <= Millis(now) then ShiftDays(atTime, 1) else atTime
  }

  /** The days from `atTime` to the next `dayOfWeek`, a full week when that is today and the time has passed. */
  function DaysUntil(atTime: DateTime, dayOfWeek: int, now: DateTime): int
    requires atTime.Valid() && now.Valid()
  {
    var until := dayOfWeek - Weekday(atTime.date);
    if until < 0 || (until == 0 && Millis(atTime) <= Millis(now)) then until + 7 else until
  }

  /** WEEKLY with a weekday. */
  function WeeklyRun(atTime: DateTime, dayOfWeek: int, now: DateTime): (r: DateTime)
    requires atTime.Valid() && now.Valid()
    ensures r.Valid()
  {
    ShiftDays(atTime, DaysUntil(atTime, dayOfWeek, now))
  }

  /** MONTHLY with a day of the month, −1 meaning the last. */
  function MonthlyRun(atTime: DateTime, dayOfMonth: int, now: DateTime): (r: DateTime)
    requires atTime.Valid() && now.Valid()
    ensures r.Valid()
  {
    if dayOfMonth == -1 then SetNextMonth(atTime, 0)
    else
      var onDay := SetDate(atTime, dayOfMonth);
      if Millis(onDay) <= Millis(now) then SetNextMonth(onDay, onDay.date.day) else onDay
  }

  /**
   * The next run of a schedule as `calculateNextRunTime` computes it; the
   * time zone plays no part.
   */
  function NextRunTime(frequency: string, hours: nat, minutes: nat, dayOfWeek: Option<int>, dayOfMonth: Option<int>,
                       now: DateTime): (r: DateTime)
    requires now.Valid()
    ensures r.Valid()
  {
    var atTime := SetHours(now, hours, minutes);
    if frequency == "DAILY" then DailyRun(atTime, now)
    else if frequency == "WEEKLY" then
      if dayOfWeek.Some? then WeeklyRun(atTime, dayOfWeek.value, now) else atTime
    else if frequency == "MONTHLY" then
      if dayOfMonth.Some? then MonthlyRun(atTime, dayOfMonth.value, now) else atTime
    else atTime
  }

  /** `calculateNextRunTime`, updating the candidate instant step by step. */
  method CalculateNextRunTime(frequency: string, hours: nat, minutes: nat, dayOfWeek: Option<int>,
                              dayOfMonth: Option<int>, timezone: string, now: DateTime) returns (nextRun: DateTime)
    requires now.Valid()
    ensures nextRun == NextRunTime(frequency, hours, minutes, dayOfWeek, dayOfMonth, now)
  {
    nextRun := SetHours(now, hours, minutes);
    ghost var atTime := nextRun;
    if frequency == "DAILY" {
      if Millis(nextRun) <= Millis(now) {
        nextRun := ShiftDays(nextRun, 1);
      }
      assert nextRun == DailyRun(atTime, now);
    } else if frequency == "WEEKLY" {
      if dayOfWeek.Some? {
        var currentDay := Weekday(nextRun.date);
        var daysUntilTarget := dayOfWeek.value - currentDay;
        if daysUntilTarget < 0 || (daysUntilTarget == 0 && Millis(nextRun) <= Millis(now)) {
          daysUntilTarget := daysUntilTarget + 7;
        }
        assert daysUntilTarget == DaysUntil(atTime, dayOfWeek.value, now);
        nextRun := ShiftDays(nextRun, daysUntilTarget);
      }
    } else if frequency == "MONTHLY" {
      if dayOfMonth.Some? {
        if dayOfMonth.value == -1 {
          nextRun := SetNextMonth(nextRun, 0);
        } else {
          nextRun := SetDate(nextRun, dayOfMonth.value);
          if Millis(nextRun) <= Millis(now) {
            nextRun := SetNextMonth(nextRun, nextRun.date.day);
          }
        }
        assert nextRun == MonthlyRun(atTime, dayOfMonth.value, now);
      }
    }
  }

  /** The clock time of a valid "HH:MM" in milliseconds. */
  function TimeMs(hours: nat, minutes: nat): int
  {
    hours * MsPerHour + minutes * MsPerMinute
  }

  /** DAILY: at hh:mm:00.000, strictly after now and at most a day later. */
  lemma DailyNextRun(hours: nat, minutes: nat, dw: Option<int>, dm: Option<int>, now: DateTime)
    requires now.Valid() && hours < 24 && minutes < 60
    ensures NextRunTime("DAILY", hours, minutes, dw, dm, now).msOfDay == TimeMs(hours, minutes)
    ensures Millis(now) < Millis(NextRunTime("DAILY", hours, minutes, dw, dm, now)) <= Millis(now) + MsPerDay
  {
  }

  /** Moving forward to the weekday `dayOfWeek`, possibly into the next week, lands on it. */
  lemma WeekdayReached(d: Date, k: int, dayOfWeek: int)
    requires d.Valid() && 0 <= dayOfWeek <= 6
    requires Weekday(d) + k == dayOfWeek || Weekday(d) + k == dayOfWeek + 7
    ensures Weekday(AddDays(d, k)) == dayOfWeek
  {
    WeekdayAddDays(d, k);
    WeekMod(Weekday(d) + k, dayOfWeek);
  }

  lemma WeekMod(x: int, w: int)
    requires 0 <= w <= 6 && (x == w || x == w + 7)
    ensures x % 7 == w
  {
  }

  /** WEEKLY from a same-day candidate: on the weekday, at the candidate's time, within the next seven days. */
  lemma WeeklyRunFollows(atTime: DateTime, dayOfWeek: int, now: DateTime)
    requires atTime.Valid() && now.Valid() && atTime.date == now.date && 0 <= dayOfWeek <= 6
    ensures WeeklyRun(atTime, dayOfWeek, now).msOfDay == atTime.msOfDay
    ensures Weekday(WeeklyRun(atTime, dayOfWeek, now).date) == dayOfWeek
    ensures Millis(now) < Millis(WeeklyRun(atTime, dayOfWeek, now)) <= Millis(now) + 7 * MsPerDay
  {
    var k := DaysUntil(atTime, dayOfWeek, now);
    assert 0 <= k <= 7;
    var w := Weekday(atTime.date);
    assert w + k == dayOfWeek || w + k == dayOfWeek + 7;
    var target := AddDays(atTime.date, k);
    WeekdayReached(atTime.date, k, dayOfWeek);
    assert WeeklyRun(atTime, dayOfWeek, now).date == target;
  }

  /** WEEKLY with a weekday 0 … 6: on that weekday at hh:mm, strictly after now and at most a week later. */
  lemma WeeklyNextRun(hours: nat, minutes: nat, dayOfWeek: int, dm: Option<int>, now: DateTime)
    requires now.Valid() && hours < 24 && minutes < 60 && 0 <= dayOfWeek <= 6
    ensures NextRunTime("WEEKLY", hours, minutes, Some(dayOfWeek), dm, now).msOfDay == TimeMs(hours, minutes)
    ensures Weekday(NextRunTime("WEEKLY", hours, minutes, Some(dayOfWeek), dm, now).date) == dayOfWeek
    ensures Millis(now) < Millis(NextRunTime("WEEKLY", hours, minutes, Some(dayOfWeek), dm, now)) <= Millis(now) + 7 * MsPerDay
  {
    WeeklyRunFollows(SetHours(now, hours, minutes), dayOfWeek, now);
  }

  /**
   * MONTHLY from a same-day candidate with a day 1 … 28: on that day, at the
   * candidate's time, after now; in this month, or in the next one only when
   * this month's occurrence is not after now.
   */
  lemma MonthlyRunFollows(atTime: DateTime, dayOfMonth: int, now: DateTime)
    requires atTime.Valid() && now.Valid() && atTime.date == now.date && 1 <= dayOfMonth <= 28
    ensures MonthlyRun(atTime, dayOfMonth, now).msOfDay == atTime.msOfDay
    ensures MonthlyRun(atTime, dayOfMonth, now).date.day == dayOfMonth
    ensures Millis(now) < Millis(MonthlyRun(atTime, dayOfMonth, now))
    ensures MonthlyRun(atTime, dayOfMonth, now).date == Date(now.date.year, now.date.month, dayOfMonth) ||
            (MonthlyRun(atTime, dayOfMonth, now).date ==
               Date(NextMonth(now.date.year, now.date.month).0, NextMonth(now.date.year, now.date.month).1, dayOfMonth) &&
             Millis(DateTime(Date(now.date.year, now.date.month, dayOfMonth), atTime.msOfDay)) <= Millis(now))
  {
    var onDay := SetDate(atTime, dayOfMonth);
    assert onDay.date == Date(now.date.year, now.date.month, dayOfMonth);
    if Millis(onDay) <= Millis(now) {
      NextMonthDayFollows(now.date, dayOfMonth);
      MillisOrder(now, SetNextMonth(onDay, dayOfMonth));
    }
  }

  /** Day `day` of the next month comes after every day of this one. */
  lemma NextMonthDayFollows(d: Date, day: int)
    requires d.Valid() && 1 <= day <= 28
    ensures var next := NextMonth(d.year, d.month);
      var r := AddDays(FirstOfMonth(next.0, next.1), day - 1);
      r == Date(next.0, next.1, day) && DayNumber(d) < DayNumber(r)
  {
    var next := NextMonth(d.year, d.month);
    var first := FirstOfMonth(next.0, next.1);
    AddDaysWithinMonth(first, day - 1);
    assert PrevMonth(next.0, next.1) == (d.year, d.month);
    LastOfPrevMonthPrecedesFirst(next.0, next.1);
  }

  /**
   * MONTHLY with a day 1 … 28: on that day at hh:mm, strictly after now; in
   * this month, or in the next one only when this month's occurrence has passed.
   */
  lemma MonthlyNextRun(hours: nat, minutes: nat, dw: Option<int>, dayOfMonth: int, now: DateTime)
    requires now.Valid() && hours < 24 && minutes < 60 && 1 <= dayOfMonth <= 28
    ensures NextRunTime("MONTHLY", hours, minutes, dw, Some(dayOfMonth), now).msOfDay == TimeMs(hours, minutes)
    ensures NextRunTime("MONTHLY", hours, minutes, dw, Some(dayOfMonth), now).date.day == dayOfMonth
    ensures Millis(now) < Millis(NextRunTime("MONTHLY", hours, minutes, dw, Some(dayOfMonth), now))
    ensures NextRunTime("MONTHLY", hours, minutes, dw, Some(dayOfMonth), now).date ==
              Date(now.date.year, now.date.month, dayOfMonth) ||
            (NextRunTime("MONTHLY", hours, minutes, dw, Some(dayOfMonth), now).date ==
               Date(NextMonth(now.date.year, now.date.month).0, NextMonth(now.date.year, now.date.month).1, dayOfMonth) &&
             Millis(DateTime(Date(now.date.year, now.date.month, dayOfMonth), TimeMs(hours, minutes))) <= Millis(now))
  {
    MonthlyRunFollows(SetHours(now, hours, minutes), dayOfMonth, now);
  }

  /** MONTHLY with −1: the last day of the current month at hh:mm, even when that has passed. */
  lemma MonthlyLastDay(hours: nat, minutes: nat, dw: Option<int>, now: DateTime)
    requires now.Valid() && hours < 24 && minutes < 60
    ensures NextRunTime("MONTHLY", hours, minutes, dw, Some(-1), now) ==
      DateTime(LastOfMonth(now.date.year, now.date.month), TimeMs(hours, minutes))
  {
    var d := now.date;
    var next := NextMonth(d.year, d.month);
    assert PrevMonth(next.0, next.1) == (d.year, d.month);
    LastOfPrevMonthPrecedesFirst(next.0, next.1);
    var r := AddDays(FirstOfMonth(next.0, next.1), -1);
    DayNumberInjective(r, LastOfMonth(d.year, d.month));
  }

  /** Any other frequency, or WEEKLY/MONTHLY without their day, gives today at hh:mm, passed or not. */
  lemma UnadvancedNextRun(frequency: string, hours: nat, minutes: nat, dw: Option<int>, dm: Option<int>, now: DateTime)
    requires now.Valid() && hours < 24 && minutes < 60
    requires frequency !in {"DAILY", "WEEKLY", "MONTHLY"} || (frequency == "WEEKLY" && dw.None?) ||
             (frequency == "MONTHLY" && dm.None?)
    ensures NextRunTime(frequency, hours, minutes, dw, dm, now) == DateTime(now.date, TimeMs(hours, minutes))
  {
  }

  /** What a description shows for the zone: its label when one is given and non-empty, else nothing. */
  function ZoneText(timezone: Option<string>): string
  {
    if Truthy(timezone) then GetTimezoneLabel(timezone.value) else ""
  }

  /** The words before " at " in a schedule description. */
  function ScheduleSubject(frequency: string, dayOfWeek: Option<int>, dayOfMonth: Option<int>): string
  {
    if frequency == "DAILY" then "Daily"
    else if frequency == "WEEKLY" then
      if dayOfWeek.Some? then "Every " + GetDayOfWeekName(dayOfWeek.value) else "Weekly"
    else if frequency == "MONTHLY" then
      if dayOfMonth.Some? then
        "Monthly on the " + (if dayOfMonth.value == -1 then "last day" else FormatDayOfMonth(dayOfMonth.value))
      else "Monthly"
    else frequency
  }

  /** `formatScheduleDescription`: "<subject> at <time> <zone>". */
  function FormatScheduleDescription(frequency: string, hours: nat, minutes: nat, dayOfWeek: Option<int>,
                                     dayOfMonth: Option<int>, timezone: Option<string>): (r: string)
    ensures StartsWith(r, ScheduleSubject(frequency, dayOfWeek, dayOfMonth) + " at ")
    ensures EndsWith(r, " " + ZoneText(timezone))
  {
    var subject, time, zone := ScheduleSubject(frequency, dayOfWeek, dayOfMonth), FormatTimeDisplay(hours, minutes), ZoneText(timezone);
    DescriptionParts(subject, time, zone);
    subject + " at " + time + " " + zone
  }

  /** Where the subject, the time and the zone sit in "<subject> at <time> <zone>". */
  lemma DescriptionParts(subject: string, time: string, zone: string)
    ensures var r := subject + " at " + time + " " + zone;
      StartsWith(r, subject + " at ") && EndsWith(r, " " + zone)
      && |r| == |subject| + |time| + |zone| + 5 && r[|subject| + 4..|r| - |zone| - 1] == time
  {
    var head, tail := subject + " at ", " " + zone;
    var r := head + time + tail;
    assert subject + " at " + time + " " + zone == r;
    PrefixOfConcat(head, time + tail);
    PrefixOfConcat(head + time, tail);
    assert head + (time + tail) == r;
    assert r[|head|..|r| - |tail|] == time;
  }

  /** Two schedules of the same kind and zone, at different times of day, are described differently. */
  lemma DescriptionDeterminesTime(frequency: string, h1: nat, m1: nat, h2: nat, m2: nat, dayOfWeek: Option<int>,
                                  dayOfMonth: Option<int>, timezone: Option<string>)
    requires h1 < 24 && h2 < 24 && m1 < 60 && m2 < 60
    requires FormatScheduleDescription(frequency, h1, m1, dayOfWeek, dayOfMonth, timezone) ==
             FormatScheduleDescription(frequency, h2, m2, dayOfWeek, dayOfMonth, timezone)
    ensures h1 == h2 && m1 == m2
  {
    var subject, zone := ScheduleSubject(frequency, dayOfWeek, dayOfMonth), ZoneText(timezone);
    var t1, t2 := FormatTimeDisplay(h1, m1), FormatTimeDisplay(h2, m2);
    DescriptionParts(subject, t1, zone);
    DescriptionParts(subject, t2, zone);
    TimeDisplayInjective(h1, m1, h2, m2);
  }

  /** Without a zone, or with an empty one, the description ends in the period of the time and the separating space. */
  lemma DescriptionWithoutZone(frequency: string, hours: nat, minutes: nat, dayOfWeek: Option<int>,
                               dayOfMonth: Option<int>, timezone: Option<string>)
    requires minutes < 100
    requires timezone.None? || timezone == Some("")
    ensures EndsWith(FormatScheduleDescription(frequency, hours, minutes, dayOfWeek, dayOfMonth, timezone), Period(hours) + " ")
  {
    var subject, time := ScheduleSubject(frequency, dayOfWeek, dayOfMonth), FormatTimeDisplay(hours, minutes);
    assert ZoneText(timezone) == "";
    TimeDisplayParts(hours, minutes);
    var r := subject + " at " + time + " " + "";
    assert r == (subject + " at " + time[..|time| - 2]) + (Period(hours) + " ");
    PrefixOfConcat(subject + " at " + time[..|time| - 2], Period(hours) + " ");
  }
}
