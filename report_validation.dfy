/**
 * The check the report API runs on a new or edited report before storing
 * it (`validateReportData`): the name, the type, the schedule and the
 * recipients are checked in a fixed order and the first failure is
 * reported with its message.
 */
module ReportValidation {
  import opened Wrappers
  import opened Text
  import opened ReportTypes
  import opened RecipientForm
  import TimezoneHelper

  /** The schedule part of the request body; absent fields are `None`. */
  datatype ScheduleInput = ScheduleInput(
    frequency: Option<string>, timeOfDay: Option<string>, timezone: Option<string>,
    dayOfWeek: Option<int>, dayOfMonth: Option<int>)

  datatype RecipientInput = RecipientInput(email: Option<string>)

  /** The request body as far as the check reads it. */
  datatype ReportInput = ReportInput(
    name: Option<string>, reportType: Option<string>, schedule: Option<ScheduleInput>,
    recipients: Option<seq<RecipientInput>>)

  const Frequencies: seq<string> := ["DAILY", "WEEKLY", "MONTHLY", "CUSTOM"]
  const MaxNameLength := 100

  const NameRequired := "Report name is required"
  const NameTooLong := "Report name must be 100 characters or less"
  const TypeInvalid := "Invalid report type"
  const ScheduleRequired := "Schedule configuration is required"
  const FrequencyInvalid := "Invalid schedule frequency"
  const TimeInvalid := "Invalid time format (expected HH:MM)"
  const TimezoneRequired := "Timezone is required"
  const WeekdayRequired := "Day of week is required for weekly reports (0-6)"
  const MonthDayRequired := "Day of month is required for monthly reports (1-31 or -1 for last day)"
  const RecipientsRequired := "At least one recipient is required"

  /** The language of `/^\d{2}:\d{2}$/`: two ASCII digits, a colon, two ASCII digits, nothing else. */
  predicate TimePattern(t: string)
  {
    |t| == 5 && IsDigit(t[0]) && IsDigit(t[1]) && t[2] == ':' && IsDigit(t[3]) && IsDigit(t[4])
  }

  // ------------------------------------------------------------ the checks, in order

  predicate NameGiven(d: ReportInput)
  {
    d.name.Some? && !AllWhitespace(d.name.value)
  }

  predicate NameShort(d: ReportInput)
  {
    d.name.Some? && |d.name.value| <= MaxNameLength
  }

  predicate TypeKnown(d: ReportInput)
  {
    d.reportType.Some? && IsValidReportType(d.reportType.value)
  }

  predicate FrequencyKnown(s: ScheduleInput)
  {
    s.frequency.Some? && s.frequency.value in Frequencies
  }

  predicate TimeGiven(s: ScheduleInput)
  {
    s.timeOfDay.Some? && TimePattern(s.timeOfDay.value)
  }

  predicate TimezoneGiven(s: ScheduleInput)
  {
    s.timezone.Some? && s.timezone.value != ""
  }

  /** A weekly schedule names a weekday 0..6; other frequencies need none. */
  predicate WeekdayGiven(s: ScheduleInput)
  {
    s.frequency == Some("WEEKLY") ==> s.dayOfWeek.Some? && 0 <= s.dayOfWeek.value <= 6
  }

  /** A monthly schedule names a day 1..31, or -1 for the last day; other frequencies need none. */
  predicate MonthDayGiven(s: ScheduleInput)
  {
    s.frequency == Some("MONTHLY") ==> s.dayOfMonth.Some? && (1 <= s.dayOfMonth.value <= 31 || s.dayOfMonth.value == -1)
  }

  predicate RecipientsGiven(d: ReportInput)
  {
    d.recipients.Some? && |d.recipients.value| > 0
  }

  /** Every recipient has an address that matches the pattern. */
  ghost predicate EmailsValid(rs: seq<RecipientInput>)
  {
    forall i :: 0 <= i < |rs| ==> rs[i].email.Some? && EmailPattern(rs[i].email.value)
  }

  /** The schedule passes its checks. */
  predicate ScheduleValid(s: ScheduleInput)
  {
    FrequencyKnown(s) && TimeGiven(s) && TimezoneGiven(s) && WeekdayGiven(s) && MonthDayGiven(s)
  }

  /** Everything before the recipients passes. */
  predicate HeadValid(d: ReportInput)
  {
    NameGiven(d) && NameShort(d) && TypeKnown(d) && d.schedule.Some? && ScheduleValid(d.schedule.value)
  }

  /** How `${recipient.email}` renders a missing address. */
  function Shown(email: Option<string>): string
  {
    email.GetOr("undefined")
  }

  /**
   * `validateReportData`: valid exactly when every check passes; otherwise
   * the message of the first check that fails, and for the recipients the
   * first address that does not match.
   */
  method ValidateReportData(d: ReportInput) returns (v: Verdict)
    ensures v.isValid <==> v.error.None?
    ensures v.isValid <==> HeadValid(d) && RecipientsGiven(d) && EmailsValid(d.recipients.value)
    ensures !NameGiven(d) ==> v.error == Some(NameRequired)
    ensures NameGiven(d) && !NameShort(d) ==> v.error == Some(NameTooLong)
    ensures NameGiven(d) && NameShort(d) && !TypeKnown(d) ==> v.error == Some(TypeInvalid)
    ensures NameGiven(d) && NameShort(d) && TypeKnown(d) && d.schedule.None? ==> v.error == Some(ScheduleRequired)
    ensures NameGiven(d) && NameShort(d) && TypeKnown(d) && d.schedule.Some? ==>
      var s := d.schedule.value;
      (!FrequencyKnown(s) ==> v.error == Some(FrequencyInvalid))
      && (FrequencyKnown(s) && !TimeGiven(s) ==> v.error == Some(TimeInvalid))
      && (FrequencyKnown(s) && TimeGiven(s) && !TimezoneGiven(s) ==> v.error == Some(TimezoneRequired))
      && (FrequencyKnown(s) && TimeGiven(s) && TimezoneGiven(s) && !WeekdayGiven(s) ==> v.error == Some(WeekdayRequired))
      && (FrequencyKnown(s) && TimeGiven(s) && TimezoneGiven(s) && WeekdayGiven(s) && !MonthDayGiven(s) ==> v.error == Some(MonthDayRequired))
    ensures HeadValid(d) && !RecipientsGiven(d) ==> v.error == Some(RecipientsRequired)
    ensures HeadValid(d) && RecipientsGiven(d) && !v.isValid ==>
      var rs := d.recipients.value;
      exists j :: 0 <= j < |rs| && v.error == Some(InvalidAddressMessage(Shown(rs[j].email))) && !(rs[j].email.Some? && EmailPattern(rs[j].email.value)) && EmailsValid(rs[..j])
  {
    if !NameGiven(d) {
      return Verdict(false, Some(NameRequired));
    }
    if |d.name.value| > MaxNameLength {
      return Verdict(false, Some(NameTooLong));
    }
    if !TypeKnown(d) {
      return Verdict(false, Some(TypeInvalid));
    }
    if d.schedule.None? {
      return Verdict(false, Some(ScheduleRequired));
    }
    var s := d.schedule.value;
    if !FrequencyKnown(s) {
      return Verdict(false, Some(FrequencyInvalid));
    }
    if !TimeGiven(s) {
      return Verdict(false, Some(TimeInvalid));
    }
    if !TimezoneGiven(s) {
      return Verdict(false, Some(TimezoneRequired));
    }
    if s.frequency == Some("WEEKLY") && (s.dayOfWeek.None? || s.dayOfWeek.value < 0 || s.dayOfWeek.value > 6) {
      return Verdict(false, Some(WeekdayRequired));
    }
    if s.frequency == Some("MONTHLY")
       && (s.dayOfMonth.None? || (s.dayOfMonth.value < 1 && s.dayOfMonth.value != -1) || s.dayOfMonth.value > 31) {
      return Verdict(false, Some(MonthDayRequired));
    }
    if d.recipients.None? || |d.recipients.value| == 0 {
      return Verdict(false, Some(RecipientsRequired));
    }
    var rs := d.recipients.value;
    var emails := seq(|rs|, i requires 0 <= i < |rs| => rs[i].email.GetOr(""));
    var found := FindInvalidEmail(emails);
    if found.Some? {
      var j := found.value;
      assert EmailsValid(rs[..j]) by {
        forall i | 0 <= i < j
          ensures rs[..j][i].email.Some? && EmailPattern(rs[..j][i].email.value)
        {
          assert emails[i] == rs[i].email.GetOr("") && EmailPattern(emails[i]);
        }
      }
      if rs[j].email.None? {
        assert !IsEmail("");
      }
      return Verdict(false, Some(InvalidAddressMessage(Shown(rs[j].email))));
    }
    assert EmailsValid(rs) by {
      forall i | 0 <= i < |rs|
        ensures rs[i].email.Some? && EmailPattern(rs[i].email.value)
      {
        assert emails[i] == rs[i].email.GetOr("") && EmailPattern(emails[i]);
      }
    }
    return Verdict(true, None);
  }

  // ------------------------------------------------------------ what a valid report guarantees

  /** The time of a valid schedule reads back as two numbers below 100, as the next-run calculation expects. */
  lemma ValidTimeParses(t: string)
    requires TimePattern(t)
    ensures TimezoneHelper.ParseTimeOfDay(t).Some?
    ensures var (h, m) := TimezoneHelper.ParseTimeOfDay(t).value; h < 100 && m < 100
  {
    assert t[..2] == [t[0], t[1]] && t[3..] == [t[3], t[4]];
    TwoDigitsBelowHundred(t[..2]);
    TwoDigitsBelowHundred(t[3..]);
  }

  lemma TwoDigitsBelowHundred(s: string)
    requires |s| == 2 && AllDigits(s)
    ensures DigitsValue(s) < 100
  {
    assert s[..1][..0] == [];
    assert DigitsValue(s[..1]) == s[0] as int - '0' as int;
    assert DigitsValue(s) == DigitsValue(s[..1]) * 10 + (s[1] as int - '0' as int);
  }

  /** The time pattern checks the shape only: hours past 23 and minutes past 59 pass. */
  lemma TimePatternIsLoose()
    ensures TimePattern("99:99") && TimePattern("24:00")
    ensures TimezoneHelper.ParseTimeOfDay("99:99") == Some((99, 99))
  {
    TimezoneHelper.TimeOfDayRoundTrip(99, 99);
    assert Pad2(99) + ":" + Pad2(99) == "99:99";
  }

  /** A valid monthly day is one the next-run calculation handles: 1..31, or -1 for the last day. */
  lemma ValidMonthDayInRange(s: ScheduleInput)
    requires ScheduleValid(s) && s.frequency == Some("MONTHLY")
    ensures s.dayOfMonth.Some? && s.dayOfMonth.value != 0 && -1 <= s.dayOfMonth.value <= 31
  {
  }
}
