/**
 * The email service: `sendReportEmail` mails the report file to every
 * recipient, `sendErrorNotification` mails the failure of a run to every
 * recipient. Both try one send per recipient, in list order; a failing
 * send is counted and described and the loop goes on. The result says
 * how many sends succeeded and failed, and it is a success when at least
 * one mail went out.
 *
 * The SMTP transport is an object whose outcomes are scripted: the
 * outcome of a send depends on the number of sends made before it and on
 * the address. The transport logs every mail it is asked to send. The
 * date in the report subject and the existence of the report file are
 * passed in.
 */
module EmailService {
  import opened Wrappers
  import opened Text

  datatype Recipient = Recipient(email: string, name: Option<string>)

  /** How a send ended: delivered, or an exception (`Some(message)` when it is an `Error`). */
  datatype SendOutcome = Delivered | Rejected(error: Option<string>)

  /** A mail handed to the transport: a report mail greets its recipient, an error notification lists tips. */
  datatype Mail =
    | ReportMail(to: string, subject: string, recipientName: string, dateRange: Option<string>)
    | ErrorMail(to: string, subject: string, tipsText: string)

  datatype SendEmailResult = SendEmailResult(success: bool, emailsSent: nat, emailsFailed: nat, errors: Option<seq<string>>)

  /** The scripted SMTP transport and the mails it was asked to send, in order. */
  class Transport {
    const outcomes: (nat, string) -> SendOutcome
    var log: seq<Mail>

    constructor(outcomes: (nat, string) -> SendOutcome)
      ensures this.outcomes == outcomes && log == []
    {
      this.outcomes := outcomes;
      log := [];
    }

    /** `transporter.sendMail(mail)`. */
    method SendMail(mail: Mail) returns (o: SendOutcome)
      modifies this
      ensures o == outcomes(|old(log)|, mail.to)
      ensures log == old(log) + [mail]
    {
      o := outcomes(|log|, mail.to);
      log := log + [mail];
    }
  }

  // ------------------------------------------------------------ greeting

  /** `s.split(sep)[0]`: the text before the first `sep`, or all of it. */
  function BeforeFirst(s: string, sep: char): (r: string)
    ensures |r| <= |s| && r == s[..|r|]
    ensures sep !in r
    ensures |r| < |s| ==> s[|r|] == sep
  {
    if |s| == 0 || s[0] == sep then "" else [s[0]] + BeforeFirst(s[1..], sep)
  }

  /** `recipient.name || recipient.email.split("@")[0]`. */
  function RecipientName(r: Recipient): (n: string)
    ensures Truthy(r.name) ==> n == r.name.value
    ensures !Truthy(r.name) ==> StartsWith(r.email, n) && '@' !in n
    ensures !Truthy(r.name) && '@' in r.email ==> r.email[|n|] == '@'
    ensures !Truthy(r.name) && '@' !in r.email ==> n == r.email
  {
    OrElse(r.name, BeforeFirst(r.email, '@'))
  }

  /** An address `local@domain` greets `local` when no name is given. */
  lemma GreetsLocalPart(local: string, domain: string, name: Option<string>)
    requires '@' !in local
    requires !Truthy(name)
    ensures RecipientName(Recipient(local + "@" + domain, name)) == local
  {
    var email := local + "@" + domain;
    var n := RecipientName(Recipient(email, name));
    assert email[|local|] == '@';
    assert forall j :: 0 <= j < |local| ==> email[j] == local[j];
  }

  // ------------------------------------------------------------ counting

  /** The counters of a sending loop: the sends that went out, and one message per failed send. */
  datatype Tally = Tally(sent: nat, errors: seq<string>)

  /** `error instanceof Error ? error.message : "Unknown error"`. */
  function ErrorText(error: Option<string>): string
  {
    error.GetOr("Unknown error")
  }

  /** The message recorded for a failed send to `email`. */
  function FailureLine(prefix: string, email: string, error: Option<string>): string
  {
    prefix + email + ": " + ErrorText(error)
  }

  /** The outcome of the send to recipient `i`, the `i`-th send from send number `start`. */
  function OutcomeOf(outcomes: (nat, string) -> SendOutcome, start: nat, recipients: seq<Recipient>, i: nat): SendOutcome
    requires i < |recipients|
  {
    outcomes(start + i, recipients[i].email)
  }

  /**
   * The counters after the loop has tried every recipient: a delivered
   * send adds one to `sent`, a rejected one adds its failure line.
   */
  function Deliver(outcomes: (nat, string) -> SendOutcome, start: nat, recipients: seq<Recipient>, prefix: string): Tally
  {
    if |recipients| == 0 then Tally(0, [])
    else
      var last := |recipients| - 1;
      Record(Deliver(outcomes, start, recipients[..last], prefix), OutcomeOf(outcomes, start, recipients, last), prefix,
             recipients[last].email)
  }

  /** The counters after one more send to `email`: a delivery adds one to `sent`, a rejection its failure line. */
  function Record(t: Tally, outcome: SendOutcome, prefix: string, email: string): Tally
  {
    match outcome
    case Delivered => Tally(t.sent + 1, t.errors)
    case Rejected(e) => Tally(t.sent, t.errors + [FailureLine(prefix, email, e)])
  }

  /** The result the loop returns: `errors` only when there are some. */
  function Summary(t: Tally): (r: SendEmailResult)
    ensures r.success <==> r.emailsSent > 0
    ensures r.emailsFailed == |t.errors| && r.emailsSent == t.sent
    ensures r.errors.Some? <==> r.emailsFailed > 0
    ensures r.errors.Some? ==> r.errors.value == t.errors
  {
    SendEmailResult(t.sent > 0, t.sent, |t.errors|, if |t.errors| > 0 then Some(t.errors) else None)
  }

  /** Every recipient is counted exactly once, as sent or as failed. */
  lemma {:induction false} DeliverCounts(outcomes: (nat, string) -> SendOutcome, start: nat, recipients: seq<Recipient>, prefix: string)
    decreases |recipients|
    ensures Deliver(outcomes, start, recipients, prefix).sent + |Deliver(outcomes, start, recipients, prefix).errors| == |recipients|
  {
    if |recipients| > 0 {
      DeliverCounts(outcomes, start, recipients[..|recipients| - 1], prefix);
    }
  }

  /** Some mail went out exactly when some recipient's send was delivered. */
  lemma {:induction false} SentIffSomeDelivered(outcomes: (nat, string) -> SendOutcome, start: nat, recipients: seq<Recipient>, prefix: string)
    decreases |recipients|
    ensures Deliver(outcomes, start, recipients, prefix).sent > 0 <==>
              exists i :: 0 <= i < |recipients| && OutcomeOf(outcomes, start, recipients, i).Delivered?
  {
    if |recipients| > 0 {
      var init := recipients[..|recipients| - 1];
      SentIffSomeDelivered(outcomes, start, init, prefix);
      forall i | 0 <= i < |init| ensures OutcomeOf(outcomes, start, init, i) == OutcomeOf(outcomes, start, recipients, i) {
      }
    }
  }

  /** `line` is the failure line of some recipient whose send was rejected. */
  ghost predicate RejectionLine(outcomes: (nat, string) -> SendOutcome, start: nat, recipients: seq<Recipient>, prefix: string,
                                line: string)
  {
    exists i :: 0 <= i < |recipients| && OutcomeOf(outcomes, start, recipients, i).Rejected? &&
      line == FailureLine(prefix, recipients[i].email, OutcomeOf(outcomes, start, recipients, i).error)
  }

  /** Every failure line belongs to a recipient whose send was rejected. */
  lemma {:induction false} ErrorsAreRejections(outcomes: (nat, string) -> SendOutcome, start: nat, recipients: seq<Recipient>, prefix: string)
    decreases |recipients|
    ensures forall line :: line in Deliver(outcomes, start, recipients, prefix).errors ==>
      RejectionLine(outcomes, start, recipients, prefix, line)
  {
    if |recipients| > 0 {
      var init := recipients[..|recipients| - 1];
      ErrorsAreRejections(outcomes, start, init, prefix);
      var last := |recipients| - 1;
      forall line | line in Deliver(outcomes, start, recipients, prefix).errors
        ensures RejectionLine(outcomes, start, recipients, prefix, line)
      {
        if line in Deliver(outcomes, start, init, prefix).errors {
          assert RejectionLine(outcomes, start, init, prefix, line);
          var i :| 0 <= i < |init| && OutcomeOf(outcomes, start, init, i).Rejected? &&
            line == FailureLine(prefix, init[i].email, OutcomeOf(outcomes, start, init, i).error);
          assert OutcomeOf(outcomes, start, init, i) == OutcomeOf(outcomes, start, recipients, i);
        } else {
          assert OutcomeOf(outcomes, start, recipients, last).Rejected?;
        }
      }
    }
  }

  /** Every rejected send has its failure line among the errors. */
  lemma {:induction false} RejectionsAreErrors(outcomes: (nat, string) -> SendOutcome, start: nat, recipients: seq<Recipient>,
                                               prefix: string, i: nat)
    requires i < |recipients| && OutcomeOf(outcomes, start, recipients, i).Rejected?
    decreases |recipients|
    ensures FailureLine(prefix, recipients[i].email, OutcomeOf(outcomes, start, recipients, i).error)
              in Deliver(outcomes, start, recipients, prefix).errors
  {
    var init := recipients[..|recipients| - 1];
    if i < |init| {
      RejectionsAreErrors(outcomes, start, init, prefix, i);
      assert OutcomeOf(outcomes, start, init, i) == OutcomeOf(outcomes, start, recipients, i);
    }
  }

  /** When every send is delivered, all recipients are counted as sent and nothing as failed. */
  lemma {:induction false} AllDelivered(outcomes: (nat, string) -> SendOutcome, start: nat, recipients: seq<Recipient>, prefix: string)
    requires forall i :: 0 <= i < |recipients| ==> OutcomeOf(outcomes, start, recipients, i).Delivered?
    decreases |recipients|
    ensures Deliver(outcomes, start, recipients, prefix) == Tally(|recipients|, [])
  {
    if |recipients| > 0 {
      var init := recipients[..|recipients| - 1];
      forall i | 0 <= i < |init| ensures OutcomeOf(outcomes, start, init, i).Delivered? {
        assert OutcomeOf(outcomes, start, init, i) == OutcomeOf(outcomes, start, recipients, i);
      }
      AllDelivered(outcomes, start, init, prefix);
    }
  }

  /**
   * The result of either sending loop: every recipient is counted once,
   * the result is a success exactly when some send was delivered, and
   * there is one error per failed send.
   */
  lemma SendResultCounts(outcomes: (nat, string) -> SendOutcome, start: nat, recipients: seq<Recipient>, prefix: string)
    ensures var r := Summary(Deliver(outcomes, start, recipients, prefix));
      && r.emailsSent + r.emailsFailed == |recipients|
      && (r.success <==> exists i :: 0 <= i < |recipients| && OutcomeOf(outcomes, start, recipients, i).Delivered?)
      && (r.errors.Some? ==> |r.errors.value| == r.emailsFailed)
  {
    DeliverCounts(outcomes, start, recipients, prefix);
    SentIffSomeDelivered(outcomes, start, recipients, prefix);
  }

  // ------------------------------------------------------------ sending

  /** One more iteration of a sending loop: the counters of one more recipient. */
  lemma DeliverStep(outcomes: (nat, string) -> SendOutcome, start: nat, recipients: seq<Recipient>, prefix: string, i: nat)
    requires i < |recipients|
    ensures Deliver(outcomes, start, recipients[..i + 1], prefix) ==
      Record(Deliver(outcomes, start, recipients[..i], prefix), outcomes(start + i, recipients[i].email), prefix, recipients[i].email)
  {
    assert recipients[..i + 1][..i] == recipients[..i];
  }

  const ReportFailurePrefix := "Failed to send email to "
  const NotificationFailurePrefix := "Failed to send error notification to "

  /** The mails `sendReportEmail` hands to the transport: one per recipient, in list order. */
  function ReportMails(recipients: seq<Recipient>, subject: string, dateRange: Option<string>): (ms: seq<Mail>)
    ensures |ms| == |recipients|
    ensures forall i :: 0 <= i < |recipients| ==>
      ms[i] == ReportMail(recipients[i].email, subject, RecipientName(recipients[i]), dateRange)
  {
    seq(|recipients|, i requires 0 <= i < |recipients| => ReportMail(recipients[i].email, subject, RecipientName(recipients[i]), dateRange))
  }

  /** The mails `sendErrorNotification` hands to the transport: one per recipient, in list order. */
  function NotificationMails(recipients: seq<Recipient>, subject: string, tipsText: string): (ms: seq<Mail>)
    ensures |ms| == |recipients|
    ensures forall i :: 0 <= i < |recipients| ==> ms[i] == ErrorMail(recipients[i].email, subject, tipsText)
  {
    seq(|recipients|, i requires 0 <= i < |recipients| => ErrorMail(recipients[i].email, subject, tipsText))
  }

  lemma ReportMailsStep(recipients: seq<Recipient>, subject: string, dateRange: Option<string>, i: nat)
    requires i < |recipients|
    ensures ReportMails(recipients[..i + 1], subject, dateRange) ==
              ReportMails(recipients[..i], subject, dateRange) + [ReportMail(recipients[i].email, subject, RecipientName(recipients[i]), dateRange)]
  {
  }

  lemma NotificationMailsStep(recipients: seq<Recipient>, subject: string, tipsText: string, i: nat)
    requires i < |recipients|
    ensures NotificationMails(recipients[..i + 1], subject, tipsText) ==
              NotificationMails(recipients[..i], subject, tipsText) + [ErrorMail(recipients[i].email, subject, tipsText)]
  {
  }

  /** The subject of a report mail: the report name and the date it is sent. */
  function ReportSubject(reportName: string, today: string): string
  {
    reportName + " - " + today
  }

  /** The subject of an error notification. */
  function NotificationSubject(reportName: string): string
  {
    "\U{26A0}\U{FE0F} Report Failed: " + reportName
  }

  /**
   * `sendReportEmail`. A missing report file sends nothing and counts every
   * recipient as failed, with one error naming the file; otherwise one mail
   * goes to each recipient, in order, and the counters are those of the
   * sends' outcomes.
   */
  method SendReportEmail(transport: Transport, recipients: seq<Recipient>, reportName: string, filePath: string,
                         fileExists: bool, dateRange: Option<string>, today: string)
    returns (r: SendEmailResult)
    modifies transport
    ensures !fileExists ==> r == SendEmailResult(false, 0, |recipients|, Some(["Report file not found: " + filePath]))
    ensures !fileExists ==> transport.log == old(transport.log)
    ensures fileExists ==> r == Summary(Deliver(transport.outcomes, |old(transport.log)|, recipients, ReportFailurePrefix))
    ensures fileExists ==> transport.log == old(transport.log) + ReportMails(recipients, ReportSubject(reportName, today), dateRange)
  {
    if !fileExists {
      return SendEmailResult(false, 0, |recipients|, Some(["Report file not found: " + filePath]));
    }
    ghost var start := |transport.log|;
    var subject := ReportSubject(reportName, today);
    var emailsSent := 0;
    var emailsFailed := 0;
    var errors: seq<string> := [];
    for i := 0 to |recipients|
      invariant transport.log == old(transport.log) + ReportMails(recipients[..i], subject, dateRange)
      invariant |transport.log| == start + i
      invariant Tally(emailsSent, errors) == Deliver(transport.outcomes, start, recipients[..i], ReportFailurePrefix)
      invariant emailsFailed == |errors|
    {
      var recipient := recipients[i];
      ghost var before := Tally(emailsSent, errors);
      ghost var logBefore := transport.log;
      var outcome := transport.SendMail(ReportMail(recipient.email, subject, RecipientName(recipient), dateRange));
      match outcome {
        case Delivered =>
          emailsSent := emailsSent + 1;
        case Rejected(e) =>
          emailsFailed := emailsFailed + 1;
          errors := errors + [FailureLine(ReportFailurePrefix, recipient.email, e)];
      }
      assert Tally(emailsSent, errors) == Record(before, outcome, ReportFailurePrefix, recipient.email);
      DeliverStep(transport.outcomes, start, recipients, ReportFailurePrefix, i);
      ReportMailsStep(recipients, subject, dateRange, i);
      assert transport.log == old(transport.log) + (ReportMails(recipients[..i], subject, dateRange) + [ReportMail(recipient.email, subject, RecipientName(recipient), dateRange)]);
    }
    assert recipients[..|recipients|] == recipients;
    r := SendEmailResult(emailsSent > 0, emailsSent, emailsFailed, if |errors| > 0 then Some(errors) else None);
  }

  /**
   * `sendErrorNotification`: the same loop without the file check, one
   * notification per recipient carrying the troubleshooting tips.
   */
  method SendErrorNotification(transport: Transport, recipients: seq<Recipient>, reportName: string, tips: seq<string>)
    returns (r: SendEmailResult)
    modifies transport
    ensures r == Summary(Deliver(transport.outcomes, |old(transport.log)|, recipients, NotificationFailurePrefix))
    ensures transport.log == old(transport.log) + NotificationMails(recipients, NotificationSubject(reportName), TipsText(tips))
  {
    ghost var start := |transport.log|;
    var subject := NotificationSubject(reportName);
    var tipsText := TipsText(tips);
    var emailsSent := 0;
    var emailsFailed := 0;
    var errors: seq<string> := [];
    for i := 0 to |recipients|
      invariant transport.log == old(transport.log) + NotificationMails(recipients[..i], subject, tipsText)
      invariant |transport.log| == start + i
      invariant Tally(emailsSent, errors) == Deliver(transport.outcomes, start, recipients[..i], NotificationFailurePrefix)
      invariant emailsFailed == |errors|
    {
      var recipient := recipients[i];
      ghost var before := Tally(emailsSent, errors);
      ghost var logBefore := transport.log;
      var outcome := transport.SendMail(ErrorMail(recipient.email, subject, tipsText));
      match outcome {
        case Delivered =>
          emailsSent := emailsSent + 1;
        case Rejected(e) =>
          emailsFailed := emailsFailed + 1;
          errors := errors + [FailureLine(NotificationFailurePrefix, recipient.email, e)];
      }
      assert Tally(emailsSent, errors) == Record(before, outcome, NotificationFailurePrefix, recipient.email);
      DeliverStep(transport.outcomes, start, recipients, NotificationFailurePrefix, i);
      NotificationMailsStep(recipients, subject, tipsText, i);
      assert transport.log == old(transport.log) + (NotificationMails(recipients[..i], subject, tipsText) + [ErrorMail(recipient.email, subject, tipsText)]);
    }
    assert recipients[..|recipients|] == recipients;
    r := SendEmailResult(emailsSent > 0, emailsSent, emailsFailed, if |errors| > 0 then Some(errors) else None);
  }

  // ------------------------------------------------------------ tips

  /** The rule under a plain-text heading: 41 box-drawing characters. */
  const Rule: string := "─────────────────────────────────────────"

  /** `tips.map((tip, index) => `${index + 1}. ${tip}`)`. */
  function NumberedTips(tips: seq<string>): (lines: seq<string>)
    ensures |lines| == |tips|
    ensures forall i :: 0 <= i < |tips| ==> lines[i] == NatToString(i + 1) + ". " + tips[i]
  {
    seq(|tips|, i requires 0 <= i < |tips| => NatToString(i + 1) + ". " + tips[i])
  }

  /** The plain-text troubleshooting section: a heading and the numbered tips, or nothing without tips. */
  function TipsText(tips: seq<string>): string
  {
    if |tips| > 0 then "\nTROUBLESHOOTING TIPS\n" + Rule + "\n" + Join(NumberedTips(tips), "\n") + "\n" else ""
  }

  /** The HTML tips list: one `<li>` per tip, in order. */
  function HtmlTipItems(tips: seq<string>): (items: seq<string>)
    ensures |items| == |tips|
    ensures forall i :: 0 <= i < |tips| ==> items[i] == "<li>" + tips[i] + "</li>"
  {
    seq(|tips|, i requires 0 <= i < |tips| => "<li>" + tips[i] + "</li>")
  }

  /** The HTML troubleshooting box holds the joined items; it is left out without tips. */
  function TipsHtml(tips: seq<string>): string
  {
    if |tips| > 0 then "<ul>" + Join(HtmlTipItems(tips), "") + "</ul>" else ""
  }

  /** The tips section is absent exactly when there are no tips, in both renderings. */
  lemma TipsOmittedIffEmpty(tips: seq<string>)
    ensures TipsText(tips) == "" <==> |tips| == 0
    ensures TipsHtml(tips) == "" <==> |tips| == 0
  {
  }

  /** Tip `i` is shown as line `i + 1`, its number read back from the text is `i + 1`, and the section holds it. */
  lemma TipNumbered(tips: seq<string>, i: nat)
    requires i < |tips|
    ensures var line := NumberedTips(tips)[i];
      && Contains(TipsText(tips), line)
      && exists number :: AllDigits(number) && DigitsValue(number) == i + 1 && line == number + ". " + tips[i]
  {
    var line := NumberedTips(tips)[i];
    NatToStringRoundTrip(i + 1);
    JoinContainsParts(NumberedTips(tips), "\n", i);
    ContainsInConcat("\nTROUBLESHOOTING TIPS\n" + Rule + "\n", Join(NumberedTips(tips), "\n"), "\n", line);
  }

  /** Every tip appears as its own list item in the HTML section. */
  lemma TipListed(tips: seq<string>, i: nat)
    requires i < |tips|
    ensures Contains(TipsHtml(tips), "<li>" + tips[i] + "</li>")
  {
    JoinContainsParts(HtmlTipItems(tips), "", i);
    ContainsInConcat("<ul>", Join(HtmlTipItems(tips), ""), "</ul>", HtmlTipItems(tips)[i]);
  }
}
