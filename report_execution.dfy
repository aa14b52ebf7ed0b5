/**
 * The report execution service: `executeReport` runs one scheduled report
 * through its steps (look the schedule up, open a RUNNING history record,
 * fetch, process, email, record SUCCESS, reschedule, delete the temporary
 * file) and turns any failure on the way into a FAILED record;
 * `executeScheduledReports` runs every due report of a shop in turn and
 * counts the outcomes.
 *
 * The database is an object holding the schedules, the history records
 * (a record's id is its position) and the files on disk. The fetch, the
 * processing, the computed next run time and whether deleting the file
 * fails are outcomes passed in; the mails go through the email service's
 * transport.
 */
module ReportExecution {
  import opened Wrappers
  import opened Text
  import ShopifyFetch
  import ReportProcessor
  import EmailService
  import DateRangeHelper

  // ------------------------------------------------------------ date range label

  /** The tags `formatDateRangeForEmail` labels: every date range tag but CUSTOM. */
  const LabelledTags: seq<string> := ["TODAY", "YESTERDAY", "LAST_7_DAYS", "LAST_30_DAYS", "LAST_90_DAYS",
    "THIS_WEEK", "LAST_WEEK", "THIS_MONTH", "LAST_MONTH", "THIS_QUARTER", "LAST_QUARTER", "THIS_YEAR", "LAST_YEAR"]

  /** Their labels, in the same order. */
  const Labels: seq<string> := ["Today", "Yesterday", "Last 7 Days", "Last 30 Days", "Last 90 Days",
    "This Week", "Last Week", "This Month", "Last Month", "This Quarter", "Last Quarter", "This Year", "Last Year"]

  /** The position of `value` among the labelled tags from `from` on, or their number when it is not one. */
  function TagIndex(value: string, from: nat): (i: nat)
    requires from <= |LabelledTags|
    decreases |LabelledTags| - from
    ensures from <= i <= |LabelledTags|
    ensures i < |LabelledTags| ==> LabelledTags[i] == value
    ensures forall j :: from <= j < i ==> LabelledTags[j] != value
  {
    if from == |LabelledTags| || LabelledTags[from] == value then from else TagIndex(value, from + 1)
  }

  /** `dateRangeMap[value] || value`. */
  function FormatDateRangeForEmail(value: string): (shown: string)
    ensures value in LabelledTags ==> exists i :: 0 <= i < |LabelledTags| && LabelledTags[i] == value && shown == Labels[i]
    ensures value !in LabelledTags ==> shown == value
  {
    var i := TagIndex(value, 0);
    if i < |LabelledTags| then Labels[i] else value
  }

  /** Tags are upper case and labels are not: the second character tells them apart. */
  lemma LabelsAreNotTags()
    ensures |LabelledTags| == |Labels| == 13
    ensures forall i :: 0 <= i < |LabelledTags| ==> |LabelledTags[i]| > 1 && 'A' <= LabelledTags[i][1] <= 'Z'
    ensures forall i :: 0 <= i < |Labels| ==> |Labels[i]| > 1 && 'a' <= Labels[i][1] <= 'z'
  {
  }

  /** Formatting a tag changes it; formatting a label, or anything else, leaves it as it is. */
  lemma FormatDateRangeIdempotent(value: string)
    ensures value in LabelledTags ==> FormatDateRangeForEmail(value) != value
    ensures FormatDateRangeForEmail(FormatDateRangeForEmail(value)) == FormatDateRangeForEmail(value)
  {
    LabelsAreNotTags();
    var shown := FormatDateRangeForEmail(value);
    if value in LabelledTags {
      var i :| 0 <= i < |LabelledTags| && LabelledTags[i] == value && shown == Labels[i];
      assert 'a' <= shown[1] <= 'z';
    }
  }

  /** Every tag the date range calculation knows, except CUSTOM, has a label. */
  lemma KnownTagsLabelled()
    ensures forall i :: 0 <= i < |DateRangeHelper.KnownTags| && DateRangeHelper.KnownTags[i] != "CUSTOM" ==>
      DateRangeHelper.KnownTags[i] in LabelledTags
  {
  }

  // ------------------------------------------------------------ store

  datatype Filter = Filter(key: string, value: string)

  datatype Schedule = Schedule(
    shop: string,
    name: string,
    reportType: string,
    isActive: bool,
    filters: seq<Filter>,
    recipients: seq<EmailService.Recipient>,
    lastRunAt: Option<int>,
    nextRunAt: Option<int>)

  datatype Status = Running | Succeeded | Failed

  datatype HistoryRecord = HistoryRecord(
    scheduleId: string,
    status: Status,
    startedAt: int,
    completedAt: Option<int>,
    recordCount: Option<nat>,
    fileSize: Option<nat>,
    filePath: Option<string>,
    emailsSent: Option<nat>,
    emailsFailed: Option<nat>,
    errorMessage: Option<string>)

  /** The database and the report directory. */
  class Store {
    var schedules: map<string, Schedule>
    var history: seq<HistoryRecord>
    var files: set<string>

    constructor(schedules: map<string, Schedule>, files: set<string>)
      ensures this.schedules == schedules && history == [] && this.files == files
    {
      this.schedules := schedules;
      history := [];
      this.files := files;
    }
  }

  /** The id of history record `i`. */
  function HistoryId(i: nat): (id: string)
    ensures id != "unknown"
  {
    assert ("history-" + NatToString(i))[0] == 'h';
    "history-" + NatToString(i)
  }

  /** Different records have different ids. */
  lemma HistoryIdsDistinct(i: nat, j: nat)
    requires HistoryId(i) == HistoryId(j)
    ensures i == j
  {
    var p := "history-";
    assert HistoryId(i)[|p|..] == NatToString(i);
    assert HistoryId(j)[|p|..] == NatToString(j);
    NatToStringInjective(i, j);
  }

  /** The value of the first filter with key `key`, as `filters.find` picks it. */
  function FindFilter(filters: seq<Filter>, key: string): (v: Option<string>)
    ensures v.Some? <==> exists i :: 0 <= i < |filters| && filters[i].key == key
    ensures v.Some? ==>
      exists i :: 0 <= i < |filters| && filters[i] == Filter(key, v.value) && (forall j :: 0 <= j < i ==> filters[j].key != key)
  {
    if |filters| == 0 then None
    else if filters[0].key == key then Some(filters[0].value)
    else
      var rest := FindFilter(filters[1..], key);
      assert forall i :: 1 <= i < |filters| ==> filters[i] == filters[1..][i - 1];
      if rest.Some? then
        ghost var k :| 0 <= k < |filters[1..]| && filters[1..][k] == Filter(key, rest.value) &&
          forall j :: 0 <= j < k ==> filters[1..][j].key != key;
        assert filters[k + 1] == Filter(key, rest.value);
        rest
      else rest
  }

  /** The date range line of the report mail: the label of the schedule's date range filter, if any. */
  function EmailDateRange(filters: seq<Filter>): Option<string>
  {
    var f := FindFilter(filters, "dateRange");
    if f.Some? then Some(FormatDateRangeForEmail(f.value)) else None
  }

  // ------------------------------------------------------------ one run

  /** How the mail step went: it ran its per-recipient loop, or threw before it (transport set-up, file stat). */
  datatype MailStep = MailRuns | MailThrows(error: Option<string>)

  datatype ExecuteReportResult = ExecuteReportResult(
    success: bool,
    historyId: string,
    recordCount: Option<nat>,
    emailsSent: Option<nat>,
    error: Option<string>)

  /** `${value}` of an optional string: absent renders as "undefined". */
  function Rendered(value: Option<string>): string
  {
    value.GetOr("undefined")
  }

  function FetchFailedMessage(fetched: ShopifyFetch.FetchDataResult): string
  {
    "Data fetch failed: " + Rendered(fetched.error)
  }

  function ProcessFailedMessage(processed: ReportProcessor.ProcessDataResult): string
  {
    "Data processing failed: " + Rendered(processed.error)
  }

  /** The schedule is there and active: the run gets past the lookup. */
  predicate Runnable(schedules: map<string, Schedule>, id: string)
  {
    id in schedules && schedules[id].isActive
  }

  /** `after` is `before` plus the one record of run `result` of schedule `id`. */
  ghost predicate RecordedRun(before: seq<HistoryRecord>, after: seq<HistoryRecord>, id: string, result: ExecuteReportResult)
  {
    && |after| == |before| + 1
    && after[..|before|] == before
    && after[|before|].scheduleId == id
    && result.historyId == HistoryId(|before|)
    && (result.success <==> after[|before|].status == Succeeded)
  }

  /** The schedules a run may touch keep their keys and active flags. */
  ghost predicate SameSchedules(before: map<string, Schedule>, after: map<string, Schedule>)
  {
    before.Keys == after.Keys && forall id :: id in before ==> after[id].isActive == before[id].isActive
  }

  /** The message of the exception that ends a runnable run, or `None` when it succeeds. */
  function RunError(fetched: ShopifyFetch.FetchDataResult, processed: ReportProcessor.ProcessDataResult, mail: MailStep): Option<string>
  {
    if !fetched.success then Some(FetchFailedMessage(fetched))
    else if !processed.success then Some(ProcessFailedMessage(processed))
    else if mail.MailThrows? then Some(EmailService.ErrorText(mail.error))
    else None
  }

  /** The message of a run that stops at the lookup. */
  function LookupError(schedules: map<string, Schedule>, id: string): string
  {
    if id !in schedules then "Report schedule not found: " + id else "Report is not active: " + id
  }

  /** Delete the temporary file if it exists; a failed delete is ignored. */
  method Cleanup(store: Store, filePath: Option<string>, unlinkFails: bool)
    modifies store
    ensures store.schedules == old(store.schedules) && store.history == old(store.history)
    ensures store.files == if filePath.Some? && !unlinkFails then old(store.files) - {filePath.value} else old(store.files)
  {
    if filePath.Some? && filePath.value in store.files {
      if !unlinkFails {
        store.files := store.files - {filePath.value};
      }
    }
  }

  /**
   * `executeReport`. A run that fails the lookup leaves every store
   * untouched and reports "unknown" as its history id. Any other run adds
   * exactly one history record, which ends SUCCESS or FAILED; only a
   * successful run mails the recipients (whatever the mails' outcomes) and
   * moves the schedule's run times; the CSV file written by the processing
   * step is deleted on both paths unless the delete fails, which changes
   * nothing else.
   */
  method ExecuteReport(store: Store, transport: EmailService.Transport, id: string, now: int, today: string,
                       fetched: ShopifyFetch.FetchDataResult, processed: ReportProcessor.ProcessDataResult,
                       mail: MailStep, nextRunAt: int, unlinkFails: bool)
    returns (r: ExecuteReportResult)
    requires processed.success ==> processed.filePath.Some?
    modifies store, transport
    // the lookup
    ensures !Runnable(old(store.schedules), id) ==>
      && r == ExecuteReportResult(false, "unknown", None, None, Some(LookupError(old(store.schedules), id)))
      && store.history == old(store.history) && store.files == old(store.files)
    ensures !Runnable(old(store.schedules), id) ==> transport.log == old(transport.log)
    // one record per run that gets past the lookup, and its final state
    ensures Runnable(old(store.schedules), id) ==>
      && |store.history| == |old(store.history)| + 1
      && store.history[..|old(store.history)|] == old(store.history)
      && r.historyId == HistoryId(|old(store.history)|)
    ensures Runnable(old(store.schedules), id) ==>
      var record := store.history[|old(store.history)|];
      var error := RunError(fetched, processed, mail);
      && record.scheduleId == id && record.startedAt == now && record.completedAt == Some(now)
      && (r.success <==> error.None?)
      && (error.Some? ==> r.error == error && record.status == Failed && record.errorMessage == error
                          && r.recordCount.None? && r.emailsSent.None?
                          && record.recordCount.None? && record.fileSize.None? && record.filePath.None?
                          && record.emailsSent.None? && record.emailsFailed.None?)
      && (error.None? ==> r.error.None? && record.status == Succeeded && record.errorMessage.None?)
    // mails go out only after a successful fetch and processing, and their outcomes do not decide success
    ensures Runnable(old(store.schedules), id) && RunError(fetched, processed, MailRuns).Some? ==>
      transport.log == old(transport.log)
    ensures Runnable(old(store.schedules), id) && RunError(fetched, processed, mail).None? ==>
      var schedule := old(store.schedules)[id];
      var emailed := EmailService.Summary(EmailService.Deliver(transport.outcomes, |old(transport.log)|,
                       schedule.recipients, EmailService.ReportFailurePrefix));
      var record := store.history[|old(store.history)|];
      && transport.log == old(transport.log) + EmailService.ReportMails(schedule.recipients,
           EmailService.ReportSubject(schedule.name, today), EmailDateRange(schedule.filters))
      && r == ExecuteReportResult(true, HistoryId(|old(store.history)|), Some(processed.recordCount), Some(emailed.emailsSent), None)
      && record.emailsSent == Some(emailed.emailsSent) && record.emailsFailed == Some(emailed.emailsFailed)
      && record.recordCount == Some(processed.recordCount) && record.filePath == processed.filePath
      && record.fileSize == processed.fileSize
    ensures Runnable(old(store.schedules), id) && mail.MailThrows? ==> transport.log == old(transport.log)
    // rescheduling
    ensures r.success ==> store.schedules == old(store.schedules)[id := old(store.schedules)[id].(lastRunAt := Some(now), nextRunAt := Some(nextRunAt))]
    ensures !r.success ==> store.schedules == old(store.schedules)
    // what a sequence of runs relies on
    ensures Runnable(old(store.schedules), id) ==> RecordedRun(old(store.history), store.history, id, r)
    ensures SameSchedules(old(store.schedules), store.schedules)
    // the temporary file
    ensures Runnable(old(store.schedules), id) && fetched.success && processed.success ==>
      store.files == if unlinkFails then old(store.files) + {processed.filePath.value} else old(store.files) - {processed.filePath.value}
    ensures !(fetched.success && processed.success) ==> store.files == old(store.files)
  {
    var historyId: Option<nat> := None;
    var filePath: Option<string> := None;
    var error: string;
    // the `try` block
    if id !in store.schedules {
      error := "Report schedule not found: " + id;
    } else if !store.schedules[id].isActive {
      error := "Report is not active: " + id;
    } else {
      var schedule := store.schedules[id];
      historyId := Some(|store.history|);
      store.history := store.history + [HistoryRecord(id, Running, now, None, None, None, None, None, None, None)];
      if !fetched.success {
        error := FetchFailedMessage(fetched);
      } else if !processed.success {
        error := ProcessFailedMessage(processed);
      } else {
        filePath := processed.filePath;
        store.files := store.files + {filePath.value};
        match mail {
          case MailThrows(e) =>
            error := EmailService.ErrorText(e);
          case MailRuns =>
            var emailed := EmailService.SendReportEmail(transport, schedule.recipients, schedule.name, filePath.value,
                                                        filePath.value in store.files, EmailDateRange(schedule.filters), today);
            store.history := store.history[historyId.value := HistoryRecord(id, Succeeded, now, Some(now),
              Some(processed.recordCount), processed.fileSize, filePath, Some(emailed.emailsSent), Some(emailed.emailsFailed), None)];
            store.schedules := store.schedules[id := schedule.(lastRunAt := Some(now), nextRunAt := Some(nextRunAt))];
            Cleanup(store, filePath, unlinkFails);
            return ExecuteReportResult(true, HistoryId(historyId.value), Some(processed.recordCount), Some(emailed.emailsSent), None);
        }
      }
    }
    // the `catch` block
    if historyId.Some? {
      var running := store.history[historyId.value];
      store.history := store.history[historyId.value := running.(status := Failed, completedAt := Some(now), errorMessage := Some(error))];
    }
    Cleanup(store, filePath, unlinkFails);
    r := ExecuteReportResult(false, if historyId.Some? then HistoryId(historyId.value) else "unknown", None, None, Some(error));
  }

  // ------------------------------------------------------------ due reports

  /** A schedule the poll of `shop` at `now` picks: active, of that shop, and its next run has come. */
  predicate Due(s: Schedule, shop: string, now: int)
  {
    s.shop == shop && s.isActive && s.nextRunAt.Some? && s.nextRunAt.value <= now
  }

  /** `due` lists, without repeats, exactly the schedules due for `shop` at `now`. */
  ghost predicate DueList(schedules: map<string, Schedule>, shop: string, now: int, due: seq<string>)
  {
    && (forall i, j :: 0 <= i < j < |due| ==> due[i] != due[j])
    && (forall i :: 0 <= i < |due| ==> due[i] in schedules && Due(schedules[due[i]], shop, now))
    && (forall id :: id in schedules && Due(schedules[id], shop, now) ==> id in due)
  }

  /** The outcomes of the steps of one run. */
  datatype RunInputs = RunInputs(
    fetched: ShopifyFetch.FetchDataResult,
    processed: ReportProcessor.ProcessDataResult,
    mail: MailStep,
    nextRunAt: int,
    unlinkFails: bool)

  /** The records from position `start` on are those of the runs `results` of the first due schedules, in order. */
  ghost predicate RunsRecorded(history: seq<HistoryRecord>, start: nat, due: seq<string>, results: seq<ExecuteReportResult>)
  {
    && |results| <= |due|
    && |history| == start + |results|
    && forall j :: 0 <= j < |results| ==>
      && history[start + j].scheduleId == due[j]
      && results[j].historyId == HistoryId(start + j)
      && (results[j].success <==> history[start + j].status == Succeeded)
  }

  /** One more run of the next due schedule keeps the records in step with the runs. */
  lemma RunsRecordedStep(history: seq<HistoryRecord>, after: seq<HistoryRecord>, start: nat, due: seq<string>,
                         results: seq<ExecuteReportResult>, result: ExecuteReportResult)
    requires RunsRecorded(history, start, due, results) && |results| < |due|
    requires RecordedRun(history, after, due[|results|], result)
    ensures RunsRecorded(after, start, due, results + [result])
    ensures after[..start] == history[..start]
  {
    assert forall j :: 0 <= j < |history| ==> after[j] == history[j];
  }

  /** One run of `executeReport` on a schedule that passes the lookup, as the loop over due reports sees it. */
  method RunDue(store: Store, transport: EmailService.Transport, id: string, now: int, today: string, run: RunInputs)
    returns (r: ExecuteReportResult)
    requires Runnable(store.schedules, id)
    requires run.processed.success ==> run.processed.filePath.Some?
    modifies store, transport
    ensures RecordedRun(old(store.history), store.history, id, r)
    ensures SameSchedules(old(store.schedules), store.schedules)
  {
    r := ExecuteReport(store, transport, id, now, today, run.fetched, run.processed, run.mail, run.nextRunAt, run.unlinkFails);
  }

  function CountSucceeded(results: seq<ExecuteReportResult>): (n: nat)
    ensures n <= |results|
  {
    if |results| == 0 then 0
    else CountSucceeded(results[..|results| - 1]) + (if results[|results| - 1].success then 1 else 0)
  }

  /**
   * `executeScheduledReports`: run each due report in the order listed and
   * count the successes and failures. Every due report gets exactly one
   * history record, in that order.
   */
  method ExecuteScheduledReports(store: Store, transport: EmailService.Transport, shop: string, now: int, today: string,
                                 due: seq<string>, inputs: nat -> RunInputs)
    returns (executed: nat, succeeded: nat, failed: nat, ghost results: seq<ExecuteReportResult>)
    requires DueList(store.schedules, shop, now, due)
    requires forall k: nat :: inputs(k).processed.success ==> inputs(k).processed.filePath.Some?
    modifies store, transport
    ensures executed == |due| && succeeded + failed == executed
    ensures |results| == |due| && succeeded == CountSucceeded(results)
    ensures RunsRecorded(store.history, |old(store.history)|, due, results)
    ensures store.history[..|old(store.history)|] == old(store.history)
  {
    succeeded := 0;
    failed := 0;
    results := [];
    ghost var start := |store.history|;
    ghost var firstHistory := store.history;
    ghost var schedules0 := store.schedules;
    for k := 0 to |due|
      invariant SameSchedules(schedules0, store.schedules)
      invariant |results| == k && succeeded == CountSucceeded(results) && succeeded + failed == k
      invariant RunsRecorded(store.history, start, due, results)
      invariant store.history[..start] == firstHistory
    {
      assert due[k] in schedules0 && schedules0[due[k]].isActive;
      ghost var before := store.history;
      var run := inputs(k);
      var result := RunDue(store, transport, due[k], now, today, run);
      RunsRecordedStep(before, store.history, start, due, results, result);
      ghost var counted := CountSucceeded(results);
      assert (results + [result])[..k] == results;
      results := results + [result];
      assert CountSucceeded(results) == counted + (if result.success then 1 else 0);
      if result.success {
        succeeded := succeeded + 1;
      } else {
        failed := failed + 1;
      }
    }
    executed := |due|;
  }
}
