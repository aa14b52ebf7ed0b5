/**
 * The background scheduler: a start/stop flag pair around a periodic tick.
 * A tick takes the reports due to run, groups them by shop in query order,
 * and hands each shop's group to a background batch unless that shop
 * still has a batch running; the set of busy shops is kept in
 * `runningJobs`, and a shop leaves it when its batch settles.
 *
 * The timer, the database query and the background batches themselves are
 * not modelled as running code: the tick receives the query's answer, the
 * batches it starts are logged, and a batch settling is a method call.
 */
module BackgroundScheduler {
  import opened Wrappers

  /** A due report as the tick's query returns it. */
  datatype DueReport = DueReport(id: string, name: string, shop: string)

  /** A batch handed to `executeReportsForShop`: a shop and its due reports. */
  datatype Batch = Batch(shop: string, reports: seq<DueReport>)

  predicate Distinct(xs: seq<string>)
  {
    forall i, j :: 0 <= i < j < |xs| ==> xs[i] != xs[j]
  }

  // ------------------------------------------------------------ grouping

  /** The shops of the due reports, each once, in order of first appearance. */
  function ShopsOf(due: seq<DueReport>): (shops: seq<string>)
  {
    if |due| == 0 then []
    else
      var shops := ShopsOf(due[..|due| - 1]);
      if due[|due| - 1].shop in shops then shops else shops + [due[|due| - 1].shop]
  }

  /** The due reports of `shop`, in query order. */
  function Group(due: seq<DueReport>, shop: string): (g: seq<DueReport>)
  {
    if |due| == 0 then []
    else Group(due[..|due| - 1], shop) + (if due[|due| - 1].shop == shop then [due[|due| - 1]] else [])
  }

  /** The shops are listed once each, and they are exactly the shops of the due reports. */
  lemma {:induction false} ShopsOfListsEachShopOnce(due: seq<DueReport>)
    decreases |due|
    ensures Distinct(ShopsOf(due))
    ensures forall s :: s in ShopsOf(due) <==> exists i :: 0 <= i < |due| && due[i].shop == s
  {
    if |due| > 0 {
      var init := due[..|due| - 1];
      ShopsOfListsEachShopOnce(init);
      assert forall i :: 0 <= i < |init| ==> init[i] == due[i];
    }
  }

  /** A group holds every due report of its shop and nothing else, in query order. */
  lemma {:induction false} GroupIsShopFilter(due: seq<DueReport>, shop: string)
    decreases |due|
    ensures forall r :: r in Group(due, shop) ==> r in due && r.shop == shop
    ensures forall i :: 0 <= i < |due| && due[i].shop == shop ==> due[i] in Group(due, shop)
    ensures |Group(due, shop)| == 0 <==> forall i :: 0 <= i < |due| ==> due[i].shop != shop
  {
    if |due| > 0 {
      var init := due[..|due| - 1];
      GroupIsShopFilter(init, shop);
      assert forall i :: 0 <= i < |init| ==> init[i] == due[i];
    }
  }

  /** The sum of the group sizes of `shops`. */
  function GroupSizes(due: seq<DueReport>, shops: seq<string>): nat
  {
    if |shops| == 0 then 0 else GroupSizes(due, shops[..|shops| - 1]) + |Group(due, shops[|shops| - 1])|
  }

  /** Adding one report to the due list adds one to the group of its shop and nothing to the others. */
  lemma {:induction false} GroupSizesGrow(due: seq<DueReport>, r: DueReport, shops: seq<string>)
    requires Distinct(shops)
    decreases |shops|
    ensures GroupSizes(due + [r], shops) == GroupSizes(due, shops) + (if r.shop in shops then 1 else 0)
  {
    if |shops| > 0 {
      var init := shops[..|shops| - 1];
      assert (due + [r])[..|due|] == due;
      GroupSizesGrow(due, r, init);
    }
  }

  /** The groups of one shop's absence add nothing. */
  lemma {:induction false} GroupSizesAppendAbsent(due: seq<DueReport>, shops: seq<string>, shop: string)
    requires forall i :: 0 <= i < |due| ==> due[i].shop != shop
    ensures GroupSizes(due, shops + [shop]) == GroupSizes(due, shops)
  {
    GroupIsShopFilter(due, shop);
    assert (shops + [shop])[..|shops|] == shops;
  }

  /** Each due report lands in exactly one group: the group sizes add up to the number of due reports. */
  lemma {:induction false} GroupsPartition(due: seq<DueReport>)
    decreases |due|
    ensures GroupSizes(due, ShopsOf(due)) == |due|
  {
    if |due| > 0 {
      var init := due[..|due| - 1];
      var r := due[|due| - 1];
      assert init + [r] == due;
      GroupsPartition(init);
      ShopsOfListsEachShopOnce(init);
      ShopsOfListsEachShopOnce(due);
      var shops := ShopsOf(init);
      if r.shop in shops {
        GroupSizesGrow(init, r, shops);
      } else {
        GroupSizesGrow(init, r, shops);
        GroupSizesAppendAbsent(init, shops, r.shop);
        assert GroupSizes(due, shops + [r.shop]) == GroupSizes(due, shops) + |Group(due, r.shop)|;
        assert Group(init, r.shop) == [] by {
          GroupIsShopFilter(init, r.shop);
        }
      }
    }
  }

  /** One more report: the shops and the groups after the first `i + 1` reports. */
  lemma GroupingStep(due: seq<DueReport>, i: nat)
    requires i < |due|
    ensures ShopsOf(due[..i + 1]) == if due[i].shop in ShopsOf(due[..i]) then ShopsOf(due[..i]) else ShopsOf(due[..i]) + [due[i].shop]
    ensures forall s :: Group(due[..i + 1], s) == Group(due[..i], s) + (if due[i].shop == s then [due[i]] else [])
    ensures due[i].shop !in ShopsOf(due[..i]) ==> Group(due[..i], due[i].shop) == []
  {
    assert due[..i + 1][..i] == due[..i];
    ShopsOfListsEachShopOnce(due[..i]);
    GroupIsShopFilter(due[..i], due[i].shop);
  }

  /**
   * The grouping `forEach` of the tick: the shops in first-appearance order,
   * and for each the list its reports were pushed onto.
   */
  method GroupByShop(due: seq<DueReport>) returns (shops: seq<string>, groups: map<string, seq<DueReport>>)
    ensures shops == ShopsOf(due)
    ensures forall s :: s in groups <==> s in shops
    ensures forall s :: s in groups ==> groups[s] == Group(due, s)
  {
    shops := [];
    groups := map[];
    for i := 0 to |due|
      invariant shops == ShopsOf(due[..i])
      invariant forall s :: s in groups <==> s in shops
      invariant forall s :: s in groups ==> groups[s] == Group(due[..i], s)
    {
      var report := due[i];
      GroupingStep(due, i);
      if report.shop !in groups {
        groups := groups[report.shop := []];
        shops := shops + [report.shop];
      }
      groups := groups[report.shop := groups[report.shop] + [report]];
    }
    assert due[..|due|] == due;
  }

  // ------------------------------------------------------------ dispatch

  /** The shops of `shops` that are not busy, in order. */
  function IdleShops(shops: seq<string>, busy: seq<string>): (idle: seq<string>)
  {
    if |shops| == 0 then []
    else IdleShops(shops[..|shops| - 1], busy) + (if shops[|shops| - 1] in busy then [] else [shops[|shops| - 1]])
  }

  /** The batches a tick starts for the idle shops. */
  function Batches(due: seq<DueReport>, shops: seq<string>): (bs: seq<Batch>)
    ensures |bs| == |shops|
    ensures forall k :: 0 <= k < |shops| ==> bs[k] == Batch(shops[k], Group(due, shops[k]))
  {
    seq(|shops|, k requires 0 <= k < |shops| => Batch(shops[k], Group(due, shops[k])))
  }

  /** One more shop: it is idle exactly when it is not busy, and an idle shop adds its batch. */
  lemma DispatchStep(due: seq<DueReport>, shops: seq<string>, busy: seq<string>, k: nat)
    requires k < |shops|
    ensures IdleShops(shops[..k + 1], busy) ==
      IdleShops(shops[..k], busy) + (if shops[k] in busy then [] else [shops[k]])
    ensures shops[k] !in busy ==>
      (Batches(due, IdleShops(shops[..k + 1], busy)) == Batches(due, IdleShops(shops[..k], busy)) + [Batch(shops[k], Group(due, shops[k]))])
  {
    assert shops[..k + 1][..k] == shops[..k];
  }

  /** The idle shops are the listed shops that are not busy, each once. */
  lemma {:induction false} IdleShopsMembers(shops: seq<string>, busy: seq<string>)
    requires Distinct(shops)
    decreases |shops|
    ensures Distinct(IdleShops(shops, busy))
    ensures forall s :: s in IdleShops(shops, busy) <==> s in shops && s !in busy
  {
    if |shops| > 0 {
      var init := shops[..|shops| - 1];
      IdleShopsMembers(init, busy);
      assert forall s :: s in init ==> s in shops;
      assert forall s :: s in shops ==> s in init || s == shops[|shops| - 1];
    }
  }

  /** The state of the dispatch loop after the first `k` shops. */
  ghost predicate DispatchedUpTo(due: seq<DueReport>, shops: seq<string>, busy: seq<string>, before: seq<Batch>,
                                 k: nat, jobs: seq<string>, sent: seq<Batch>)
    requires k <= |shops|
  {
    Distinct(jobs)
    && jobs == busy + IdleShops(shops[..k], busy)
    && sent == before + Batches(due, IdleShops(shops[..k], busy))
  }

  /** One shop of the dispatch loop: busy shops are skipped, the others dispatched. */
  lemma DispatchLoopStep(due: seq<DueReport>, shops: seq<string>, busy: seq<string>, before: seq<Batch>,
                         k: nat, jobs: seq<string>, sent: seq<Batch>)
    requires Distinct(shops) && k < |shops|
    requires DispatchedUpTo(due, shops, busy, before, k, jobs, sent)
    ensures shops[k] in jobs <==> shops[k] in busy
    ensures shops[k] in busy ==> DispatchedUpTo(due, shops, busy, before, k + 1, jobs, sent)
    ensures shops[k] !in busy ==>
      DispatchedUpTo(due, shops, busy, before, k + 1, jobs + [shops[k]], sent + [Batch(shops[k], Group(due, shops[k]))])
  {
    DispatchStep(due, shops, busy, k);
    IdleShopsMembers(shops[..k], busy);
    assert shops[k] !in shops[..k];
    var next := jobs + [shops[k]];
    if shops[k] !in busy {
      assert shops[k] !in jobs;
      assert forall i, j :: 0 <= i < j < |next| ==> next[i] != next[j] by {
        forall i, j | 0 <= i < j < |next|
          ensures next[i] != next[j]
        {
          if j == |jobs| { assert next[i] == jobs[i]; }
        }
      }
    }
  }

  /**
   * The dispatch loop of a tick: every shop of `due`, in order of first
   * appearance, that is not in `busy` is appended to the busy list and
   * gets one batch with all its due reports.
   */
  method Dispatch(due: seq<DueReport>, busy: seq<string>, before: seq<Batch>)
    returns (jobs: seq<string>, sent: seq<Batch>)
    requires Distinct(busy)
    ensures Distinct(jobs)
    ensures jobs == busy + IdleShops(ShopsOf(due), busy)
    ensures sent == before + Batches(due, IdleShops(ShopsOf(due), busy))
  {
    var shops, groups := GroupByShop(due);
    ShopsOfListsEachShopOnce(due);
    jobs, sent := busy, before;
    for k := 0 to |shops|
      invariant DispatchedUpTo(due, shops, busy, before, k, jobs, sent)
    {
      var shop := shops[k];
      DispatchLoopStep(due, shops, busy, before, k, jobs, sent);
      if shop in jobs {
        continue;
      }
      jobs := jobs + [shop];
      sent := sent + [Batch(shop, groups[shop])];
    }
    assert shops[..|shops|] == shops;
  }

  /** The scheduler's state. */
  class Scheduler {
    var isRunning: bool
    var hasTask: bool
    var runningJobs: seq<string>
    var dispatched: seq<Batch>

    /** The flags move together, and a shop is busy at most once. */
    predicate Valid()
      reads this
    {
      (isRunning <==> hasTask) && Distinct(runningJobs)
    }

    constructor()
      ensures Valid() && !isRunning && runningJobs == [] && dispatched == []
    {
      isRunning := false;
      hasTask := false;
      runningJobs := [];
      dispatched := [];
    }

    /** `startScheduler`: schedules the tick unless it is already running. */
    method StartScheduler()
      requires Valid()
      modifies this
      ensures Valid() && isRunning && hasTask
      ensures runningJobs == old(runningJobs) && dispatched == old(dispatched)
      ensures old(isRunning) ==> hasTask == old(hasTask)
    {
      if isRunning {
        return;
      }
      hasTask := true;
      isRunning := true;
    }

    /** `stopScheduler`: stops and drops the task, unless there is none running. */
    method StopScheduler()
      requires Valid()
      modifies this
      ensures Valid() && !isRunning && !hasTask
      ensures runningJobs == old(runningJobs) && dispatched == old(dispatched)
    {
      if !isRunning || !hasTask {
        return;
      }
      hasTask := false;
      isRunning := false;
    }

    /**
     * `checkAndExecuteReports`. `due` is the query's answer, or `None`
     * when the query threw. Every shop with due reports that is not busy
     * becomes busy and gets one batch with its reports; busy shops are
     * skipped for the whole tick.
     */
    method CheckAndExecuteReports(due: Option<seq<DueReport>>)
      requires Valid()
      modifies this
      ensures Valid()
      ensures isRunning == old(isRunning) && hasTask == old(hasTask)
      ensures due.None? || |due.value| == 0 ==> runningJobs == old(runningJobs) && dispatched == old(dispatched)
      ensures due.Some? ==>
        var idle := IdleShops(ShopsOf(due.value), old(runningJobs));
        runningJobs == old(runningJobs) + idle && dispatched == old(dispatched) + Batches(due.value, idle)
    {
      if due.None? {
        return;
      }
      runningJobs, dispatched := Dispatch(due.value, runningJobs, dispatched);
    }

    /** The `.finally` of a batch: its shop is no longer busy. */
    method BatchSettled(shop: string)
      requires Valid()
      modifies this
      ensures Valid()
      ensures forall s :: s in runningJobs <==> s in old(runningJobs) && s != shop
      ensures isRunning == old(isRunning) && hasTask == old(hasTask) && dispatched == old(dispatched)
    {
      var kept := [];
      for i := 0 to |runningJobs|
        invariant isRunning == old(isRunning) && hasTask == old(hasTask) && dispatched == old(dispatched)
        invariant runningJobs == old(runningJobs)
        invariant Distinct(kept)
        invariant forall s :: s in kept <==> s in runningJobs[..i] && s != shop
      {
        assert runningJobs[..i + 1] == runningJobs[..i] + [runningJobs[i]];
        assert runningJobs[i] !in runningJobs[..i];
        if runningJobs[i] != shop {
          kept := kept + [runningJobs[i]];
        }
      }
      assert runningJobs[..|runningJobs|] == runningJobs;
      runningJobs := kept;
    }

    /** `getSchedulerStatus`. */
    function Status(): (status: SchedulerStatus)
      requires Valid()
      reads this
      ensures status.jobCount == |status.runningJobs| && Distinct(status.runningJobs)
      ensures forall s :: s in status.runningJobs <==> s in runningJobs
      ensures status.isRunning == isRunning
    {
      SchedulerStatus(isRunning, runningJobs, |runningJobs|)
    }
  }

  datatype SchedulerStatus = SchedulerStatus(isRunning: bool, runningJobs: seq<string>, jobCount: nat)

  // ------------------------------------------------------------ one shop's batch

  /** What one `executeScheduledReports` call came to: its counters, or an exception. */
  datatype RunOutcome = Counted(succeeded: nat, failed: nat) | Threw

  /** The counters after `k` calls: each call adds its counters, an exception counts one failure. */
  function Totals(outcomes: nat -> RunOutcome, k: nat): (t: (nat, nat))
  {
    if k == 0 then (0, 0)
    else
      var before := Totals(outcomes, k - 1);
      match outcomes(k - 1)
      case Counted(s, f) => (before.0 + s, before.1 + f)
      case Threw => (before.0, before.1 + 1)
  }

  /**
   * `executeReportsForShop`: without a session nothing runs; otherwise
   * `executeScheduledReports` for the whole shop is called once per report
   * of the batch, and the counters add up.
   */
  method ExecuteReportsForShop(reports: seq<DueReport>, session: Option<string>, outcomes: nat -> RunOutcome)
    returns (calls: nat, succeeded: nat, failed: nat)
    ensures session.None? ==> calls == 0 && succeeded == 0 && failed == 0
    ensures session.Some? ==> calls == |reports| && (succeeded, failed) == Totals(outcomes, |reports|)
  {
    calls, succeeded, failed := 0, 0, 0;
    if session.None? {
      return;
    }
    for i := 0 to |reports|
      invariant calls == i && (succeeded, failed) == Totals(outcomes, i)
    {
      calls := calls + 1;
      match outcomes(i) {
        case Counted(s, f) =>
          succeeded := succeeded + s;
          failed := failed + f;
        case Threw =>
          failed := failed + 1;
      }
    }
  }

  /** Every call is counted: calls that throw add one failure each, and none adds a success. */
  lemma {:induction false} TotalsCountThrows(outcomes: nat -> RunOutcome, k: nat)
    requires forall i :: 0 <= i < k ==> outcomes(i).Threw?
    ensures Totals(outcomes, k) == (0, k)
  {
    if k > 0 {
      TotalsCountThrows(outcomes, k - 1);
    }
  }
}
