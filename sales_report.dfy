/**
 * The sales report: orders grouped by the day they were placed, one row
 * per day with the order count, the sums of the order totals, discounts,
 * taxes and net payments, and the average order value, sorted by day.
 */
module SalesReport {
  import opened Wrappers
  import opened ShopifyRecords
  import opened DayBuckets

  /** What a day bucket of the sales report accumulates. */
  datatype SalesFigures = SalesFigures(orderCount: nat, totalSales: int, totalDiscounts: int, totalTax: int, netSales: int)

  /** The bucket a day starts with. */
  const NoSales := SalesFigures(0, 0, 0, 0, 0)

  function AddSales(a: SalesFigures, b: SalesFigures): SalesFigures
  {
    SalesFigures(a.orderCount + b.orderCount, a.totalSales + b.totalSales, a.totalDiscounts + b.totalDiscounts,
                 a.totalTax + b.totalTax, a.netSales + b.netSales)
  }

  function TotalPriceOf(o: Order): int { o.totalPrice }
  function DiscountsOf(o: Order): int { o.totalDiscounts.GetOr(0) }
  function TaxOf(o: Order): int { o.totalTax.GetOr(0) }

  /** The net payment, or the order total when the order has none. */
  function NetPaymentOf(o: Order): int { o.netPayment.GetOr(o.totalPrice) }

  /** What one order adds to its day's bucket. */
  function SalesOf(o: Order): SalesFigures
  {
    SalesFigures(1, TotalPriceOf(o), DiscountsOf(o), TaxOf(o), NetPaymentOf(o))
  }

  /** Each order with its day and figures, in input order. */
  function SalesItems(orders: seq<Order>): (items: seq<(string, SalesFigures)>)
    ensures |items| == |orders|
    ensures forall k :: 0 <= k < |orders| ==> items[k] == (orders[k].day, SalesOf(orders[k]))
  {
    seq(|orders|, k requires 0 <= k < |orders| => (orders[k].day, SalesOf(orders[k])))
  }

  /** The bucket the report builds for `day`. */
  function SalesOfDay(orders: seq<Order>, day: string): SalesFigures
  {
    DayTotal(SalesItems(orders), day, NoSales, AddSales)
  }

  datatype SalesRow = SalesRow(date: string, orderCount: nat, totalSales: int, averageOrderValue: real,
                               totalDiscounts: int, totalTax: int, netSales: int)

  function RowDate(r: SalesRow): string { r.date }

  /** The row made of a day's bucket; the average divides by the order count. */
  function SalesRowOf(date: string, f: SalesFigures): SalesRow
    requires f.orderCount > 0
  {
    SalesRow(date, f.orderCount, f.totalSales, f.totalSales as real / f.orderCount as real,
             f.totalDiscounts, f.totalTax, f.netSales)
  }

  predicate HasRow(rows: seq<SalesRow>, day: string)
  {
    exists i :: 0 <= i < |rows| && rows[i].date == day
  }

  /**
   * `rows` is the sales report of `orders`: strictly ascending by day, one
   * row for each day some order was placed and for no other day, and each
   * row made of that day's bucket.
   */
  ghost predicate IsSalesReport(orders: seq<Order>, rows: seq<SalesRow>)
  {
    && StrictlyAscending(rows, RowDate)
    && (forall d :: HasRow(rows, d) <==> PlacedOn(orders, d))
    && (forall i :: 0 <= i < |rows| ==>
          SalesOfDay(orders, rows[i].date).orderCount > 0 &&
          rows[i] == SalesRowOf(rows[i].date, SalesOfDay(orders, rows[i].date)))
  }

  /** In a bucket of order contributions, the order count is the number of orders of that day. */
  lemma {:induction false} CountIsDayCount(items: seq<(string, SalesFigures)>, day: string)
    requires forall k :: 0 <= k < |items| ==> items[k].1.orderCount == 1
    ensures DayTotal(items, day, NoSales, AddSales).orderCount == DayCount(items, day)
  {
    if items != [] {
      CountIsDayCount(items[..|items| - 1], day);
    }
  }

  /** `processSalesData`: fill the day buckets in order, read them back, sort the rows by day. */
  method ProcessSalesData(orders: seq<Order>) returns (rows: seq<SalesRow>)
    ensures IsSalesReport(orders, rows)
  {
    ghost var items := SalesItems(orders);
    var salesByDate: map<string, SalesFigures> := map[];
    var days: seq<string> := [];
    for k := 0 to |orders|
      invariant Buckets(salesByDate, days, items[..k], NoSales, AddSales)
    {
      var date := orders[k].day;
      Deposit(salesByDate, days, items[..k], date, SalesOf(orders[k]), NoSales, AddSales);
      assert items[..k + 1] == items[..k] + [(date, SalesOf(orders[k]))];
      if date !in salesByDate {
        salesByDate := salesByDate[date := NoSales];
        days := days + [date];
      }
      salesByDate := salesByDate[date := AddSales(salesByDate[date], SalesOf(orders[k]))];
    }
    assert items[..|orders|] == items;
    forall d | d in days ensures salesByDate[d].orderCount > 0 {
      CountIsDayCount(items, d);
      DayCountPositive(items, d);
    }
    var buckets := Values(salesByDate, days);
    var unsorted := seq(|days|, i requires 0 <= i < |days| => SalesRowOf(days[i], buckets[i]));
    rows := SortByKey(unsorted, RowDate);
    SortedBucketRows(orders, salesByDate, days, unsorted, rows);
  }

  /** Some order of `orders` is placed on `day` exactly when its contribution is. */
  lemma ItemDays(orders: seq<Order>, day: string)
    ensures HasDay(SalesItems(orders), day) <==> PlacedOn(orders, day)
  {
    var items := SalesItems(orders);
    if HasDay(items, day) {
      var k :| 0 <= k < |items| && items[k].0 == day;
      assert orders[k].day == day;
    }
    if PlacedOn(orders, day) {
      var k :| 0 <= k < |orders| && orders[k].day == day;
      assert items[k].0 == day;
    }
  }

  /** The exact day buckets of `orders`, made into rows and sorted, are the sales report. */
  lemma SortedBucketRows(orders: seq<Order>, buckets: map<string, SalesFigures>, days: seq<string>,
                         unsorted: seq<SalesRow>, rows: seq<SalesRow>)
    requires Distinct(days)
    requires forall d :: d in days <==> HasDay(SalesItems(orders), d)
    requires forall d :: d in days ==> d in buckets && buckets[d] == SalesOfDay(orders, d) && buckets[d].orderCount > 0
    requires |unsorted| == |days|
    requires forall i :: 0 <= i < |days| ==> unsorted[i] == SalesRowOf(days[i], buckets[days[i]])
    requires rows == SortByKey(unsorted, RowDate)
    ensures IsSalesReport(orders, rows)
  {
    SortRowsByDay(unsorted, RowDate, days);
    RowsAreBucketRows(buckets, days, unsorted, rows);
    RowDaysArePlacedDays(orders, days, unsorted, rows);
  }

  /** Every sorted row is the row of one of the bucket days. */
  lemma RowsAreBucketRows(buckets: map<string, SalesFigures>, days: seq<string>, unsorted: seq<SalesRow>, rows: seq<SalesRow>)
    requires forall d :: d in days ==> d in buckets && buckets[d].orderCount > 0
    requires |unsorted| == |days|
    requires forall i :: 0 <= i < |days| ==> unsorted[i] == SalesRowOf(days[i], buckets[days[i]])
    requires forall x :: x in rows <==> x in unsorted
    ensures forall i :: 0 <= i < |rows| ==> rows[i].date in days && rows[i] == SalesRowOf(rows[i].date, buckets[rows[i].date])
  {
    forall i | 0 <= i < |rows|
      ensures rows[i].date in days && rows[i] == SalesRowOf(rows[i].date, buckets[rows[i].date])
    {
      assert rows[i] in unsorted;
    }
  }

  /** The sorted rows cover exactly the days some order was placed on. */
  lemma RowDaysArePlacedDays(orders: seq<Order>, days: seq<string>, unsorted: seq<SalesRow>, rows: seq<SalesRow>)
    requires forall d :: d in days <==> HasDay(SalesItems(orders), d)
    requires |unsorted| == |days|
    requires forall i :: 0 <= i < |days| ==> unsorted[i].date == days[i]
    requires forall x :: x in rows <==> x in unsorted
    ensures forall d :: HasRow(rows, d) <==> PlacedOn(orders, d)
  {
    forall d ensures HasRow(rows, d) <==> PlacedOn(orders, d) {
      ItemDays(orders, d);
      if d in days {
        var j :| 0 <= j < |days| && days[j] == d;
        assert unsorted[j] in rows;
      }
      if HasRow(rows, d) {
        var i :| 0 <= i < |rows| && rows[i].date == d;
        assert rows[i] in unsorted;
      }
    }
  }

  // ------------------------------------------------------------ reference sums

  /** The number of orders placed on `day`. */
  function OrdersOn(orders: seq<Order>, day: string): nat
  {
    if orders == [] then 0
    else OrdersOn(orders[..|orders| - 1], day) + (if orders[|orders| - 1].day == day then 1 else 0)
  }

  /** The sum of `amount` over the orders placed on `day`. */
  function DaySum(orders: seq<Order>, day: string, amount: Order -> int): int
  {
    if orders == [] then 0
    else DaySum(orders[..|orders| - 1], day, amount) + (if orders[|orders| - 1].day == day then amount(orders[|orders| - 1]) else 0)
  }

  /**
   * A day's bucket holds the number of that day's orders and the sums of
   * their totals, discounts, taxes and net payments (the total standing in
   * for a missing net payment).
   */
  lemma {:induction false} SalesOfDayIsSums(orders: seq<Order>, day: string)
    ensures SalesOfDay(orders, day) ==
      SalesFigures(OrdersOn(orders, day), DaySum(orders, day, TotalPriceOf), DaySum(orders, day, DiscountsOf),
                   DaySum(orders, day, TaxOf), DaySum(orders, day, NetPaymentOf))
  {
    if orders != [] {
      var init := orders[..|orders| - 1];
      SalesOfDayIsSums(init, day);
      assert SalesItems(orders)[..|orders| - 1] == SalesItems(init);
    }
  }

  /** The sum of the order counts of `rows`. */
  function TotalOrderCount(rows: seq<SalesRow>): nat
  {
    if rows == [] then 0 else TotalOrderCount(rows[..|rows| - 1]) + rows[|rows| - 1].orderCount
  }

  function Dates(rows: seq<SalesRow>): (ds: seq<string>)
    ensures |ds| == |rows| && forall i :: 0 <= i < |rows| ==> ds[i] == rows[i].date
  {
    seq(|rows|, i requires 0 <= i < |rows| => rows[i].date)
  }

  lemma {:induction false} TotalIsSumCounts(rows: seq<SalesRow>, items: seq<(string, SalesFigures)>)
    requires forall i :: 0 <= i < |rows| ==> rows[i].orderCount == DayCount(items, rows[i].date)
    ensures TotalOrderCount(rows) == SumCounts(items, Dates(rows))
  {
    if rows != [] {
      var init := rows[..|rows| - 1];
      TotalIsSumCounts(init, items);
      assert Dates(rows)[..|rows| - 1] == Dates(init);
    }
  }

  /**
   * Every row of the sales report counts at least one order, so the average
   * is always defined, and the counts add up to the number of orders.
   */
  lemma OrderCountsAddUp(orders: seq<Order>, rows: seq<SalesRow>)
    requires IsSalesReport(orders, rows)
    ensures forall i :: 0 <= i < |rows| ==> rows[i].orderCount >= 1
    ensures TotalOrderCount(rows) == |orders|
  {
    var items := SalesItems(orders);
    forall i | 0 <= i < |rows| ensures rows[i].orderCount == DayCount(items, rows[i].date) {
      CountIsDayCount(items, rows[i].date);
    }
    TotalIsSumCounts(rows, items);
    var ds := Dates(rows);
    forall d ensures d in ds <==> HasDay(items, d) {
      ItemDays(orders, d);
      assert d in ds <==> HasRow(rows, d);
    }
    CountsCoverItems(items, ds);
  }
}
