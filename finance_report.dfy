/**
 * The finance summary report: per order, gross and net sales, the split of
 * line-item sales by whether the variant has a unit cost, the cost of goods
 * sold and the gross profit, and the Shopify Payments total; those figures
 * grouped by order day, one row per day, sorted by day.
 */
module FinanceReport {
  import opened Wrappers
  import opened Text
  import opened ShopifyRecords
  import opened DayBuckets

  /** What a day bucket of the finance summary accumulates. */
  datatype FinanceFigures = FinanceFigures(
    grossSales: int,
    discounts: int,
    refunds: int,          // the "returns" column
    netSales: int,
    shippingCharges: int,
    returnFees: int,
    taxes: int,
    totalSales: int,
    netSalesWithoutCost: int,
    netSalesWithCost: int,
    costOfGoodsSold: int,
    grossProfit: int,
    netPayments: int,
    grossPaymentsShopifyPayments: int,
    netSalesFromGiftCards: int,
    outstandingGiftCardBalance: int,
    tips: int)

  const NoFinance := FinanceFigures(0, 0, 0, 0, 0, 0, 0, 0, 0, 0, 0, 0, 0, 0, 0, 0, 0)

  function AddFinance(a: FinanceFigures, b: FinanceFigures): FinanceFigures
  {
    FinanceFigures(
      a.grossSales + b.grossSales, a.discounts + b.discounts, a.refunds + b.refunds, a.netSales + b.netSales,
      a.shippingCharges + b.shippingCharges, a.returnFees + b.returnFees, a.taxes + b.taxes,
      a.totalSales + b.totalSales, a.netSalesWithoutCost + b.netSalesWithoutCost,
      a.netSalesWithCost + b.netSalesWithCost, a.costOfGoodsSold + b.costOfGoodsSold,
      a.grossProfit + b.grossProfit, a.netPayments + b.netPayments,
      a.grossPaymentsShopifyPayments + b.grossPaymentsShopifyPayments,
      a.netSalesFromGiftCards + b.netSalesFromGiftCards,
      a.outstandingGiftCardBalance + b.outstandingGiftCardBalance, a.tips + b.tips)
  }

  // ------------------------------------------------------------- line items

  function Quantity(l: LineItem): int { l.quantity.GetOr(0) }
  function UnitCost(l: LineItem): int { l.unitCost.GetOr(0) }
  function UnitPrice(l: LineItem): int { l.discountedUnitPrice.GetOr(0) }

  /** The variant of the line has a (positive) unit cost. */
  predicate HasCost(l: LineItem) { UnitCost(l) > 0 }

  /** Cost of the lines with a unit cost. */
  function CostOfGoods(lines: seq<LineItem>): int
  {
    if lines == [] then 0
    else
      var l := lines[|lines| - 1];
      CostOfGoods(lines[..|lines| - 1]) + (if HasCost(l) then UnitCost(l) * Quantity(l) else 0)
  }

  /** Sales of the lines with a unit cost. */
  function SalesWithCost(lines: seq<LineItem>): int
  {
    if lines == [] then 0
    else
      var l := lines[|lines| - 1];
      SalesWithCost(lines[..|lines| - 1]) + (if HasCost(l) then UnitPrice(l) * Quantity(l) else 0)
  }

  /** Sales of the lines without a unit cost. */
  function SalesWithoutCost(lines: seq<LineItem>): int
  {
    if lines == [] then 0
    else
      var l := lines[|lines| - 1];
      SalesWithoutCost(lines[..|lines| - 1]) + (if HasCost(l) then 0 else UnitPrice(l) * Quantity(l))
  }

  /** Sales of all lines: discounted unit price times quantity. */
  function LineSales(lines: seq<LineItem>): int
  {
    if lines == [] then 0
    else LineSales(lines[..|lines| - 1]) + UnitPrice(lines[|lines| - 1]) * Quantity(lines[|lines| - 1])
  }

  /** Every line is counted on exactly one side of the cost split. */
  lemma {:induction false} CostSplitPartitionsLines(lines: seq<LineItem>)
    ensures SalesWithCost(lines) + SalesWithoutCost(lines) == LineSales(lines)
  {
    if lines != [] {
      CostSplitPartitionsLines(lines[..|lines| - 1]);
    }
  }

  /** Lines without a unit cost add nothing to the cost of goods sold or to the sales with cost. */
  lemma {:induction false} CostlessLinesAddNoCost(lines: seq<LineItem>)
    requires forall i :: 0 <= i < |lines| ==> !HasCost(lines[i])
    ensures CostOfGoods(lines) == 0 && SalesWithCost(lines) == 0
    ensures SalesWithoutCost(lines) == LineSales(lines)
  {
    if lines != [] {
      CostlessLinesAddNoCost(lines[..|lines| - 1]);
    }
  }

  // ----------------------------------------------------------- transactions

  /** A successful sale through a gateway whose lower-cased name contains "shopify". */
  predicate IsShopifyPayment(t: Transaction)
  {
    t.gateway.Some? && Contains(ToLower(t.gateway.value), "shopify") && t.status == "SUCCESS" && t.kind == "SALE"
  }

  function ShopifyPayments(txs: seq<Transaction>): int
  {
    if txs == [] then 0
    else
      var t := txs[|txs| - 1];
      ShopifyPayments(txs[..|txs| - 1]) + (if IsShopifyPayment(t) then t.amount.GetOr(0) else 0)
  }

  /** Transactions that are not successful Shopify Payments sales never count. */
  lemma {:induction false} OnlyShopifySalesCount(txs: seq<Transaction>)
    requires forall i :: 0 <= i < |txs| ==> !IsShopifyPayment(txs[i])
    ensures ShopifyPayments(txs) == 0
  {
    if txs != [] {
      OnlyShopifySalesCount(txs[..|txs| - 1]);
    }
  }

  // ------------------------------------------------------------------ order

  /** The net sales of an order: current total less taxes and shipping. */
  function NetSalesOf(o: Order): int
  {
    o.currentTotal.GetOr(o.totalPrice) - o.totalTax.GetOr(0) - o.totalShipping.GetOr(0)
  }

  /**
   * What one order adds to its day's bucket. The sales without cost start
   * from the order's net sales and then add the lines without a unit cost.
   */
  function OrderFinance(o: Order): FinanceFigures
  {
    var lines := o.lineItems.GetOr([]);
    var netSales := NetSalesOf(o);
    var withCost := SalesWithCost(lines);
    var cogs := CostOfGoods(lines);
    FinanceFigures(
      o.totalPrice + o.totalDiscounts.GetOr(0),
      o.totalDiscounts.GetOr(0),
      o.totalRefunded.GetOr(0),
      netSales,
      o.totalShipping.GetOr(0),
      o.totalRefundedShipping.GetOr(0),
      o.totalTax.GetOr(0),
      o.currentTotal.GetOr(o.totalPrice),
      netSales + SalesWithoutCost(lines),
      withCost,
      cogs,
      withCost - cogs,
      o.netPayment.GetOr(o.totalPrice),
      ShopifyPayments(o.transactions.GetOr([])),
      0, 0, 0)
  }

  /** The per-order computation of `processFinanceSummaryData`, with its two accumulation loops. */
  method OrderFinanceFigures(o: Order) returns (f: FinanceFigures)
    ensures f == OrderFinance(o)
  {
    var totalPrice := o.totalPrice;
    var discounts := o.totalDiscounts.GetOr(0);
    var tax := o.totalTax.GetOr(0);
    var shipping := o.totalShipping.GetOr(0);
    var currentTotal := o.currentTotal.GetOr(totalPrice);
    var grossSales := totalPrice + discounts;
    var netSales := currentTotal - tax - shipping;
    var costOfGoodsSold := 0;
    var netSalesWithCost := 0;
    var netSalesWithoutCost := netSales;
    if o.lineItems.Some? {
      var lines := o.lineItems.value;
      for i := 0 to |lines|
        invariant costOfGoodsSold == CostOfGoods(lines[..i])
        invariant netSalesWithCost == SalesWithCost(lines[..i])
        invariant netSalesWithoutCost == netSales + SalesWithoutCost(lines[..i])
      {
        var l := lines[i];
        assert lines[..i + 1][..i] == lines[..i];
        var quantity := l.quantity.GetOr(0);
        var unitCost := l.unitCost.GetOr(0);
        var lineItemPrice := l.discountedUnitPrice.GetOr(0);
        if unitCost > 0 {
          costOfGoodsSold := costOfGoodsSold + unitCost * quantity;
          netSalesWithCost := netSalesWithCost + lineItemPrice * quantity;
        } else {
          netSalesWithoutCost := netSalesWithoutCost + lineItemPrice * quantity;
        }
      }
      assert lines[..|lines|] == lines;
    }
    var grossProfit := netSalesWithCost - costOfGoodsSold;
    var shopifyPaymentsTotal := 0;
    if o.transactions.Some? {
      var txs := o.transactions.value;
      for i := 0 to |txs|
        invariant shopifyPaymentsTotal == ShopifyPayments(txs[..i])
      {
        var t := txs[i];
        assert txs[..i + 1][..i] == txs[..i];
        if t.gateway.Some? && Contains(ToLower(t.gateway.value), "shopify") && t.status == "SUCCESS" && t.kind == "SALE" {
          shopifyPaymentsTotal := shopifyPaymentsTotal + t.amount.GetOr(0);
        }
      }
      assert txs[..|txs|] == txs;
    }
    f := FinanceFigures(grossSales, discounts, o.totalRefunded.GetOr(0), netSales, shipping,
                        o.totalRefundedShipping.GetOr(0), tax, currentTotal, netSalesWithoutCost,
                        netSalesWithCost, costOfGoodsSold, grossProfit, o.netPayment.GetOr(totalPrice),
                        shopifyPaymentsTotal, 0, 0, 0);
  }

  /**
   * The relations every bucket keeps: gross profit is the sales with cost
   * less their cost, net sales are the total sales less taxes and shipping,
   * and the gift-card and tips columns stay zero.
   */
  predicate Balanced(f: FinanceFigures)
  {
    && f.grossProfit == f.netSalesWithCost - f.costOfGoodsSold
    && f.netSales == f.totalSales - f.taxes - f.shippingCharges
    && f.netSalesFromGiftCards == 0 && f.outstandingGiftCardBalance == 0 && f.tips == 0
  }

  /** One order's figures are balanced, and its gross sales are its total plus its discounts. */
  lemma OrderFinanceBalanced(o: Order)
    ensures Balanced(OrderFinance(o))
    ensures OrderFinance(o).grossSales == o.totalPrice + OrderFinance(o).discounts
  {
  }

  /** Adding balanced figures gives balanced figures. */
  lemma AddKeepsBalanced(a: FinanceFigures, b: FinanceFigures)
    requires Balanced(a) && Balanced(b)
    ensures Balanced(AddFinance(a, b))
  {
  }

  // ----------------------------------------------------------------- report

  function FinanceItems(orders: seq<Order>): (items: seq<(string, FinanceFigures)>)
    ensures |items| == |orders|
    ensures forall k :: 0 <= k < |orders| ==> items[k] == (orders[k].day, OrderFinance(orders[k]))
  {
    seq(|orders|, k requires 0 <= k < |orders| => (orders[k].day, OrderFinance(orders[k])))
  }

  /** The bucket the report builds for `day`. */
  function FinanceOfDay(orders: seq<Order>, day: string): FinanceFigures
  {
    DayTotal(FinanceItems(orders), day, NoFinance, AddFinance)
  }

  datatype FinanceRow = FinanceRow(date: string, figures: FinanceFigures)

  function RowDate(r: FinanceRow): string { r.date }

  predicate HasRow(rows: seq<FinanceRow>, day: string)
  {
    exists i :: 0 <= i < |rows| && rows[i].date == day
  }

  /**
   * `rows` is the finance summary of `orders`: strictly ascending by day, one
   * row for each day some order was placed and for no other day, each row
   * holding that day's bucket.
   */
  ghost predicate IsFinanceReport(orders: seq<Order>, rows: seq<FinanceRow>)
  {
    && StrictlyAscending(rows, RowDate)
    && (forall d :: HasRow(rows, d) <==> PlacedOn(orders, d))
    && (forall i :: 0 <= i < |rows| ==> rows[i].figures == FinanceOfDay(orders, rows[i].date))
  }

  /** `processFinanceSummaryData`: fill the day buckets order by order, read them back, sort by day. */
  method ProcessFinanceSummaryData(orders: seq<Order>) returns (rows: seq<FinanceRow>)
    ensures IsFinanceReport(orders, rows)
  {
    ghost var items := FinanceItems(orders);
    var financeByDate: map<string, FinanceFigures> := map[];
    var days: seq<string> := [];
    for k := 0 to |orders|
      invariant Buckets(financeByDate, days, items[..k], NoFinance, AddFinance)
    {
      var date := orders[k].day;
      var f := OrderFinanceFigures(orders[k]);
      Deposit(financeByDate, days, items[..k], date, f, NoFinance, AddFinance);
      assert items[..k + 1] == items[..k] + [(date, f)];
      if date !in financeByDate {
        financeByDate := financeByDate[date := NoFinance];
        days := days + [date];
      }
      financeByDate := financeByDate[date := AddFinance(financeByDate[date], f)];
    }
    assert items[..|orders|] == items;
    var buckets := Values(financeByDate, days);
    var unsorted := seq(|days|, i requires 0 <= i < |days| => FinanceRow(days[i], buckets[i]));
    rows := SortByKey(unsorted, RowDate);
    SortedBucketRows(orders, financeByDate, days, unsorted, rows);
  }

  lemma ItemDays(orders: seq<Order>, day: string)
    ensures HasDay(FinanceItems(orders), day) <==> PlacedOn(orders, day)
  {
    var items := FinanceItems(orders);
    if HasDay(items, day) {
      var k :| 0 <= k < |items| && items[k].0 == day;
      assert orders[k].day == day;
    }
    if PlacedOn(orders, day) {
      var k :| 0 <= k < |orders| && orders[k].day == day;
      assert items[k].0 == day;
    }
  }

  /** The exact day buckets of `orders`, made into rows and sorted, are the finance summary. */
  lemma SortedBucketRows(orders: seq<Order>, buckets: map<string, FinanceFigures>, days: seq<string>,
                         unsorted: seq<FinanceRow>, rows: seq<FinanceRow>)
    requires Distinct(days)
    requires forall d :: d in days <==> HasDay(FinanceItems(orders), d)
    requires forall d :: d in days ==> d in buckets && buckets[d] == FinanceOfDay(orders, d)
    requires |unsorted| == |days|
    requires forall i :: 0 <= i < |days| ==> unsorted[i] == FinanceRow(days[i], buckets[days[i]])
    requires rows == SortByKey(unsorted, RowDate)
    ensures IsFinanceReport(orders, rows)
  {
    SortRowsByDay(unsorted, RowDate, days);
    RowsAreBucketRows(buckets, days, unsorted, rows);
    RowDaysArePlacedDays(orders, days, unsorted, rows);
  }

  /** Every sorted row is the row of one of the bucket days. */
  lemma RowsAreBucketRows(buckets: map<string, FinanceFigures>, days: seq<string>, unsorted: seq<FinanceRow>, rows: seq<FinanceRow>)
    requires forall d :: d in days ==> d in buckets
    requires |unsorted| == |days|
    requires forall i :: 0 <= i < |days| ==> unsorted[i] == FinanceRow(days[i], buckets[days[i]])
    requires forall x :: x in rows <==> x in unsorted
    ensures forall i :: 0 <= i < |rows| ==> rows[i].date in days && rows[i].figures == buckets[rows[i].date]
  {
    forall i | 0 <= i < |rows|
      ensures rows[i].date in days && rows[i].figures == buckets[rows[i].date]
    {
      assert rows[i] in unsorted;
    }
  }

  /** The sorted rows cover exactly the days some order was placed on. */
  lemma RowDaysArePlacedDays(orders: seq<Order>, days: seq<string>, unsorted: seq<FinanceRow>, rows: seq<FinanceRow>)
    requires forall d :: d in days <==> HasDay(FinanceItems(orders), d)
    requires |unsorted| == |days|
    requires forall i :: 0 <= i < |days| ==> unsorted[i].date == days[i]
    requires forall x :: x in rows <==> x in unsorted
    ensures forall d :: HasRow(rows, d) <==> PlacedOn(orders, d)
  {
    forall d ensures HasRow(rows, d) <==> PlacedOn(orders, d) {
      ItemDays(orders, d);
      if d in days {
        var j :| 0 <= j < |days| && days[j] == d;
        assert unsorted[j] in rows;
      }
      if HasRow(rows, d) {
        var i :| 0 <= i < |rows| && rows[i].date == d;
        assert rows[i] in unsorted;
      }
    }
  }

  /** Sums of balanced figures are balanced. */
  lemma {:induction false} DayTotalBalanced(items: seq<(string, FinanceFigures)>, day: string)
    requires forall k :: 0 <= k < |items| ==> Balanced(items[k].1)
    ensures Balanced(DayTotal(items, day, NoFinance, AddFinance))
  {
    if items != [] {
      DayTotalBalanced(items[..|items| - 1], day);
      AddKeepsBalanced(DayTotal(items[..|items| - 1], day, NoFinance, AddFinance), items[|items| - 1].1);
    }
  }

  /**
   * Every row of the finance summary is balanced: its gross profit is its
   * sales with cost less their cost, its net sales are its total sales less
   * taxes and shipping, and its gift-card and tips columns are zero.
   */
  lemma FinanceRowsBalanced(orders: seq<Order>, rows: seq<FinanceRow>)
    requires IsFinanceReport(orders, rows)
    ensures forall i :: 0 <= i < |rows| ==> Balanced(rows[i].figures)
  {
    var items := FinanceItems(orders);
    forall k | 0 <= k < |items| ensures Balanced(items[k].1) {
      OrderFinanceBalanced(orders[k]);
    }
    forall i | 0 <= i < |rows| ensures Balanced(rows[i].figures) {
      DayTotalBalanced(items, rows[i].date);
    }
  }
}
