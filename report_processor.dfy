/**
 * `processReportData`: pick the transform for the report type, write the
 * rows to a CSV file named after the report, and report the file and the
 * row count, or the error that stopped it.
 *
 * The file system and the CSV writer are an outcome passed in: the file
 * is either written (with its size) or the write fails with a message.
 * The timestamp in the file name is passed in as well.
 */
module ReportProcessor {
  import opened Wrappers
  import opened Text
  import opened ReportTypes
  import ShopifyRecords
  import SalesReport
  import FinanceReport
  import RecordReports

  // ------------------------------------------------------------ file names

  /** A character the `[^a-z0-9]` replacement, case-insensitive, keeps. */
  predicate IsAsciiAlnum(c: char)
  {
    'a' <= c <= 'z' || 'A' <= c <= 'Z' || '0' <= c <= '9'
  }

  /** A character a sanitised name may hold. */
  predicate IsSafeChar(c: char)
  {
    'a' <= c <= 'z' || '0' <= c <= '9' || c == '_'
  }

  predicate IsSafeName(s: string)
  {
    forall i :: 0 <= i < |s| ==> IsSafeChar(s[i])
  }

  /** One character of the sanitised name. */
  function SanitizeChar(c: char): (r: char)
    ensures IsSafeChar(r)
    ensures IsAsciiAlnum(c) <==> r != '_'
  {
    if IsAsciiAlnum(c) then LowerChar(c) else '_'
  }

  /**
   * `reportName.replace(/[^a-z0-9]/gi, "_").toLowerCase()`: every character
   * other than an ASCII letter or digit becomes `_`, letters are lowered.
   */
  function SanitizeName(name: string): (r: string)
    ensures |r| == |name|
    ensures IsSafeName(r)
    ensures forall i :: 0 <= i < |name| ==> (r[i] == '_' <==> !IsAsciiAlnum(name[i]))
    ensures forall i :: 0 <= i < |name| && IsAsciiAlnum(name[i]) ==> r[i] == LowerChar(name[i])
  {
    seq(|name|, i requires 0 <= i < |name| => SanitizeChar(name[i]))
  }

  /** A name that is already safe is left as it is. */
  lemma SanitizeSafeName(name: string)
    requires IsSafeName(name)
    ensures SanitizeName(name) == name
  {
    var r := SanitizeName(name);
    forall i | 0 <= i < |name| ensures r[i] == name[i] {
      assert IsSafeChar(name[i]);
    }
  }

  /** Sanitising twice is sanitising once. */
  lemma SanitizeIdempotent(name: string)
    ensures SanitizeName(SanitizeName(name)) == SanitizeName(name)
  {
    SanitizeSafeName(SanitizeName(name));
  }

  /** Names that differ only in the case of their letters give the same file name stem. */
  lemma SanitizeIgnoresCase(name: string)
    ensures SanitizeName(ToLower(name)) == SanitizeName(name)
  {
    var a := SanitizeName(ToLower(name));
    var b := SanitizeName(name);
    forall i | 0 <= i < |name| ensures a[i] == b[i] {
      assert ToLower(name)[i] == LowerChar(name[i]);
    }
  }

  /** The file name `generateCSV` writes: the sanitised name, `_`, the timestamp and `.csv`. */
  function ReportFileName(reportName: string, timestamp: string): (f: string)
    ensures |f| == |reportName| + |timestamp| + 5
    ensures f[..|reportName|] == SanitizeName(reportName)
    ensures f[|reportName|] == '_'
    ensures f[|reportName| + 1..|reportName| + 1 + |timestamp|] == timestamp
    ensures EndsWith(f, ".csv")
  {
    var f := SanitizeName(reportName) + "_" + timestamp + ".csv";
    assert f[|f| - 4..] == ".csv";
    f
  }

  // ------------------------------------------------------------ dispatch

  /** The raw records the fetcher returned, one list per kind of record. */
  datatype RawData = RawData(
    orders: seq<ShopifyRecords.Order>,
    products: seq<ShopifyRecords.Product>,
    customers: seq<ShopifyRecords.Customer>,
    inventory: seq<ShopifyRecords.InventoryItem>,
    discounts: seq<ShopifyRecords.Discount>)

  /** The rows of a report, by kind. */
  datatype Table =
    | SalesTable(salesRows: seq<SalesReport.SalesRow>)
    | OrderTable(orderRows: seq<RecordReports.OrderRow>)
    | ProductTable(productRows: seq<RecordReports.ProductRow>)
    | CustomerTable(customerRows: seq<RecordReports.CustomerRow>)
    | InventoryTable(inventoryRows: seq<RecordReports.InventoryRow>)
    | TrafficTable(trafficRows: seq<ShopifyRecords.Order>)
    | DiscountTable(discountRows: seq<RecordReports.DiscountRow>)
    | FinanceTable(financeRows: seq<FinanceReport.FinanceRow>)

  function RowCount(t: Table): nat
  {
    match t
    case SalesTable(rows) => |rows|
    case OrderTable(rows) => |rows|
    case ProductTable(rows) => |rows|
    case CustomerTable(rows) => |rows|
    case InventoryTable(rows) => |rows|
    case TrafficTable(rows) => |rows|
    case DiscountTable(rows) => |rows|
    case FinanceTable(rows) => |rows|
  }

  /** What writing the CSV file and reading its size came to. */
  datatype CsvOutcome = Written(size: nat) | WriteFailed(message: string)

  datatype ProcessDataResult = ProcessDataResult(
    success: bool,
    filePath: Option<string>,
    recordCount: nat,
    fileSize: Option<nat>,
    error: Option<string>)

  /** The types the dispatch has a transform for: every type but CUSTOM. */
  predicate HasTransform(t: Option<ReportType>)
  {
    t.Some? && t.value != Custom
  }

  /** `table` is what the transform of type `t` makes of `raw`. */
  ghost predicate Transformed(t: ReportType, raw: RawData, table: Table)
  {
    match t
    case Sales => table.SalesTable? && SalesReport.IsSalesReport(raw.orders, table.salesRows)
    case Orders => table == OrderTable(RecordReports.ProcessOrdersData(raw.orders))
    case Products => table == ProductTable(RecordReports.ProductRows(raw.products))
    case Customers =>
      RecordReports.ProcessCustomersData(raw.customers).Success? &&
      table == CustomerTable(RecordReports.ProcessCustomersData(raw.customers).value)
    case Inventory => table == InventoryTable(RecordReports.ProcessInventoryData(raw.inventory))
    case Traffic => table == TrafficTable([])
    case Discounts => table == DiscountTable(RecordReports.ProcessDiscountsData(raw.discounts))
    case FinanceSummary => table.FinanceTable? && FinanceReport.IsFinanceReport(raw.orders, table.financeRows)
    case Custom => false
  }

  /** The customers transform is the only one that can fail: on a customer without a creation date. */
  predicate TransformFails(t: ReportType, raw: RawData)
  {
    t == Customers && RecordReports.ProcessCustomersData(raw.customers).Failure?
  }

  function UnknownTypeMessage(reportType: string): string
  {
    "Unknown report type: " + reportType
  }

  /** The result of a call that throws with `message`. */
  function Failed(message: string): (r: ProcessDataResult)
    ensures !r.success && r.recordCount == 0 && r.filePath.None? && r.fileSize.None?
    ensures r.error == Some(message)
  {
    ProcessDataResult(false, None, 0, None, Some(message))
  }

  /**
   * `processReportData`. A type without a transform (CUSTOM, or a tag the
   * catalogue does not know) fails with "Unknown report type: …"; a failing
   * transform or CSV write fails with its message; otherwise the result
   * names the file, its size and the number of rows written, which are the
   * rows of the report's transform.
   */
  method ProcessReportData(reportType: string, raw: RawData, reportName: string, timestamp: string,
                           reportsDir: string, csv: CsvOutcome)
    returns (result: ProcessDataResult, ghost table: Table)
    ensures !HasTransform(ParseTag(reportType)) ==> result == Failed(UnknownTypeMessage(reportType))
    ensures HasTransform(ParseTag(reportType)) && TransformFails(ParseTag(reportType).value, raw) ==>
              result == Failed(RecordReports.InvalidTimeValue)
    ensures HasTransform(ParseTag(reportType)) && !TransformFails(ParseTag(reportType).value, raw) ==>
              Transformed(ParseTag(reportType).value, raw, table)
    ensures HasTransform(ParseTag(reportType)) && !TransformFails(ParseTag(reportType).value, raw) && csv.WriteFailed? ==>
              result == Failed(csv.message)
    ensures result.success <==>
              HasTransform(ParseTag(reportType)) && !TransformFails(ParseTag(reportType).value, raw) && csv.Written?
    ensures result.success ==>
              && result.recordCount == RowCount(table)
              && result.filePath == Some(reportsDir + "/" + ReportFileName(reportName, timestamp))
              && result.fileSize == Some(csv.size)
              && result.error.None?
    ensures !result.success ==> result.recordCount == 0 && result.filePath.None? && result.error.Some?
  {
    var t := ParseTag(reportType);
    var processed := TrafficTable([]);
    table := processed;
    if !HasTransform(t) {
      return Failed(UnknownTypeMessage(reportType)), processed;
    }
    match t.value {
      case Sales =>
        var rows := SalesReport.ProcessSalesData(raw.orders);
        processed := SalesTable(rows);
      case Orders =>
        processed := OrderTable(RecordReports.ProcessOrdersData(raw.orders));
      case Products =>
        var rows := RecordReports.ProcessProductsData(raw.products);
        processed := ProductTable(rows);
      case Customers =>
        var rows := RecordReports.ProcessCustomersData(raw.customers);
        if rows.Failure? {
          return Failed(rows.error), processed;
        }
        processed := CustomerTable(rows.value);
      case Inventory =>
        processed := InventoryTable(RecordReports.ProcessInventoryData(raw.inventory));
      case Traffic =>
        processed := TrafficTable(RecordReports.ProcessTrafficData(raw.orders));
      case Discounts =>
        processed := DiscountTable(RecordReports.ProcessDiscountsData(raw.discounts));
      case FinanceSummary =>
        var rows := FinanceReport.ProcessFinanceSummaryData(raw.orders);
        processed := FinanceTable(rows);
    }
    table := processed;
    match csv {
      case WriteFailed(message) =>
        result := Failed(message);
      case Written(size) =>
        var filePath := reportsDir + "/" + ReportFileName(reportName, timestamp);
        result := ProcessDataResult(true, Some(filePath), RowCount(processed), Some(size), None);
    }
  }
}
