/**
 * The `REPORT_TYPES` table itself: for each type its display data, its
 * filter definitions, its output columns and its default filter values,
 * and the lookups that read the whole table.
 */
module ReportTypeCatalog {
  import opened Wrappers
  import opened ReportTypes

  function DateRangeOptions(): seq<Choice>
  {
    [Choice("TODAY", "Today"), Choice("YESTERDAY", "Yesterday"), Choice("LAST_7_DAYS", "Last 7 days"), Choice("LAST_30_DAYS", "Last 30 days"), Choice("LAST_90_DAYS", "Last 90 days"), Choice("THIS_MONTH", "This month"), Choice("LAST_MONTH", "Last month"), Choice("THIS_QUARTER", "This quarter"), Choice("LAST_QUARTER", "Last quarter"), Choice("THIS_YEAR", "This year"), Choice("LAST_YEAR", "Last year"), Choice("CUSTOM", "Custom date range")]
  }

  function OrderStatusOptions(): seq<Choice>
  {
    [Choice("OPEN", "Open"), Choice("ARCHIVED", "Archived"), Choice("CANCELLED", "Cancelled")]
  }

  function FulfillmentStatusOptions(): seq<Choice>
  {
    [Choice("FULFILLED", "Fulfilled"), Choice("UNFULFILLED", "Unfulfilled"), Choice("PARTIALLY_FULFILLED", "Partially fulfilled"), Choice("SCHEDULED", "Scheduled"), Choice("ON_HOLD", "On hold")]
  }

  function FinancialStatusOptions(): seq<Choice>
  {
    [Choice("PAID", "Paid"), Choice("PENDING", "Pending"), Choice("PARTIALLY_PAID", "Partially paid"), Choice("REFUNDED", "Refunded"), Choice("VOIDED", "Voided"), Choice("PARTIALLY_REFUNDED", "Partially refunded")]
  }

  function CustomerTypeOptions(): seq<Choice>
  {
    [Choice("ALL", "All customers"), Choice("NEW", "New customers"), Choice("RETURNING", "Returning customers")]
  }


  /** The required date-range filter every type except INVENTORY starts with. */
  function DateRangeFilter(): FilterOption
  {
    FilterOption("dateRange", "Date Range", "select", DateRangeOptions(), true, Some(Text("LAST_30_DAYS")))
  }

  /** `REPORT_TYPES[t].name`. */
  function NameOf(t: ReportType): string
  {
    match t
    case Sales => "Sales Report"
    case Orders => "Orders Report"
    case Products => "Products Report"
    case Customers => "Customers Report"
    case Inventory => "Inventory Report"
    case Traffic => "Traffic Report"
    case Discounts => "Discounts Report"
    case FinanceSummary => "Finance Summary"
    case Custom => "Custom Report"
  }

  /** `REPORT_TYPES[t].description`. */
  function DescriptionOf(t: ReportType): string
  {
    match t
    case Sales => "Analyze sales performance, revenue, and trends over time"
    case Orders => "Track order details, status, and fulfillment information"
    case Products => "View product performance, sales, and inventory metrics"
    case Customers => "Analyze customer behavior, lifetime value, and segmentation"
    case Inventory => "Monitor stock levels, inventory value, and product availability"
    case Traffic => "Track website traffic, sessions, and conversion metrics"
    case Discounts => "Analyze discount code usage, performance, and ROI"
    case FinanceSummary => "Comprehensive financial report with sales breakdown, gross profit, payments, and gift cards"
    case Custom => "Create your own custom report with any fields available from the Shopify API"
  }

  /** `REPORT_TYPES[t].icon`. */
  function IconOf(t: ReportType): string
  {
    match t
    case Sales => "\U{1F4B0}"
    case Orders => "\U{1F4E6}"
    case Products => "\U{1F6CD}\U{FE0F}"
    case Customers => "\U{1F465}"
    case Inventory => "\U{1F4CA}"
    case Traffic => "\U{1F4C8}"
    case Discounts => "\U{1F3AF}"
    case FinanceSummary => "\U{1F4B5}"
    case Custom => "\U{2699}\U{FE0F}"
  }

  /** `REPORT_TYPES[t].filters`. */
  function FiltersOf(t: ReportType): seq<FilterOption>
  {
    match t
    case Sales =>
      [DateRangeFilter(),
        FilterOption("salesChannel", "Sales Channel", "multiselect", [Choice("online_store", "Online Store"), Choice("pos", "Point of Sale"), Choice("mobile", "Mobile"), Choice("facebook", "Facebook"), Choice("instagram", "Instagram")], false, None),
        FilterOption("location", "Location", "multiselect", [], false, None)]
    case Orders =>
      [DateRangeFilter(),
        FilterOption("orderStatus", "Order Status", "multiselect", OrderStatusOptions(), false, None),
        FilterOption("fulfillmentStatus", "Fulfillment Status", "multiselect", FulfillmentStatusOptions(), false, None),
        FilterOption("financialStatus", "Financial Status", "multiselect", FinancialStatusOptions(), false, None)]
    case Products =>
      [DateRangeFilter(),
        FilterOption("productType", "Product Type", "multiselect", [], false, None),
        FilterOption("vendor", "Vendor", "multiselect", [], false, None),
        FilterOption("collection", "Collection", "multiselect", [], false, None)]
    case Customers =>
      [DateRangeFilter(),
        FilterOption("customerType", "Customer Type", "select", CustomerTypeOptions(), false, Some(Text("ALL")))]
    case Inventory =>
      [FilterOption("location", "Location", "multiselect", [], false, None),
        FilterOption("productType", "Product Type", "multiselect", [], false, None),
        FilterOption("vendor", "Vendor", "multiselect", [], false, None),
        FilterOption("stockLevel", "Stock Level", "select", [Choice("ALL", "All products"), Choice("IN_STOCK", "In stock"), Choice("LOW_STOCK", "Low stock (< 10 units)"), Choice("OUT_OF_STOCK", "Out of stock")], false, Some(Text("ALL")))]
    case Traffic =>
      [DateRangeFilter(),
        FilterOption("salesChannel", "Sales Channel", "multiselect", [Choice("online_store", "Online Store"), Choice("mobile", "Mobile")], false, None)]
    case Discounts =>
      [DateRangeFilter(),
        FilterOption("discountType", "Discount Type", "multiselect", [Choice("PERCENTAGE", "Percentage"), Choice("FIXED_AMOUNT", "Fixed Amount"), Choice("FREE_SHIPPING", "Free Shipping"), Choice("BUY_X_GET_Y", "Buy X Get Y")], false, None),
        FilterOption("status", "Status", "select", [Choice("ALL", "All"), Choice("ACTIVE", "Active"), Choice("EXPIRED", "Expired"), Choice("SCHEDULED", "Scheduled")], false, Some(Text("ALL")))]
    case FinanceSummary =>
      [DateRangeFilter(),
        FilterOption("salesChannel", "Sales Channel", "multiselect", [Choice("online_store", "Online Store"), Choice("pos", "Point of Sale"), Choice("mobile", "Mobile"), Choice("facebook", "Facebook"), Choice("instagram", "Instagram")], false, None)]
    case Custom =>
      [DateRangeFilter(),
        FilterOption("dataSource", "Data Source", "select", [Choice("ORDERS", "Orders"), Choice("PRODUCTS", "Products"), Choice("CUSTOMERS", "Customers")], true, Some(Text("ORDERS")))]
  }

  /** `REPORT_TYPES[t].dataFields`. */
  function DataFieldsOf(t: ReportType): seq<DataField>
  {
    match t
    case Sales =>
      [DataField("date", "Date", "date", None),
        DataField("orderCount", "Orders", "number", None),
        DataField("totalSales", "Total Sales", "currency", None),
        DataField("averageOrderValue", "Average Order Value", "currency", None),
        DataField("totalDiscounts", "Total Discounts", "currency", None),
        DataField("totalTax", "Total Tax", "currency", None),
        DataField("netSales", "Net Sales", "currency", None)]
    case Orders =>
      [DataField("orderNumber", "Order Number", "string", None),
        DataField("orderDate", "Order Date", "datetime", None),
        DataField("customerName", "Customer Name", "string", None),
        DataField("customerEmail", "Customer Email", "string", None),
        DataField("totalPrice", "Total Price", "currency", None),
        DataField("orderStatus", "Order Status", "string", None),
        DataField("fulfillmentStatus", "Fulfillment Status", "string", None),
        DataField("financialStatus", "Financial Status", "string", None),
        DataField("itemCount", "Item Count", "number", None)]
    case Products =>
      [DataField("productTitle", "Product Title", "string", None),
        DataField("sku", "SKU", "string", None),
        DataField("vendor", "Vendor", "string", None),
        DataField("productType", "Product Type", "string", None),
        DataField("unitsSold", "Units Sold", "number", None),
        DataField("totalRevenue", "Total Revenue", "currency", None),
        DataField("averagePrice", "Average Price", "currency", None),
        DataField("inventoryQuantity", "Current Inventory", "number", None)]
    case Customers =>
      [DataField("customerName", "Customer Name", "string", None),
        DataField("email", "Email", "string", None),
        DataField("totalOrders", "Total Orders", "number", None),
        DataField("totalSpent", "Total Spent", "currency", None),
        DataField("averageOrderValue", "Average Order Value", "currency", None),
        DataField("firstOrderDate", "First Order Date", "date", None),
        DataField("lastOrderDate", "Last Order Date", "date", None),
        DataField("customerSince", "Customer Since", "date", None)]
    case Inventory =>
      [DataField("productTitle", "Product Title", "string", None),
        DataField("sku", "SKU", "string", None),
        DataField("vendor", "Vendor", "string", None),
        DataField("location", "Location", "string", None),
        DataField("quantityAvailable", "Quantity Available", "number", None),
        DataField("quantityOnHand", "Quantity On Hand", "number", None),
        DataField("quantityCommitted", "Quantity Committed", "number", None),
        DataField("inventoryValue", "Inventory Value", "currency", None)]
    case Traffic =>
      [DataField("date", "Date", "date", None),
        DataField("sessions", "Sessions", "number", None),
        DataField("uniqueVisitors", "Unique Visitors", "number", None),
        DataField("pageViews", "Page Views", "number", None),
        DataField("conversionRate", "Conversion Rate", "number", Some("Percentage")),
        DataField("addedToCart", "Added to Cart", "number", None),
        DataField("reachedCheckout", "Reached Checkout", "number", None),
        DataField("completedPurchase", "Completed Purchase", "number", None)]
    case Discounts =>
      [DataField("discountCode", "Discount Code", "string", None),
        DataField("discountType", "Discount Type", "string", None),
        DataField("timesUsed", "Times Used", "number", None),
        DataField("totalRevenue", "Total Revenue", "currency", None),
        DataField("totalDiscountAmount", "Total Discount Amount", "currency", None),
        DataField("averageOrderValue", "Average Order Value", "currency", None),
        DataField("status", "Status", "string", None),
        DataField("startDate", "Start Date", "date", None),
        DataField("endDate", "End Date", "date", None)]
    case FinanceSummary =>
      [DataField("date", "Date", "date", None),
        DataField("grossSales", "Gross Sales", "currency", None),
        DataField("discounts", "Discounts", "currency", None),
        DataField("returns", "Returns", "currency", None),
        DataField("netSales", "Net Sales", "currency", None),
        DataField("shippingCharges", "Shipping Charges", "currency", None),
        DataField("returnFees", "Return Fees", "currency", None),
        DataField("taxes", "Taxes", "currency", None),
        DataField("totalSales", "Total Sales", "currency", None),
        DataField("netSalesWithoutCost", "Net Sales Without Cost Recorded", "currency", None),
        DataField("netSalesWithCost", "Net Sales With Cost Recorded", "currency", None),
        DataField("costOfGoodsSold", "Cost of Goods Sold", "currency", None),
        DataField("grossProfit", "Gross Profit", "currency", None),
        DataField("netPayments", "Net Payments", "currency", None),
        DataField("grossPaymentsShopifyPayments", "Gross Payments from Shopify Payments", "currency", None),
        DataField("netSalesFromGiftCards", "Net Sales from Gift Cards", "currency", None),
        DataField("outstandingGiftCardBalance", "Outstanding Gift Card Balance", "currency", None),
        DataField("tips", "Tips", "currency", None)]
    case Custom =>
      []
  }

  /** `REPORT_TYPES[t].defaultFilters`. */
  function DefaultFiltersOf(t: ReportType): map<string, FilterValue>
  {
    match t
    case Sales => map["dateRange" := Text("LAST_30_DAYS")]
    case Orders => map["dateRange" := Text("LAST_30_DAYS")]
    case Products => map["dateRange" := Text("LAST_30_DAYS")]
    case Customers => map["dateRange" := Text("LAST_30_DAYS"), "customerType" := Text("ALL")]
    case Inventory => map["stockLevel" := Text("ALL")]
    case Traffic => map["dateRange" := Text("LAST_30_DAYS")]
    case Discounts => map["dateRange" := Text("LAST_30_DAYS"), "status" := Text("ALL")]
    case FinanceSummary => map["dateRange" := Text("LAST_30_DAYS")]
    case Custom => map["dateRange" := Text("LAST_30_DAYS"), "dataSource" := Text("ORDERS")]
  }

  /** `REPORT_TYPES[t]`: the catalogue entry stored under each type. */
  function GetReportTypeConfig(t: ReportType): (r: ReportTypeConfig)
    ensures r.reportType == t
    ensures r.category == CategoryOf(t)
  {
    ReportTypeConfig(t, NameOf(t), DescriptionOf(t), IconOf(t), CategoryOf(t),
      FiltersOf(t), DataFieldsOf(t), DefaultFiltersOf(t))
  }

  /** The entries stored under the types `ts`, in that order. */
  function Configs(ts: seq<ReportType>): (r: seq<ReportTypeConfig>)
    ensures |r| == |ts|
    ensures forall i :: 0 <= i < |ts| ==> r[i] == GetReportTypeConfig(ts[i])
  {
    seq(|ts|, i requires 0 <= i < |ts| => GetReportTypeConfig(ts[i]))
  }

  /** `Object.values(REPORT_TYPES)`: every entry once, in declaration order. */
  function GetAllReportTypes(): (r: seq<ReportTypeConfig>)
    ensures |r| == 9
    ensures forall i :: 0 <= i < |r| ==> r[i] == GetReportTypeConfig(DeclarationOrder[i])
    ensures forall c :: c in r ==> c == GetReportTypeConfig(c.reportType)
  {
    Configs(DeclarationOrder)
  }

  /** `getReportTypesByCategory`. */
  function GetReportTypesByCategory(category: Category): (r: seq<ReportTypeConfig>)
    ensures forall c :: c in r <==> c in GetAllReportTypes() && c.category == category
  {
    FilterCategory(GetAllReportTypes(), category)
  }

  /** The catalogue itself is in declaration order. */
  lemma AllInDeclarationOrder()
    ensures InDeclarationOrder(GetAllReportTypes())
  {
    DeclarationOrderDistinct();
  }

  /** A category's entries keep the declaration order, so each type appears at most once. */
  lemma CategoryInDeclarationOrder(category: Category)
    ensures InDeclarationOrder(GetReportTypesByCategory(category))
  {
    AllInDeclarationOrder();
    FilterCategoryKeepsOrder(GetAllReportTypes(), category);
  }

  /** A type's entry is listed under the category the type is filed under. */
  lemma CategoryListsItsTypes(t: ReportType)
    ensures GetReportTypeConfig(t) in GetReportTypesByCategory(CategoryOf(t))
  {
    var all, c := GetAllReportTypes(), GetReportTypeConfig(t);
    assert all[IndexOf(t)] == c;
    assert c in all && c.category == CategoryOf(t);
  }

  /** Everything listed under a category is the entry of a type filed there. */
  lemma CategoryListsOnlyItsTypes(category: Category)
    ensures forall c :: c in GetReportTypesByCategory(category) ==>
      c == GetReportTypeConfig(c.reportType) && CategoryOf(c.reportType) == category
  {
  }

  /** CUSTOM is the only type without output columns. */
  lemma OnlyCustomLacksDataFields()
    ensures DataFieldsOf(Custom) == []
    ensures DataFieldsOf(Sales) != [] && DataFieldsOf(Orders) != [] && DataFieldsOf(Products) != []
    ensures DataFieldsOf(Customers) != [] && DataFieldsOf(Inventory) != [] && DataFieldsOf(Traffic) != []
    ensures DataFieldsOf(Discounts) != [] && DataFieldsOf(FinanceSummary) != []
  {
  }

  /**
   * Every type except INVENTORY opens with the date-range filter, which is required
   * with default LAST_30_DAYS; no other filter uses the key "dateRange".
   */
  lemma DateRangeFilterConventions(t: ReportType)
    ensures DateRangeFilter().required && DateRangeFilter().defaultValue == Some(Text("LAST_30_DAYS"))
    ensures t != Inventory <==> (|FiltersOf(t)| > 0 && FiltersOf(t)[0] == DateRangeFilter())
    ensures forall i :: 0 <= i < |FiltersOf(t)| && FiltersOf(t)[i].key == "dateRange" ==> i == 0 && t != Inventory
  {
  }
}
