/**
 * The report types and the shapes of their catalogue entries: the tags the
 * catalogue is keyed by, the category each type is filed under, the
 * declaration order, filtering by category, and the `type in REPORT_TYPES`
 * check.
 */
module ReportTypes {
  import opened Wrappers

  /** The nine report types, in the order the catalogue declares them. */
  datatype ReportType = Sales | Orders | Products | Customers | Inventory | Traffic | Discounts | FinanceSummary | Custom

  /** A filter value as a report stores it. */
  datatype FilterValue = Text(s: string) | TextList(items: seq<string>) | Instant(ms: int)

  datatype Choice = Choice(value: string, caption: string)

  /** A filter the configuration form shows; `kind` is select, multiselect, date, daterange or text. */
  datatype FilterOption = FilterOption(
    key: string, caption: string, kind: string, options: seq<Choice>,
    required: bool, defaultValue: Option<FilterValue>)

  /** An output column; `kind` is string, number, currency, date, datetime or boolean. */
  datatype DataField = DataField(key: string, caption: string, kind: string, description: Option<string>)

  /** The four catalogue sections ("sales", "operations", "marketing", "analytics"). */
  datatype Category = SalesCategory | OperationsCategory | MarketingCategory | AnalyticsCategory

  datatype ReportTypeConfig = ReportTypeConfig(
    reportType: ReportType, name: string, description: string, icon: string,
    category: Category, filters: seq<FilterOption>, dataFields: seq<DataField>,
    defaultFilters: map<string, FilterValue>)

  /** The tag under which the catalogue stores a type. */
  function Tag(t: ReportType): string
  {
    match t
    case Sales => "SALES"
    case Orders => "ORDERS"
    case Products => "PRODUCTS"
    case Customers => "CUSTOMERS"
    case Inventory => "INVENTORY"
    case Traffic => "TRAFFIC"
    case Discounts => "DISCOUNTS"
    case FinanceSummary => "FINANCE_SUMMARY"
    case Custom => "CUSTOM"
  }

  /** The type a stored tag names, if any. */
  function ParseTag(s: string): (r: Option<ReportType>)
    ensures r.Some? ==> Tag(r.value) == s
    ensures forall t :: Tag(t) == s ==> r == Some(t)
  {
    match s
    case "SALES" => Some(Sales)
    case "ORDERS" => Some(Orders)
    case "PRODUCTS" => Some(Products)
    case "CUSTOMERS" => Some(Customers)
    case "INVENTORY" => Some(Inventory)
    case "TRAFFIC" => Some(Traffic)
    case "DISCOUNTS" => Some(Discounts)
    case "FINANCE_SUMMARY" => Some(FinanceSummary)
    case "CUSTOM" => Some(Custom)
    case _ => None
  }

  /** The category each type is filed under. */
  function CategoryOf(t: ReportType): Category
  {
    match t
    case Sales => SalesCategory
    case Products => SalesCategory
    case FinanceSummary => SalesCategory
    case Orders => OperationsCategory
    case Inventory => OperationsCategory
    case Discounts => MarketingCategory
    case Customers => AnalyticsCategory
    case Traffic => AnalyticsCategory
    case Custom => AnalyticsCategory
  }

  /** The catalogue's declaration order. */
  const DeclarationOrder: seq<ReportType> :=
    [Sales, Orders, Products, Customers, Inventory, Traffic, Discounts, FinanceSummary, Custom]

  function IndexOf(t: ReportType): (i: nat)
    ensures i < |DeclarationOrder| && DeclarationOrder[i] == t
  {
    match t
    case Sales => 0
    case Orders => 1
    case Products => 2
    case Customers => 3
    case Inventory => 4
    case Traffic => 5
    case Discounts => 6
    case FinanceSummary => 7
    case Custom => 8
  }

  /** Every type appears exactly once in the declaration order, at its own index. */
  lemma DeclarationOrderDistinct()
    ensures forall i :: 0 <= i < |DeclarationOrder| ==> IndexOf(DeclarationOrder[i]) == i
    ensures forall i, j :: 0 <= i < j < |DeclarationOrder| ==> DeclarationOrder[i] != DeclarationOrder[j]
  {
    forall i | 0 <= i < |DeclarationOrder|
      ensures IndexOf(DeclarationOrder[i]) == i
    {
      IndexAt(i);
    }
  }

  lemma IndexAt(i: nat)
    requires i < |DeclarationOrder|
    ensures IndexOf(DeclarationOrder[i]) == i
  {
    if i < 3 {
    } else if i < 6 {
    } else {
    }
  }

  /** The entries of `cs` whose category is `category`, in their order (`Array.prototype.filter`). */
  function FilterCategory(cs: seq<ReportTypeConfig>, category: Category): (r: seq<ReportTypeConfig>)
    ensures |r| <= |cs|
    ensures forall c :: c in r <==> c in cs && c.category == category
  {
    if cs == [] then []
    else if cs[0].category == category then [cs[0]] + FilterCategory(cs[1..], category)
    else FilterCategory(cs[1..], category)
  }

  /** The entries of `cs` are in strictly increasing declaration order. */
  predicate InDeclarationOrder(cs: seq<ReportTypeConfig>)
  {
    forall i, j :: 0 <= i < j < |cs| ==> IndexOf(cs[i].reportType) < IndexOf(cs[j].reportType)
  }

  /** Every entry of `cs` comes after position `k` of the declaration order. */
  predicate AllAfter(cs: seq<ReportTypeConfig>, k: int)
  {
    forall i :: 0 <= i < |cs| ==> IndexOf(cs[i].reportType) > k
  }

  /** What filtering keeps still comes after `k`. */
  lemma {:induction false} FilterCategoryAfter(cs: seq<ReportTypeConfig>, category: Category, k: int)
    ensures AllAfter(cs, k) ==> AllAfter(FilterCategory(cs, category), k)
  {
    if cs != [] && AllAfter(cs, k) {
      FilterCategoryAfter(cs[1..], category, k);
      assert AllAfter(cs[1..], k) by {
        forall i | 0 <= i < |cs[1..]|
          ensures IndexOf(cs[1..][i].reportType) > k
        {
          assert cs[1..][i] == cs[i + 1];
        }
      }
    }
  }

  /** Filtering keeps the order of what it keeps. */
  lemma {:induction false} FilterCategoryKeepsOrder(cs: seq<ReportTypeConfig>, category: Category)
    ensures InDeclarationOrder(cs) ==> InDeclarationOrder(FilterCategory(cs, category))
  {
    if cs != [] && InDeclarationOrder(cs) {
      var tail := cs[1..];
      var rest := FilterCategory(tail, category);
      assert InDeclarationOrder(tail) by {
        forall i, j | 0 <= i < j < |tail|
          ensures IndexOf(tail[i].reportType) < IndexOf(tail[j].reportType)
        {
          assert tail[i] == cs[i + 1] && tail[j] == cs[j + 1];
        }
      }
      FilterCategoryKeepsOrder(tail, category);
      if cs[0].category == category {
        var k := IndexOf(cs[0].reportType);
        assert AllAfter(tail, k) by {
          forall i | 0 <= i < |tail|
            ensures IndexOf(tail[i].reportType) > k
          {
            assert tail[i] == cs[i + 1];
          }
        }
        FilterCategoryAfter(tail, category, k);
        var r := [cs[0]] + rest;
        forall i, j | 0 <= i < j < |r|
          ensures IndexOf(r[i].reportType) < IndexOf(r[j].reportType)
        {
          assert r[j] == rest[j - 1];
          if i > 0 {
            assert r[i] == rest[i - 1];
          }
        }
      }
    }
  }

  /** The own keys of the catalogue object. */
  const OwnKeys: set<string> :=
    {"SALES", "ORDERS", "PRODUCTS", "CUSTOMERS", "INVENTORY", "TRAFFIC", "DISCOUNTS", "FINANCE_SUMMARY", "CUSTOM"}

  /** The property names every plain object inherits from `Object.prototype`. */
  const InheritedNames: set<string> :=
    {"constructor", "hasOwnProperty", "isPrototypeOf", "propertyIsEnumerable", "toString",
     "toLocaleString", "valueOf", "__proto__", "__defineGetter__", "__defineSetter__",
     "__lookupGetter__", "__lookupSetter__"}

  /** `type in REPORT_TYPES`: own keys and inherited property names alike. */
  function IsValidReportType(s: string): (r: bool)
    ensures ParseTag(s).Some? ==> r
    ensures r <==> ParseTag(s).Some? || s in InheritedNames
  {
    s in OwnKeys || s in InheritedNames
  }

  /** A name inherited from `Object.prototype` passes the check without naming a report type. */
  lemma InheritedNamePasses()
    ensures IsValidReportType("toString") && ParseTag("toString") == None
    ensures IsValidReportType("constructor") && ParseTag("constructor") == None
  {
  }
}
