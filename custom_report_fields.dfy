/** The lookups over the custom-report field catalogue. */
module CustomReportFields {
  import opened Wrappers
  import opened CustomFieldCatalog

  /** `getAllCustomReportFields`: the order, product and customer tables, spread in that order. */
  function GetAllCustomReportFields(): seq<CustomReportField>
  {
    OrderFields() + ProductFields() + CustomerFields()
  }

  /** The entries of `fs` drawn from `source`, in order (`Array.prototype.filter`). */
  function FilterSource(fs: seq<CustomReportField>, source: DataSource): (r: seq<CustomReportField>)
    ensures |r| <= |fs|
    ensures DrawnFrom(r, source)
    ensures forall f :: f in r <==> f in fs && f.source == source
  {
    if fs == [] then []
    else if fs[0].source == source then [fs[0]] + FilterSource(fs[1..], source)
    else FilterSource(fs[1..], source)
  }

  lemma {:induction false} FilterSourceConcat(a: seq<CustomReportField>, b: seq<CustomReportField>, source: DataSource)
    ensures FilterSource(a + b, source) == FilterSource(a, source) + FilterSource(b, source)
  {
    if a == [] {
      assert a + b == b;
    } else {
      assert (a + b)[1..] == a[1..] + b;
      FilterSourceConcat(a[1..], b, source);
    }
  }

  /** Filtering a list drawn from one source keeps all of it for that source and none for another. */
  lemma {:induction false} FilterSourceDrawn(fs: seq<CustomReportField>, from: DataSource, source: DataSource)
    requires DrawnFrom(fs, from)
    ensures FilterSource(fs, source) == if source == from then fs else []
  {
    if fs != [] {
      FilterSourceDrawn(fs[1..], from, source);
    }
  }

  /** `getFieldsBySource`: the catalogue filtered by source. */
  function GetFieldsBySource(source: DataSource): (r: seq<CustomReportField>)
    ensures forall f :: f in r <==> f in GetAllCustomReportFields() && f.source == source
  {
    FilterSource(GetAllCustomReportFields(), source)
  }

  /** Filtering three single-source runs of distinct sources picks out the run of the requested source. */
  lemma FilterSourceOfRuns(o: seq<CustomReportField>, p: seq<CustomReportField>, c: seq<CustomReportField>, source: DataSource)
    ensures DrawnFrom(o, OrdersSource) && DrawnFrom(p, ProductsSource) && DrawnFrom(c, CustomersSource) ==>
      FilterSource(o + p + c, source) == match source
        case OrdersSource => o
        case ProductsSource => p
        case CustomersSource => c
        case _ => []
  {
    if !(DrawnFrom(o, OrdersSource) && DrawnFrom(p, ProductsSource) && DrawnFrom(c, CustomersSource)) {
      return;
    }
    FilterSourceConcat(o + p, c, source);
    FilterSourceConcat(o, p, source);
    FilterSourceDrawn(o, OrdersSource, source);
    FilterSourceDrawn(p, ProductsSource, source);
    FilterSourceDrawn(c, CustomersSource, source);
  }

  /**
   * Selecting by source gives back exactly the table of that source, in order;
   * INVENTORY, SALES and FULFILLMENTS have no fields.
   */
  lemma FieldsBySourceAreTables(source: DataSource)
    ensures GetFieldsBySource(source) == match source
      case OrdersSource => OrderFields()
      case ProductsSource => ProductFields()
      case CustomersSource => CustomerFields()
      case _ => []
  {
    FilterSourceOfRuns(OrderFields(), ProductFields(), CustomerFields(), source);
  }

  /** The whole catalogue is the order, product and customer selections, in that order. */
  lemma AllFieldsAreSourceSelections()
    ensures GetAllCustomReportFields() ==
      GetFieldsBySource(OrdersSource) + GetFieldsBySource(ProductsSource) + GetFieldsBySource(CustomersSource)
  {
    FieldsBySourceAreTables(OrdersSource);
    FieldsBySourceAreTables(ProductsSource);
    FieldsBySourceAreTables(CustomersSource);
  }

  /** The position of the first entry with `key` (`Array.prototype.findIndex`). */
  function FindKey(fs: seq<CustomReportField>, key: string): (r: Option<nat>)
    ensures r.Some? ==> r.value < |fs| && fs[r.value].key == key
    ensures r.Some? ==> forall j :: 0 <= j < r.value ==> fs[j].key != key
    ensures r.None? <==> forall j :: 0 <= j < |fs| ==> fs[j].key != key
  {
    if fs == [] then None
    else if fs[0].key == key then Some(0)
    else match FindKey(fs[1..], key)
      case None => None
      case Some(i) => Some(i + 1)
  }

  /** `find` by key: the first entry of `fs` with that key, if any. */
  function FieldByKey(fs: seq<CustomReportField>, key: string): (r: Option<CustomReportField>)
    ensures r.None? <==> forall f :: f in fs ==> f.key != key
    ensures r.Some? ==> exists i :: 0 <= i < |fs| && fs[i] == r.value && r.value.key == key && forall j :: 0 <= j < i ==> fs[j].key != key
  {
    match FindKey(fs, key)
    case None => None
    case Some(i) => Some(fs[i])
  }

  /** When the front part of a list has the key, the rest is never consulted. */
  lemma FieldByKeyInFront(a: seq<CustomReportField>, b: seq<CustomReportField>, key: string)
    ensures FieldByKey(a, key).Some? ==> FieldByKey(a + b, key) == FieldByKey(a, key)
  {
    if FieldByKey(a, key).Some? {
      var i := FindKey(a, key).value;
      assert forall j :: 0 <= j <= i ==> (a + b)[j] == a[j];
      FindKeyIs(a + b, key, i);
    }
  }

  /** When the front part of a list lacks the key, the lookup is the rest's, shifted. */
  lemma FieldByKeyPast(a: seq<CustomReportField>, b: seq<CustomReportField>, key: string)
    ensures KeyAbsent(a, key) ==> FieldByKey(a + b, key) == FieldByKey(b, key)
  {
    if KeyAbsent(a, key) && FieldByKey(b, key).Some? {
      var i := FindKey(b, key).value;
      assert forall j :: 0 <= j < |a| ==> (a + b)[j] == a[j];
      assert forall j :: 0 <= j <= i ==> (a + b)[|a| + j] == b[j];
      FindKeyIs(a + b, key, |a| + i);
    }
  }

  /** The first position holding the key is the one `FindKey` gives. */
  lemma {:induction false} FindKeyIs(fs: seq<CustomReportField>, key: string, i: nat)
    requires i < |fs| && fs[i].key == key && forall j :: 0 <= j < i ==> fs[j].key != key
    ensures FindKey(fs, key) == Some(i)
  {
    if i > 0 {
      FindKeyIs(fs[1..], key, i - 1);
    }
  }

  /** `getFieldByKey`: the first entry of the whole catalogue with that key, if any. */
  function GetFieldByKey(key: string): (r: Option<CustomReportField>)
    ensures r.None? <==> forall f :: f in GetAllCustomReportFields() ==> f.key != key
    ensures r.Some? ==> r.value in GetAllCustomReportFields() && r.value.key == key
  {
    FieldByKey(GetAllCustomReportFields(), key)
  }

  /** Within the order table, "customer_email" is first found in the customer group. */
  lemma OrderTableCustomerEmail()
    ensures FieldByKey(OrderFields(), "customer_email") == Some(OrderCustomer()[0])
  {
    var key := "customer_email";
    OrderBasicInfoLacksCustomerEmail();
    OrderFinancialLacksCustomerEmail();
    OrderStatusLacksCustomerEmail();
    OrderCustomerStartsWithCustomerEmail();
    KeyAbsentConcat(OrderBasicInfo(), OrderFinancial(), key);
    KeyAbsentConcat(OrderBasicInfo() + OrderFinancial(), OrderStatus(), key);
    var x := OrderBasicInfo() + OrderFinancial() + OrderStatus() + OrderCustomer();
    FieldByKeyPast(OrderBasicInfo() + OrderFinancial() + OrderStatus(), OrderCustomer(), key);
    FindKeyIs(OrderCustomer(), key, 0);
    FieldByKeyInFront(x, OrderShippingAddress(), key);
    x := x + OrderShippingAddress();
    FieldByKeyInFront(x, OrderBillingAddress(), key);
    x := x + OrderBillingAddress();
    FieldByKeyInFront(x, OrderAdditional(), key);
    x := x + OrderAdditional();
    FieldByKeyInFront(x, OrderTax(), key);
    x := x + OrderTax();
    FieldByKeyInFront(x, OrderQuantities(), key);
  }

  /**
   * "customer_email" is a key of both the order and the customer table;
   * the lookup gives the order entry.
   */
  lemma CustomerEmailResolvesToOrders()
    ensures exists f :: f in CustomerFields() && f.key == "customer_email"
    ensures GetFieldByKey("customer_email") == Some(OrderCustomer()[0])
    ensures GetFieldByKey("customer_email").value.source == OrdersSource
  {
    var key := "customer_email";
    OrderTableCustomerEmail();
    FieldByKeyInFront(OrderFields(), ProductFields(), key);
    FieldByKeyInFront(OrderFields() + ProductFields(), CustomerFields(), key);
    CustomerBasicInfoHasCustomerEmail();
    assert CustomerBasicInfo()[1] in CustomerFields();
  }

  /** `fields.map(f => f.category).filter(Boolean)`: the present, non-empty categories. */
  function PresentCategories(fs: seq<CustomReportField>): (r: seq<string>)
    ensures forall c :: c in r <==> c != "" && exists f :: f in fs && f.category == Some(c)
  {
    if fs == [] then []
    else
      var rest := PresentCategories(fs[1..]);
      assert forall f :: f in fs[1..] ==> f in fs;
      assert forall f :: f in fs ==> f == fs[0] || f in fs[1..];
      match fs[0].category
      case Some(c) => if c != "" then [c] + rest else rest
      case None => rest
  }

  /** The index of the first occurrence of `x` in `xs`. */
  function FirstIndex(xs: seq<string>, x: string): (i: nat)
    requires x in xs
    ensures i < |xs| && xs[i] == x && x !in xs[..i]
  {
    if xs[0] == x then 0 else 1 + FirstIndex(xs[1..], x)
  }

  /** `Array.from(new Set(xs))`: each value once, in order of first occurrence. */
  function Dedup(xs: seq<string>): (r: seq<string>)
    ensures forall x :: x in r <==> x in xs
    ensures forall i, j :: 0 <= i < j < |r| ==> r[i] != r[j]
    ensures forall i, j :: 0 <= i < j < |r| ==> FirstIndex(xs, r[i]) < FirstIndex(xs, r[j])
    decreases |xs|
  {
    if xs == [] then []
    else
      var init := xs[..|xs| - 1];
      var d := Dedup(init);
      FirstIndexPrefix(init, xs);
      if xs[|xs| - 1] in d then d else d + [xs[|xs| - 1]]
  }

  /** Extending a list does not move the first occurrence of a value already present. */
  lemma FirstIndexPrefix(init: seq<string>, xs: seq<string>)
    requires |xs| == |init| + 1 && init == xs[..|init|]
    ensures forall x :: x in init ==> x in xs && FirstIndex(xs, x) == FirstIndex(init, x)
    ensures xs[|init|] !in init ==> FirstIndex(xs, xs[|init|]) == |init|
  {
    forall x | x in init
      ensures x in xs && FirstIndex(xs, x) == FirstIndex(init, x)
    {
      var k := FirstIndex(init, x);
      assert xs[k] == x;
      assert xs[..k] == init[..k];
      FirstIndexUnique(xs, x, k);
    }
    if xs[|init|] !in init {
      assert xs[..|init|] == init;
      FirstIndexUnique(xs, xs[|init|], |init|);
    }
  }

  /** The first occurrence is the one position holding `x` with no `x` before it. */
  lemma {:induction false} FirstIndexUnique(xs: seq<string>, x: string, k: nat)
    requires k < |xs| && xs[k] == x && x !in xs[..k]
    ensures FirstIndex(xs, x) == k
  {
    if xs[0] != x {
      assert xs[1..][..k - 1] == xs[..k][1..];
      FirstIndexUnique(xs[1..], x, k - 1);
    }
  }

  /**
   * The categories of a list of fields: the distinct non-empty categories,
   * in the order of their first occurrence.
   */
  function CategoriesOf(fs: seq<CustomReportField>): (r: seq<string>)
    ensures forall i, j :: 0 <= i < j < |r| ==> r[i] != r[j]
    ensures forall c :: c in r <==> c != "" && exists f :: f in fs && f.category == Some(c)
    ensures forall c :: c in r <==> c in PresentCategories(fs)
    ensures forall i, j :: 0 <= i < j < |r| ==>
      FirstIndex(PresentCategories(fs), r[i]) < FirstIndex(PresentCategories(fs), r[j])
  {
    Dedup(PresentCategories(fs))
  }

  /** `getCategoriesBySource`: the categories of a source's fields. */
  function GetCategoriesBySource(source: DataSource): (r: seq<string>)
    ensures forall i, j :: 0 <= i < j < |r| ==> r[i] != r[j]
    ensures forall c :: c in r <==> c != "" && exists f :: f in GetFieldsBySource(source) && f.category == Some(c)
  {
    CategoriesOf(GetFieldsBySource(source))
  }
}
