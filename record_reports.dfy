/**
 * The reports that make one row per fetched record (orders, customers,
 * inventory items, discounts), the products report that makes one row per
 * variant, and the traffic report that makes none.
 */
module RecordReports {
  import opened Wrappers
  import opened Text
  import opened ShopifyRecords

  // ----------------------------------------------------------------- orders

  datatype OrderRow = OrderRow(
    orderNumber: string,
    orderDate: string,
    customerName: string,
    customerEmail: string,
    totalPrice: int,
    orderStatus: string,
    fulfillmentStatus: string,
    financialStatus: string,
    itemCount: int)

  /** The line-item quantities added up from the left, a missing quantity counting 0. */
  function ItemCount(lines: seq<LineItem>): int
  {
    if lines == [] then 0 else ItemCount(lines[..|lines| - 1]) + lines[|lines| - 1].quantity.GetOr(0)
  }

  /** Item counts add up over consecutive runs of lines. */
  lemma {:induction false} ItemCountAppend(a: seq<LineItem>, b: seq<LineItem>)
    ensures ItemCount(a + b) == ItemCount(a) + ItemCount(b)
    decreases |b|
  {
    if b == [] {
      assert a + b == a;
    } else {
      var b0 := b[..|b| - 1];
      assert (a + b)[..|a + b| - 1] == a + b0;
      ItemCountAppend(a, b0);
    }
  }

  /** A line without a quantity adds nothing; one with a quantity adds exactly it. */
  lemma ItemCountOfOneLine(l: LineItem)
    ensures ItemCount([l]) == (if l.quantity.Some? then l.quantity.value else 0)
  {
    assert [l][..0] == [];
  }

  /** "first last" with missing names as empty text, trimmed. */
  function FullName(first: Option<string>, last: Option<string>): string
  {
    Trim(OrElse(first, "") + " " + OrElse(last, ""))
  }

  /** A name made of no names, or of white space only, trims to nothing. */
  lemma FullNameOfNoNames(first: Option<string>, last: Option<string>)
    requires !Truthy(first) && !Truthy(last)
    ensures FullName(first, last) == ""
  {
    assert AllWhitespace(OrElse(first, "") + " " + OrElse(last, ""));
  }

  /** The row of one order. */
  function OrderRowOf(o: Order): (r: OrderRow)
    ensures r.orderNumber == o.name && r.totalPrice == o.totalPrice
    ensures o.customer.None? ==> r.customerName == "Guest" && r.customerEmail == ""
    ensures r.orderStatus in {"CANCELLED", "OPEN"}
    ensures r.orderStatus == "CANCELLED" <==> o.cancelled
    ensures r.fulfillmentStatus != "" && r.financialStatus != ""
    ensures r.itemCount == ItemCount(o.lineItems.GetOr([]))
  {
    OrderRow(
      o.name,
      o.dateTime,
      match o.customer
      case None => "Guest"
      case Some(b) => FullName(b.firstName, b.lastName),
      match o.customer
      case None => ""
      case Some(b) => OrElse(b.email, ""),
      o.totalPrice,
      if o.cancelled then "CANCELLED" else "OPEN",
      OrElse(o.fulfillmentStatus, "UNFULFILLED"),
      OrElse(o.financialStatus, "PENDING"),
      ItemCount(o.lineItems.GetOr([])))
  }

  /** A customer without names is not a guest: the name comes out empty. */
  lemma NamelessCustomerIsNotGuest(o: Order)
    requires o.customer.Some? && !Truthy(o.customer.value.firstName) && !Truthy(o.customer.value.lastName)
    ensures OrderRowOf(o).customerName == ""
  {
    FullNameOfNoNames(o.customer.value.firstName, o.customer.value.lastName);
  }

  /** `processOrdersData`: one row per order, in input order. */
  function ProcessOrdersData(orders: seq<Order>): (rows: seq<OrderRow>)
    ensures |rows| == |orders|
    ensures forall k :: 0 <= k < |orders| ==> rows[k] == OrderRowOf(orders[k])
  {
    seq(|orders|, k requires 0 <= k < |orders| => OrderRowOf(orders[k]))
  }

  // --------------------------------------------------------------- products

  datatype ProductRow = ProductRow(
    productTitle: string,
    sku: string,
    vendor: string,
    productType: string,
    unitsSold: int,
    totalRevenue: int,
    averagePrice: int,
    inventoryQuantity: int)

  /** The row of one variant, carrying its product's title, vendor and type. */
  function VariantRow(p: Product, v: Variant): ProductRow
  {
    ProductRow(p.title, OrElse(v.sku, ""), OrElse(p.vendor, ""), OrElse(p.productType, ""), 0, 0,
               v.price.GetOr(0), v.inventoryQuantity.GetOr(0))
  }

  function VariantsOf(p: Product): seq<Variant>
  {
    p.variants.GetOr([])
  }

  /** Every variant of every product, product by product, in input order. */
  function ProductRows(products: seq<Product>): seq<ProductRow>
  {
    if products == [] then []
    else
      var p := products[|products| - 1];
      ProductRows(products[..|products| - 1]) + seq(|VariantsOf(p)|, j requires 0 <= j < |VariantsOf(p)| => VariantRow(p, VariantsOf(p)[j]))
  }

  /** The total number of variants. */
  function VariantCount(products: seq<Product>): nat
  {
    if products == [] then 0 else VariantCount(products[..|products| - 1]) + |VariantsOf(products[|products| - 1])|
  }

  /** `processProductsData`: push one row per variant, product by product. */
  method ProcessProductsData(products: seq<Product>) returns (rows: seq<ProductRow>)
    ensures rows == ProductRows(products)
  {
    rows := [];
    for k := 0 to |products|
      invariant rows == ProductRows(products[..k])
    {
      var product := products[k];
      assert products[..k + 1][..k] == products[..k];
      ghost var before := rows;
      if product.variants.Some? {
        var variants := product.variants.value;
        for j := 0 to |variants|
          invariant rows == before + seq(j, i requires 0 <= i < j => VariantRow(product, variants[i]))
        {
          rows := rows + [VariantRow(product, variants[j])];
        }
      }
    }
    assert products[..|products|] == products;
  }

  /** There is one row per variant. */
  lemma {:induction false} ProductRowsCount(products: seq<Product>)
    ensures |ProductRows(products)| == VariantCount(products)
  {
    if products != [] {
      ProductRowsCount(products[..|products| - 1]);
    }
  }

  /** The row carries the product's title, vendor and type, and nothing sold. */
  predicate CarriesParent(r: ProductRow, p: Product)
  {
    && r.productTitle == p.title
    && r.vendor == OrElse(p.vendor, "")
    && r.productType == OrElse(p.productType, "")
    && r.unitsSold == 0 && r.totalRevenue == 0
  }

  predicate FromSomeProduct(r: ProductRow, products: seq<Product>)
  {
    exists k :: 0 <= k < |products| && CarriesParent(r, products[k])
  }

  /** Every row comes from a variant of some product and carries that product's fields, with nothing sold. */
  lemma {:induction false} ProductRowsCarryParent(products: seq<Product>)
    ensures forall i :: 0 <= i < |ProductRows(products)| ==> FromSomeProduct(ProductRows(products)[i], products)
  {
    if products != [] {
      var init := products[..|products| - 1];
      ProductRowsCarryParent(init);
      var rows := ProductRows(products);
      var head := ProductRows(init);
      forall i | 0 <= i < |rows| ensures FromSomeProduct(rows[i], products) {
        if i < |head| {
          assert rows[i] == head[i];
          var k :| 0 <= k < |init| && CarriesParent(head[i], init[k]);
          assert products[k] == init[k];
        } else {
          var k := |products| - 1;
          var p := products[k];
          assert rows[i] == VariantRow(p, VariantsOf(p)[i - |head|]);
          assert CarriesParent(rows[i], p);
        }
      }
    }
  }

  // -------------------------------------------------------------- customers

  datatype CustomerRow = CustomerRow(
    customerName: string,
    email: string,
    totalOrders: int,
    totalSpent: int,
    averageOrderValue: real,
    firstOrderDate: string,
    lastOrderDate: string,
    customerSince: string)

  /** The message `format` throws for the invalid date made of a missing timestamp. */
  const InvalidTimeValue := "Invalid time value"

  /** The amount spent per order, or 0 for a customer without orders. */
  function AverageOrderValue(totalSpent: int, totalOrders: int): (a: real)
    ensures totalOrders <= 0 ==> a == 0.0
    ensures totalOrders > 0 ==> a * totalOrders as real == totalSpent as real
  {
    if totalOrders > 0 then
      var t := totalSpent as real;
      var n := totalOrders as real;
      assert (t / n) * n == t;
      t / n
    else 0.0
  }

  /**
   * The row of one customer. `customerSince` formats `createdAt` without a
   * guard, so a customer without it makes the whole report throw.
   */
  function CustomerRowOf(c: Customer): (r: CustomerRow)
    requires c.createdDay.Some?
    ensures r.customerSince == r.firstOrderDate == c.createdDay.value
    ensures r.averageOrderValue == AverageOrderValue(c.amountSpent.GetOr(0), c.numberOfOrders.GetOr(0))
    ensures FullName(c.firstName, c.lastName) == "" ==> r.customerName == "N/A"
    ensures FullName(c.firstName, c.lastName) != "" ==> r.customerName == FullName(c.firstName, c.lastName)
  {
    var totalSpent := c.amountSpent.GetOr(0);
    var totalOrders := c.numberOfOrders.GetOr(0);
    CustomerRow(
      OrIfEmpty(FullName(c.firstName, c.lastName), "N/A"),
      OrElse(c.email, ""),
      totalOrders,
      totalSpent,
      AverageOrderValue(totalSpent, totalOrders),
      c.createdDay.value,
      match c.lastOrderDay case None => "" case Some(d) => d,
      c.createdDay.value)
  }

  /**
   * `processCustomersData`: one row per customer, in order; a customer
   * without a creation date makes the whole call fail with the date
   * library's error.
   */
  function ProcessCustomersData(customers: seq<Customer>): (r: Result<seq<CustomerRow>>)
    ensures r.Failure? <==> exists k :: 0 <= k < |customers| && customers[k].createdDay.None?
    ensures r.Failure? ==> r.error == InvalidTimeValue
    ensures r.Success? ==> |r.value| == |customers|
    ensures r.Success? ==> forall k :: 0 <= k < |customers| ==> r.value[k] == CustomerRowOf(customers[k])
  {
    if exists k :: 0 <= k < |customers| && customers[k].createdDay.None? then Failure(InvalidTimeValue)
    else Success(seq(|customers|, k requires 0 <= k < |customers| => CustomerRowOf(customers[k])))
  }

  // -------------------------------------------------------------- inventory

  datatype InventoryRow = InventoryRow(
    productTitle: string,
    sku: string,
    vendor: string,
    location: string,
    quantityAvailable: int,
    quantityOnHand: int,
    quantityCommitted: int,
    inventoryValue: int)

  /** The row of one inventory item: its quantity (missing counts 0) valued at its unit cost. */
  function InventoryRowOf(item: InventoryItem): (r: InventoryRow)
    ensures r.location == "Default" && r.quantityCommitted == 0
    ensures r.quantityAvailable == r.quantityOnHand == item.inventoryQuantity.GetOr(0)
    ensures r.inventoryValue == r.quantityOnHand * item.unitCost
    ensures item.inventoryQuantity.None? ==> r.inventoryValue == 0
  {
    var quantity := item.inventoryQuantity.GetOr(0);
    InventoryRow(item.productTitle, OrElse(item.sku, ""), OrElse(item.vendor, ""), "Default",
                 quantity, quantity, 0, quantity * item.unitCost)
  }

  function ProcessInventoryData(items: seq<InventoryItem>): (rows: seq<InventoryRow>)
    ensures |rows| == |items|
    ensures forall k :: 0 <= k < |items| ==> rows[k] == InventoryRowOf(items[k])
  {
    seq(|items|, k requires 0 <= k < |items| => InventoryRowOf(items[k]))
  }

  // ---------------------------------------------------------------- traffic

  /** Traffic figures are not available from the Admin API: the report has no rows. */
  function ProcessTrafficData<T>(raw: seq<T>): (rows: seq<T>)
    ensures |rows| == 0
  {
    []
  }

  // -------------------------------------------------------------- discounts

  datatype DiscountRow = DiscountRow(
    discountCode: string,
    discountType: string,
    timesUsed: int,
    totalRevenue: int,
    totalDiscountAmount: int,
    averageOrderValue: int,
    status: string,
    startDate: string,
    endDate: string)

  /**
   * The discount type: "UNKNOWN", then overwritten by each test that holds,
   * in the order Basic, Bxgy, FreeShipping, so the last matching test wins.
   */
  function DiscountType(typeName: Option<string>): (t: string)
    ensures !Truthy(typeName) ==> t == "UNKNOWN"
    ensures Truthy(typeName) ==>
      t == (if Contains(typeName.value, "FreeShipping") then "FREE_SHIPPING"
            else if Contains(typeName.value, "Bxgy") then "BUY_X_GET_Y"
            else if Contains(typeName.value, "Basic") then "PERCENTAGE"
            else "UNKNOWN")
  {
    if !Truthy(typeName) then "UNKNOWN"
    else
      var name := typeName.value;
      var t0 := "UNKNOWN";
      var t1 := if Contains(name, "Basic") then "PERCENTAGE" else t0;
      var t2 := if Contains(name, "Bxgy") then "BUY_X_GET_Y" else t1;
      var t3 := if Contains(name, "FreeShipping") then "FREE_SHIPPING" else t2;
      t3
  }

  function DiscountRowOf(d: Discount): (r: DiscountRow)
    ensures r.discountCode == (if |d.codes| > 0 then d.codes[0] else "")
    ensures r.discountType == DiscountType(d.typeName)
    ensures r.timesUsed == d.usageCount.GetOr(0)
    ensures r.totalRevenue == 0 && r.totalDiscountAmount == 0 && r.averageOrderValue == 0
    ensures r.status != ""
  {
    DiscountRow(
      if |d.codes| > 0 then OrElse(Some(d.codes[0]), "") else "",
      DiscountType(d.typeName),
      d.usageCount.GetOr(0),
      0, 0, 0,
      OrElse(d.status, "UNKNOWN"),
      match d.startsDay case None => "" case Some(s) => s,
      match d.endsDay case None => "" case Some(s) => s)
  }

  /**
   * The discount query never asks for `__typename` on the discount itself, so
   * every fetched discount lacks a type name and every row says "UNKNOWN".
   */
  lemma UntypedDiscountsAreUnknown(discounts: seq<Discount>)
    requires forall k :: 0 <= k < |discounts| ==> discounts[k].typeName.None?
    ensures forall k :: 0 <= k < |discounts| ==> ProcessDiscountsData(discounts)[k].discountType == "UNKNOWN"
  {
  }

  function ProcessDiscountsData(discounts: seq<Discount>): (rows: seq<DiscountRow>)
    ensures |rows| == |discounts|
    ensures forall k :: 0 <= k < |discounts| ==> rows[k] == DiscountRowOf(discounts[k])
  {
    seq(|discounts|, k requires 0 <= k < |discounts| => DiscountRowOf(discounts[k]))
  }
}
