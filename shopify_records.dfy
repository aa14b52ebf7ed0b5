/**
 * The Shopify records the fetcher returns and the data processor turns
 * into report rows, reduced to the fields the reports read.
 *
 * Money is in integer cents. An amount the source reads with
 * `parseFloat(x?.amount || "0")` is an `Option<int>`: `None` stands for a
 * missing or empty amount. Timestamps arrive already formatted: `day` is
 * the `yyyy-MM-dd` day of `createdAt`, `dateTime` its
 * `yyyy-MM-dd HH:mm:ss` rendering.
 */
module ShopifyRecords {
  import opened Wrappers

  datatype LineItem = LineItem(
    quantity: Option<int>,
    unitCost: Option<int>,            // variant.inventoryItem.unitCost.amount
    discountedUnitPrice: Option<int>) // discountedUnitPriceSet.shopMoney.amount

  datatype Transaction = Transaction(gateway: Option<string>, status: string, kind: string, amount: Option<int>)

  /** The customer an order belongs to. */
  datatype Buyer = Buyer(firstName: Option<string>, lastName: Option<string>, email: Option<string>)

  datatype Order = Order(
    name: string,
    day: string,
    dateTime: string,
    totalPrice: int,
    totalDiscounts: Option<int>,
    totalTax: Option<int>,
    totalShipping: Option<int>,
    netPayment: Option<int>,
    totalRefunded: Option<int>,
    totalRefundedShipping: Option<int>,
    currentTotal: Option<int>,
    customer: Option<Buyer>,
    cancelled: bool,                  // cancelledAt is set
    fulfillmentStatus: Option<string>,
    financialStatus: Option<string>,
    lineItems: Option<seq<LineItem>>,
    transactions: Option<seq<Transaction>>)

  /** Some order of `orders` was placed on `day`. */
  predicate PlacedOn(orders: seq<Order>, day: string)
  {
    exists k :: 0 <= k < |orders| && orders[k].day == day
  }

  datatype Variant = Variant(id: string, sku: Option<string>, price: Option<int>, inventoryQuantity: Option<int>,
                             unitCost: Option<int>)

  datatype Product = Product(id: string, title: string, vendor: Option<string>, productType: Option<string>,
                             variants: Option<seq<Variant>>)

  datatype Customer = Customer(
    firstName: Option<string>,
    lastName: Option<string>,
    email: Option<string>,
    numberOfOrders: Option<int>,
    amountSpent: Option<int>,
    createdDay: Option<string>,
    lastOrderDay: Option<string>)

  /** One product variant, flattened by the inventory fetch. */
  datatype InventoryItem = InventoryItem(
    productId: string,
    productTitle: string,
    vendor: Option<string>,
    productType: Option<string>,
    variantId: string,
    sku: Option<string>,
    price: Option<int>,
    inventoryQuantity: Option<int>,
    unitCost: int)

  datatype Discount = Discount(
    typeName: Option<string>,         // __typename
    codes: seq<string>,
    usageCount: Option<int>,
    status: Option<string>,
    startsDay: Option<string>,
    endsDay: Option<string>)
}
