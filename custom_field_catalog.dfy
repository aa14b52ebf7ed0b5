/**
 * The catalogue of fields a custom report can select: three tables (order,
 * product and customer fields), each written as the run of its commented
 * groups, and each proved to hold only entries of its own source.
 */
module CustomFieldCatalog {
  import opened Wrappers

  datatype DataSource = OrdersSource | ProductsSource | CustomersSource | InventorySource | SalesSource | FulfillmentsSource

  /**
   * A selectable field; `kind` is string, number, currency, date, datetime,
   * boolean, email or url. The display label and the GraphQL path of an
   * entry are not part of this model (no lookup reads them).
   */
  datatype CustomReportField = CustomReportField(
    key: string, kind: string, description: Option<string>, source: DataSource, category: Option<string>)

  /** An entry without a description, as every entry of the three tables is. */
  function Field(key: string, kind: string, source: DataSource, category: Option<string>): CustomReportField
  {
    CustomReportField(key, kind, None, source, category)
  }

  /** `ORDER_FIELDS`: the run of its commented groups; every entry is drawn from ORDERS. */
  function OrderFields(): (r: seq<CustomReportField>)
    ensures DrawnFrom(r, OrdersSource)
  {
    DrawnFromConcat(OrderBasicInfo(), OrderFinancial(), OrdersSource);
    DrawnFromConcat(OrderBasicInfo() + OrderFinancial(), OrderStatus(), OrdersSource);
    DrawnFromConcat(OrderBasicInfo() + OrderFinancial() + OrderStatus(), OrderCustomer(), OrdersSource);
    DrawnFromConcat(OrderBasicInfo() + OrderFinancial() + OrderStatus() + OrderCustomer(), OrderShippingAddress(), OrdersSource);
    DrawnFromConcat(OrderBasicInfo() + OrderFinancial() + OrderStatus() + OrderCustomer() + OrderShippingAddress(), OrderBillingAddress(), OrdersSource);
    DrawnFromConcat(OrderBasicInfo() + OrderFinancial() + OrderStatus() + OrderCustomer() + OrderShippingAddress() + OrderBillingAddress(), OrderAdditional(), OrdersSource);
    DrawnFromConcat(OrderBasicInfo() + OrderFinancial() + OrderStatus() + OrderCustomer() + OrderShippingAddress() + OrderBillingAddress() + OrderAdditional(), OrderTax(), OrdersSource);
    DrawnFromConcat(OrderBasicInfo() + OrderFinancial() + OrderStatus() + OrderCustomer() + OrderShippingAddress() + OrderBillingAddress() + OrderAdditional() + OrderTax(), OrderQuantities(), OrdersSource);
    OrderBasicInfo() + OrderFinancial() + OrderStatus() + OrderCustomer() + OrderShippingAddress() + OrderBillingAddress() + OrderAdditional() + OrderTax() + OrderQuantities()
  }

  /** `PRODUCT_FIELDS`: every entry is drawn from PRODUCTS. */
  function ProductFields(): (r: seq<CustomReportField>)
    ensures DrawnFrom(r, ProductsSource)
  {
    DrawnFromConcat(ProductBasicInfo(), ProductVariants(), ProductsSource);
    DrawnFromConcat(ProductBasicInfo() + ProductVariants(), ProductPricing(), ProductsSource);
    DrawnFromConcat(ProductBasicInfo() + ProductVariants() + ProductPricing(), ProductAdditional(), ProductsSource);
    DrawnFromConcat(ProductBasicInfo() + ProductVariants() + ProductPricing() + ProductAdditional(), ProductSeo(), ProductsSource);
    DrawnFromConcat(ProductBasicInfo() + ProductVariants() + ProductPricing() + ProductAdditional() + ProductSeo(), ProductUrls(), ProductsSource);
    ProductBasicInfo() + ProductVariants() + ProductPricing() + ProductAdditional() + ProductSeo() + ProductUrls()
  }

  /** `CUSTOMER_FIELDS`: every entry is drawn from CUSTOMERS. */
  function CustomerFields(): (r: seq<CustomReportField>)
    ensures DrawnFrom(r, CustomersSource)
  {
    DrawnFromConcat(CustomerBasicInfo(), CustomerStatistics(), CustomersSource);
    DrawnFromConcat(CustomerBasicInfo() + CustomerStatistics(), CustomerPreferences(), CustomersSource);
    DrawnFromConcat(CustomerBasicInfo() + CustomerStatistics() + CustomerPreferences(), CustomerAdditional(), CustomersSource);
    CustomerBasicInfo() + CustomerStatistics() + CustomerPreferences() + CustomerAdditional()
  }

  /** customReportFields.ts:31-38. */
  function OrderBasicInfo(): (r: seq<CustomReportField>)
    ensures DrawnFrom(r, OrdersSource)
  {
    [Field("order_id", "string", OrdersSource, Some("Basic Info")),
     Field("order_name", "string", OrdersSource, Some("Basic Info")),
     Field("confirmation_number", "string", OrdersSource, Some("Basic Info")),
     Field("created_at", "datetime", OrdersSource, Some("Dates")),
     Field("updated_at", "datetime", OrdersSource, Some("Dates")),
     Field("processed_at", "datetime", OrdersSource, Some("Dates")),
     Field("cancelled_at", "datetime", OrdersSource, Some("Dates")),
     Field("closed_at", "datetime", OrdersSource, Some("Dates"))]
  }

  /** customReportFields.ts:41-52. */
  function OrderFinancial(): (r: seq<CustomReportField>)
    ensures DrawnFrom(r, OrdersSource)
  {
    [Field("currency_code", "string", OrdersSource, Some("Financial")),
     Field("current_subtotal_price", "currency", OrdersSource, Some("Financial")),
     Field("current_total_price", "currency", OrdersSource, Some("Financial")),
     Field("current_total_tax", "currency", OrdersSource, Some("Financial")),
     Field("current_total_discounts", "currency", OrdersSource, Some("Financial")),
     Field("current_shipping_price", "currency", OrdersSource, Some("Financial")),
     Field("subtotal_price", "currency", OrdersSource, Some("Financial")),
     Field("total_price", "currency", OrdersSource, Some("Financial")),
     Field("total_tax", "currency", OrdersSource, Some("Financial")),
     Field("total_discounts", "currency", OrdersSource, Some("Financial")),
     Field("total_shipping_price", "currency", OrdersSource, Some("Financial")),
     Field("total_tip_received", "currency", OrdersSource, Some("Financial"))]
  }

  /** customReportFields.ts:55-61. */
  function OrderStatus(): (r: seq<CustomReportField>)
    ensures DrawnFrom(r, OrdersSource)
  {
    [Field("display_financial_status", "string", OrdersSource, Some("Status")),
     Field("display_fulfillment_status", "string", OrdersSource, Some("Status")),
     Field("cancel_reason", "string", OrdersSource, Some("Status")),
     Field("confirmed", "boolean", OrdersSource, Some("Status")),
     Field("closed", "boolean", OrdersSource, Some("Status")),
     Field("fulfillable", "boolean", OrdersSource, Some("Status")),
     Field("capturable", "boolean", OrdersSource, Some("Status"))]
  }

  /** customReportFields.ts:64-70. */
  function OrderCustomer(): (r: seq<CustomReportField>)
    ensures DrawnFrom(r, OrdersSource)
  {
    [Field("customer_email", "email", OrdersSource, Some("Customer")),
     Field("customer_phone", "string", OrdersSource, Some("Customer")),
     Field("customer_locale", "string", OrdersSource, Some("Customer")),
     Field("customer_accepts_marketing", "boolean", OrdersSource, Some("Customer")),
     Field("customer_first_name", "string", OrdersSource, Some("Customer")),
     Field("customer_last_name", "string", OrdersSource, Some("Customer")),
     Field("customer_display_name", "string", OrdersSource, Some("Customer"))]
  }

  /** customReportFields.ts:73-80. */
  function OrderShippingAddress(): (r: seq<CustomReportField>)
    ensures DrawnFrom(r, OrdersSource)
  {
    [Field("shipping_address_1", "string", OrdersSource, Some("Shipping")),
     Field("shipping_address_2", "string", OrdersSource, Some("Shipping")),
     Field("shipping_city", "string", OrdersSource, Some("Shipping")),
     Field("shipping_province", "string", OrdersSource, Some("Shipping")),
     Field("shipping_province_code", "string", OrdersSource, Some("Shipping")),
     Field("shipping_country", "string", OrdersSource, Some("Shipping")),
     Field("shipping_country_code", "string", OrdersSource, Some("Shipping")),
     Field("shipping_zip", "string", OrdersSource, Some("Shipping"))]
  }

  /** customReportFields.ts:83-90. */
  function OrderBillingAddress(): (r: seq<CustomReportField>)
    ensures DrawnFrom(r, OrdersSource)
  {
    [Field("billing_address_1", "string", OrdersSource, Some("Billing")),
     Field("billing_address_2", "string", OrdersSource, Some("Billing")),
     Field("billing_city", "string", OrdersSource, Some("Billing")),
     Field("billing_province", "string", OrdersSource, Some("Billing")),
     Field("billing_province_code", "string", OrdersSource, Some("Billing")),
     Field("billing_country", "string", OrdersSource, Some("Billing")),
     Field("billing_country_code", "string", OrdersSource, Some("Billing")),
     Field("billing_zip", "string", OrdersSource, Some("Billing"))]
  }

  /** customReportFields.ts:93-99. */
  function OrderAdditional(): (r: seq<CustomReportField>)
    ensures DrawnFrom(r, OrdersSource)
  {
    [Field("note", "string", OrdersSource, Some("Additional")),
     Field("tags", "string", OrdersSource, Some("Additional")),
     Field("source_name", "string", OrdersSource, Some("Additional")),
     Field("channel_name", "string", OrdersSource, Some("Additional")),
     Field("app_name", "string", OrdersSource, Some("Additional")),
     Field("client_ip", "string", OrdersSource, Some("Additional")),
     Field("po_number", "string", OrdersSource, Some("Additional"))]
  }

  /** customReportFields.ts:102-104. */
  function OrderTax(): (r: seq<CustomReportField>)
    ensures DrawnFrom(r, OrdersSource)
  {
    [Field("tax_exempt", "boolean", OrdersSource, Some("Tax")),
     Field("taxes_included", "boolean", OrdersSource, Some("Tax")),
     Field("estimated_taxes", "boolean", OrdersSource, Some("Tax"))]
  }

  /** customReportFields.ts:107-108. */
  function OrderQuantities(): (r: seq<CustomReportField>)
    ensures DrawnFrom(r, OrdersSource)
  {
    [Field("current_subtotal_line_items_quantity", "number", OrdersSource, Some("Quantities")),
     Field("current_total_weight", "number", OrdersSource, Some("Quantities"))]
  }

  /** customReportFields.ts:116-125. */
  function ProductBasicInfo(): (r: seq<CustomReportField>)
    ensures DrawnFrom(r, ProductsSource)
  {
    [Field("product_id", "string", ProductsSource, Some("Basic Info")),
     Field("product_title", "string", ProductsSource, Some("Basic Info")),
     Field("product_handle", "string", ProductsSource, Some("Basic Info")),
     Field("product_description", "string", ProductsSource, Some("Basic Info")),
     Field("product_type", "string", ProductsSource, Some("Basic Info")),
     Field("vendor", "string", ProductsSource, Some("Basic Info")),
     Field("product_status", "string", ProductsSource, Some("Basic Info")),
     Field("product_created_at", "datetime", ProductsSource, Some("Dates")),
     Field("product_updated_at", "datetime", ProductsSource, Some("Dates")),
     Field("product_published_at", "datetime", ProductsSource, Some("Dates"))]
  }

  /** customReportFields.ts:128-137. */
  function ProductVariants(): (r: seq<CustomReportField>)
    ensures DrawnFrom(r, ProductsSource)
  {
    [Field("variant_id", "string", ProductsSource, Some("Variants")),
     Field("variant_title", "string", ProductsSource, Some("Variants")),
     Field("variant_sku", "string", ProductsSource, Some("Variants")),
     Field("variant_barcode", "string", ProductsSource, Some("Variants")),
     Field("variant_price", "currency", ProductsSource, Some("Variants")),
     Field("variant_compare_at_price", "currency", ProductsSource, Some("Variants")),
     Field("variant_position", "number", ProductsSource, Some("Variants")),
     Field("variant_taxable", "boolean", ProductsSource, Some("Variants")),
     Field("variant_available_for_sale", "boolean", ProductsSource, Some("Variants")),
     Field("variant_inventory_quantity", "number", ProductsSource, Some("Variants"))]
  }

  /** customReportFields.ts:140-141. */
  function ProductPricing(): (r: seq<CustomReportField>)
    ensures DrawnFrom(r, ProductsSource)
  {
    [Field("price_range_min", "currency", ProductsSource, Some("Pricing")),
     Field("price_range_max", "currency", ProductsSource, Some("Pricing"))]
  }

  /** customReportFields.ts:144-150. */
  function ProductAdditional(): (r: seq<CustomReportField>)
    ensures DrawnFrom(r, ProductsSource)
  {
    [Field("product_tags", "string", ProductsSource, Some("Additional")),
     Field("is_gift_card", "boolean", ProductsSource, Some("Additional")),
     Field("has_only_default_variant", "boolean", ProductsSource, Some("Additional")),
     Field("has_out_of_stock_variants", "boolean", ProductsSource, Some("Additional")),
     Field("total_inventory", "number", ProductsSource, Some("Additional")),
     Field("tracks_inventory", "boolean", ProductsSource, Some("Additional")),
     Field("variants_count", "number", ProductsSource, Some("Additional"))]
  }

  /** customReportFields.ts:153-154. */
  function ProductSeo(): (r: seq<CustomReportField>)
    ensures DrawnFrom(r, ProductsSource)
  {
    [Field("seo_title", "string", ProductsSource, Some("SEO")),
     Field("seo_description", "string", ProductsSource, Some("SEO"))]
  }

  /** customReportFields.ts:157-158. */
  function ProductUrls(): (r: seq<CustomReportField>)
    ensures DrawnFrom(r, ProductsSource)
  {
    [Field("online_store_url", "url", ProductsSource, Some("URLs")),
     Field("online_store_preview_url", "url", ProductsSource, Some("URLs"))]
  }

  /** customReportFields.ts:166-173. */
  function CustomerBasicInfo(): (r: seq<CustomReportField>)
    ensures DrawnFrom(r, CustomersSource)
  {
    [Field("customer_id", "string", CustomersSource, Some("Basic Info")),
     Field("customer_email", "email", CustomersSource, Some("Basic Info")),
     Field("customer_first_name", "string", CustomersSource, Some("Basic Info")),
     Field("customer_last_name", "string", CustomersSource, Some("Basic Info")),
     Field("customer_display_name", "string", CustomersSource, Some("Basic Info")),
     Field("customer_phone", "string", CustomersSource, Some("Basic Info")),
     Field("customer_created_at", "datetime", CustomersSource, Some("Dates")),
     Field("customer_updated_at", "datetime", CustomersSource, Some("Dates"))]
  }

  /** customReportFields.ts:176-178. */
  function CustomerStatistics(): (r: seq<CustomReportField>)
    ensures DrawnFrom(r, CustomersSource)
  {
    [Field("customer_amount_spent", "currency", CustomersSource, Some("Statistics")),
     Field("customer_number_of_orders", "number", CustomersSource, Some("Statistics")),
     Field("customer_lifetime_duration", "string", CustomersSource, Some("Statistics"))]
  }

  /** customReportFields.ts:181-184. */
  function CustomerPreferences(): (r: seq<CustomReportField>)
    ensures DrawnFrom(r, CustomersSource)
  {
    [Field("customer_locale", "string", CustomersSource, Some("Preferences")),
     Field("customer_state", "string", CustomersSource, Some("Preferences")),
     Field("customer_tax_exempt", "boolean", CustomersSource, Some("Preferences")),
     Field("customer_verified_email", "boolean", CustomersSource, Some("Preferences"))]
  }

  /** customReportFields.ts:187-188. */
  function CustomerAdditional(): (r: seq<CustomReportField>)
    ensures DrawnFrom(r, CustomersSource)
  {
    [Field("customer_note", "string", CustomersSource, Some("Additional")),
     Field("customer_tags", "string", CustomersSource, Some("Additional"))]
  }

  /** Every entry of `fs` names `source`. */
  predicate DrawnFrom(fs: seq<CustomReportField>, source: DataSource)
  {
    forall i :: 0 <= i < |fs| ==> fs[i].source == source
  }

  lemma DrawnFromConcat(a: seq<CustomReportField>, b: seq<CustomReportField>, source: DataSource)
    requires DrawnFrom(a, source) && DrawnFrom(b, source)
    ensures DrawnFrom(a + b, source)
  {
  }

  /** No entry of `fs` has `key`. */
  predicate KeyAbsent(fs: seq<CustomReportField>, key: string)
  {
    forall i :: 0 <= i < |fs| ==> fs[i].key != key
  }

  lemma KeyAbsentConcat(a: seq<CustomReportField>, b: seq<CustomReportField>, key: string)
    ensures KeyAbsent(a, key) && KeyAbsent(b, key) ==> KeyAbsent(a + b, key)
  {
    if KeyAbsent(a, key) && KeyAbsent(b, key) {
      forall i | 0 <= i < |a + b|
        ensures (a + b)[i].key != key
      {
        if i >= |a| {
          assert (a + b)[i] == b[i - |a|];
        }
      }
    }
  }

  // Where "customer_email" sits: the first three order groups lack it, the
  // order table's customer group starts with it, and the customer table has it too.

  lemma OrderBasicInfoLacksCustomerEmail()
    ensures KeyAbsent(OrderBasicInfo(), "customer_email")
  {
  }

  lemma OrderFinancialLacksCustomerEmail()
    ensures KeyAbsent(OrderFinancial(), "customer_email")
  {
  }

  lemma OrderStatusLacksCustomerEmail()
    ensures KeyAbsent(OrderStatus(), "customer_email")
  {
  }

  lemma OrderCustomerStartsWithCustomerEmail()
    ensures OrderCustomer()[0].key == "customer_email"
  {
  }

  lemma CustomerBasicInfoHasCustomerEmail()
    ensures CustomerBasicInfo()[1].key == "customer_email"
  {
  }
}
