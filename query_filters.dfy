/**
 * The Admin API search strings the fetcher builds from a report's filters:
 * a `created_at` range clause for the date range, then one
 * ` AND (a OR b ...)` group per non-empty list of statuses or channels;
 * product-type and vendor terms for the catalogue queries; and a customer
 * query chosen by the customer type.
 *
 * `toISOString` is the parameter `iso`: the rendering of an instant is not
 * modelled, only where the rendered instants go.
 */
module QueryFilters {
  import opened Wrappers
  import opened Text
  import opened DateRangeHelper

  /** `created_at:>='<start>' AND created_at:<='<end>'`. */
  function RangeClause(range: DateRange, iso: int -> string): string
  {
    "created_at:>='" + iso(range.startDate) + "' AND created_at:<='" + iso(range.endDate) + "'"
  }

  /** ` AND (<terms joined by " OR ">)`, or nothing when there are no terms. */
  function AnyOf(terms: seq<string>): string
  {
    if |terms| == 0 then "" else " AND (" + Join(terms, " OR ") + ")"
  }

  /** `values.map(s => prefix + s)`. */
  function Prefixed(prefix: string, values: seq<string>): (r: seq<string>)
    ensures |r| == |values|
    ensures forall i :: 0 <= i < |values| ==> r[i] == prefix + values[i]
  {
    seq(|values|, i requires 0 <= i < |values| => prefix + values[i])
  }

  /** `values.map(v => field + ":'" + v + "'")`. */
  function Quoted(field: string, values: seq<string>): (r: seq<string>)
    ensures |r| == |values|
    ensures forall i :: 0 <= i < |values| ==> r[i] == field + ":'" + values[i] + "'"
  {
    seq(|values|, i requires 0 <= i < |values| => field + ":'" + values[i] + "'")
  }

  /** The sales query: the range, then the sales channels as given. */
  function SalesQuery(range: DateRange, iso: int -> string, salesChannel: seq<string>): string
  {
    RangeClause(range, iso) + AnyOf(salesChannel)
  }

  /** The orders query: the range, then the order, fulfillment and financial statuses. */
  function OrdersQuery(range: DateRange, iso: int -> string, orderStatus: seq<string>,
                       fulfillmentStatus: seq<string>, financialStatus: seq<string>): string
  {
    RangeClause(range, iso)
      + AnyOf(Prefixed("status:", orderStatus))
      + AnyOf(Prefixed("fulfillment_status:", fulfillmentStatus))
      + AnyOf(Prefixed("financial_status:", financialStatus))
  }

  /**
   * The products and inventory query: the product types, then the vendors,
   * which are grouped behind ` AND (` only when some type came before them.
   */
  function CatalogQuery(productType: seq<string>, vendor: seq<string>): string
  {
    var types := if |productType| > 0 then Join(Quoted("product_type", productType), " OR ") else "";
    if |vendor| > 0 then
      var vendors := Join(Quoted("vendor", vendor), " OR ");
      types + (if types != "" then " AND (" + vendors + ")" else vendors)
    else types
  }

  /** The customers query: the range for NEW customers, the order count for RETURNING ones, else none. */
  function CustomersQuery(customerType: Option<string>, range: DateRange, iso: int -> string): string
  {
    if customerType == Some("NEW") then RangeClause(range, iso)
    else if customerType == Some("RETURNING") then "orders_count:>1"
    else ""
  }

  /** `queryFilter || null`: an empty filter is sent as no query at all. */
  function QueryVariable(filter: string): (q: Option<string>)
    ensures q.None? <==> filter == ""
    ensures q.Some? ==> q.value == filter
  {
    if filter == "" then None else Some(filter)
  }

  // ------------------------------------------------------------ properties

  /** A group of terms opens with ` AND (` and its first term, closes with `)`, and holds every term. */
  lemma AnyOfShape(terms: seq<string>)
    ensures |terms| == 0 ==> AnyOf(terms) == ""
    ensures |terms| > 0 ==> StartsWith(AnyOf(terms), " AND (" + terms[0]) && EndsWith(AnyOf(terms), ")")
    ensures forall i :: 0 <= i < |terms| ==> Contains(AnyOf(terms), terms[i])
  {
    if |terms| > 0 {
      var j := Join(terms, " OR ");
      JoinStartsWithFirst(terms, " OR ");
      StartsWithAfter(" AND (", j + ")", terms[0]);
      assert " AND (" + (j + ")") == AnyOf(terms);
      PrefixOfConcat(" AND (" + j, ")");
      forall i | 0 <= i < |terms| ensures Contains(AnyOf(terms), terms[i]) {
        JoinContainsParts(terms, " OR ", i);
        ContainsInConcat(" AND (", j, ")", terms[i]);
      }
    }
  }

  /** The sales query opens with the range, ends the channel group with `)`, and names every channel. */
  lemma SalesQueryShape(range: DateRange, iso: int -> string, salesChannel: seq<string>)
    ensures StartsWith(SalesQuery(range, iso, salesChannel), RangeClause(range, iso))
    ensures |salesChannel| == 0 ==> SalesQuery(range, iso, salesChannel) == RangeClause(range, iso)
    ensures |salesChannel| > 0 ==> EndsWith(SalesQuery(range, iso, salesChannel), ")")
    ensures forall i :: 0 <= i < |salesChannel| ==> Contains(SalesQuery(range, iso, salesChannel), salesChannel[i])
  {
    var clause := RangeClause(range, iso);
    AnyOfShape(salesChannel);
    PrefixOfConcat(clause, AnyOf(salesChannel));
    if |salesChannel| > 0 {
      assert SalesQuery(range, iso, salesChannel)[|clause|..] == AnyOf(salesChannel);
    }
    forall i | 0 <= i < |salesChannel| ensures Contains(SalesQuery(range, iso, salesChannel), salesChannel[i]) {
      ContainsInConcat(clause, AnyOf(salesChannel), "", salesChannel[i]);
      assert clause + AnyOf(salesChannel) + "" == SalesQuery(range, iso, salesChannel);
    }
  }

  /** A group opens with ` AND (`, its field prefix and its first value. */
  lemma GroupOpens(prefix: string, values: seq<string>)
    requires |values| > 0
    ensures StartsWith(AnyOf(Prefixed(prefix, values)), " AND (" + prefix + values[0])
  {
    AnyOfShape(Prefixed(prefix, values));
    assert " AND (" + (prefix + values[0]) == " AND (" + prefix + values[0];
  }

  /** Each value of a group occurs in the query with its field prefix. */
  lemma GroupContained(before: string, prefix: string, values: seq<string>, middle: string, after: string)
    ensures forall i :: 0 <= i < |values| ==>
      Contains(before + AnyOf(Prefixed(prefix, values)) + middle + after, prefix + values[i])
  {
    var terms := Prefixed(prefix, values);
    AnyOfShape(terms);
    forall i | 0 <= i < |values| ensures Contains(before + AnyOf(terms) + middle + after, prefix + values[i]) {
      assert terms[i] == prefix + values[i];
      ContainsInConcat(before, AnyOf(terms), middle + after, terms[i]);
      assert before + AnyOf(terms) + (middle + after) == before + AnyOf(terms) + middle + after;
    }
  }

  /** The first non-empty group of three follows the leading clause directly. */
  lemma FirstPresent(w: string, x: string, y: string, z: string)
    ensures StartsWith(w + x + y + z, w)
    ensures x != "" ==> StartsWith(w + x + y + z, w + x)
    ensures x == "" && y != "" ==> StartsWith(w + x + y + z, w + y)
    ensures x == "" && y == "" ==> w + x + y + z == w + z
  {
    assert w + x + y + z == w + (x + y + z);
    PrefixOfConcat(w, x + y + z);
    PrefixOfConcat(w + x, y + z);
    assert w + x + y + z == w + x + (y + z);
    if x == "" {
      assert w + x + y + z == w + y + z;
      PrefixOfConcat(w + y, z);
    }
  }

  /**
   * The orders query opens with the range, and the first status group
   * present follows it directly, in the order order status, fulfillment
   * status, financial status; with no statuses it is the range alone.
   */
  lemma OrdersQueryStart(range: DateRange, iso: int -> string, orderStatus: seq<string>,
                         fulfillmentStatus: seq<string>, financialStatus: seq<string>)
    ensures var q := OrdersQuery(range, iso, orderStatus, fulfillmentStatus, financialStatus);
      && StartsWith(q, RangeClause(range, iso))
      && (|orderStatus| == 0 && |fulfillmentStatus| == 0 && |financialStatus| == 0 ==> q == RangeClause(range, iso))
      && (|orderStatus| > 0 ==> StartsWith(q, RangeClause(range, iso) + AnyOf(Prefixed("status:", orderStatus))))
      && (|orderStatus| == 0 && |fulfillmentStatus| > 0 ==>
            StartsWith(q, RangeClause(range, iso) + AnyOf(Prefixed("fulfillment_status:", fulfillmentStatus))))
      && (|orderStatus| == 0 && |fulfillmentStatus| == 0 ==>
            q == RangeClause(range, iso) + AnyOf(Prefixed("financial_status:", financialStatus)))
  {
    var a := AnyOf(Prefixed("status:", orderStatus));
    var b := AnyOf(Prefixed("fulfillment_status:", fulfillmentStatus));
    assert |orderStatus| > 0 <==> a != "";
    assert |fulfillmentStatus| > 0 <==> b != "";
    FirstPresent(RangeClause(range, iso), a, b, AnyOf(Prefixed("financial_status:", financialStatus)));
  }

  /** The orders query names every requested order, fulfillment and financial status with its field prefix. */
  lemma OrdersQueryNames(range: DateRange, iso: int -> string, orderStatus: seq<string>,
                         fulfillmentStatus: seq<string>, financialStatus: seq<string>)
    ensures var q := OrdersQuery(range, iso, orderStatus, fulfillmentStatus, financialStatus);
      && (forall i :: 0 <= i < |orderStatus| ==> Contains(q, "status:" + orderStatus[i]))
      && (forall i :: 0 <= i < |fulfillmentStatus| ==> Contains(q, "fulfillment_status:" + fulfillmentStatus[i]))
      && (forall i :: 0 <= i < |financialStatus| ==> Contains(q, "financial_status:" + financialStatus[i]))
  {
    var clause := RangeClause(range, iso);
    var a := AnyOf(Prefixed("status:", orderStatus));
    var b := AnyOf(Prefixed("fulfillment_status:", fulfillmentStatus));
    var c := AnyOf(Prefixed("financial_status:", financialStatus));
    GroupContained(clause, "status:", orderStatus, b, c);
    GroupContained(clause + a, "fulfillment_status:", fulfillmentStatus, c, "");
    assert clause + a + b + c + "" == clause + a + b + c;
    GroupContained(clause + a + b, "financial_status:", financialStatus, "", "");
    assert clause + a + b + c + "" + "" == clause + a + b + c;
  }

  /** The text of a non-empty list of terms joined by " OR " is not empty. */
  lemma JoinedTermsNotEmpty(field: string, values: seq<string>)
    requires |values| > 0
    ensures StartsWith(Join(Quoted(field, values), " OR "), Quoted(field, values)[0])
    ensures Join(Quoted(field, values), " OR ") != ""
  {
    JoinStartsWithFirst(Quoted(field, values), " OR ");
    assert |Quoted(field, values)[0]| > 0;
  }

  /** The catalogue query is empty, and sent as no query, exactly when there are no types and no vendors. */
  lemma CatalogQueryEmpty(productType: seq<string>, vendor: seq<string>)
    ensures CatalogQuery(productType, vendor) == "" <==> |productType| == 0 && |vendor| == 0
    ensures QueryVariable(CatalogQuery(productType, vendor)).None? <==> |productType| == 0 && |vendor| == 0
  {
    if |productType| > 0 {
      JoinedTermsNotEmpty("product_type", productType);
    }
    if |vendor| > 0 {
      JoinedTermsNotEmpty("vendor", vendor);
    }
  }

  /**
   * Types come first in the catalogue query; vendors stand alone when there
   * are no types, and are grouped behind ` AND (` and closed by `)` when
   * there are.
   */
  lemma CatalogQueryStart(productType: seq<string>, vendor: seq<string>)
    ensures var q := CatalogQuery(productType, vendor);
      && (|productType| > 0 ==> StartsWith(q, Quoted("product_type", productType)[0]))
      && (|productType| == 0 && |vendor| > 0 ==> StartsWith(q, Quoted("vendor", vendor)[0]))
      && (|productType| > 0 && |vendor| > 0 ==>
            Contains(q, " AND (" + Quoted("vendor", vendor)[0]) && EndsWith(q, ")"))
  {
    if |productType| > 0 {
      JoinedTermsNotEmpty("product_type", productType);
      var types := Join(Quoted("product_type", productType), " OR ");
      if |vendor| > 0 {
        JoinedTermsNotEmpty("vendor", vendor);
        VendorsGrouped(types, Join(Quoted("vendor", vendor), " OR "), Quoted("vendor", vendor)[0]);
      } else {
        assert CatalogQuery(productType, vendor) == types;
      }
    } else if |vendor| > 0 {
      JoinedTermsNotEmpty("vendor", vendor);
    }
  }

  /** Vendors grouped behind the types: the group opens with the first vendor and closes the query. */
  lemma VendorsGrouped(types: string, vendors: string, first: string)
    requires StartsWith(vendors, first)
    ensures var q := types + (" AND (" + vendors + ")");
      StartsWith(q, types) && Contains(q, " AND (" + first) && EndsWith(q, ")")
  {
    var rest := " AND (" + vendors + ")";
    PrefixOfConcat(types, rest);
    StartsWithAfter(" AND (", vendors, first);
    PrefixExtends(" AND (" + vendors, ")", " AND (" + first);
    PrefixContained(rest, " AND (" + first);
    ContainsInConcat(types, rest, "", " AND (" + first);
    assert types + rest + "" == types + rest;
    assert rest[|rest| - 1..] == ")";
    assert (types + rest)[|types + rest| - 1..] == rest[|rest| - 1..];
  }

  /** The catalogue query names every product type and every vendor. */
  lemma CatalogQueryNames(productType: seq<string>, vendor: seq<string>)
    ensures var q := CatalogQuery(productType, vendor);
      && (forall i :: 0 <= i < |productType| ==> Contains(q, Quoted("product_type", productType)[i]))
      && (forall i :: 0 <= i < |vendor| ==> Contains(q, Quoted("vendor", vendor)[i]))
  {
    var tq := Quoted("product_type", productType);
    var vq := Quoted("vendor", vendor);
    var vendors := Join(vq, " OR ");
    if |productType| > 0 {
      JoinedTermsNotEmpty("product_type", productType);
      var types := Join(tq, " OR ");
      var rest := if |vendor| > 0 then " AND (" + vendors + ")" else "";
      assert CatalogQuery(productType, vendor) == "" + types + rest;
      JoinedWithin("", tq, rest);
      if |vendor| > 0 {
        assert CatalogQuery(productType, vendor) == types + " AND (" + vendors + ")";
        JoinedWithin(types + " AND (", vq, ")");
      }
    } else {
      assert CatalogQuery(productType, vendor) == "" + (if |vendor| > 0 then vendors else "") + "";
      JoinedWithin("", vq, "");
    }
  }

  /** Every term of a list joined by " OR " occurs in any text around the joined list. */
  lemma JoinedWithin(before: string, terms: seq<string>, after: string)
    ensures forall i :: 0 <= i < |terms| ==> Contains(before + Join(terms, " OR ") + after, terms[i])
  {
    forall i | 0 <= i < |terms| ensures Contains(before + Join(terms, " OR ") + after, terms[i]) {
      JoinContainsParts(terms, " OR ", i);
      ContainsInConcat(before, Join(terms, " OR "), after, terms[i]);
    }
  }

  /** Only NEW and RETURNING customers are queried with a filter; any other type fetches all customers. */
  lemma CustomersQueryShape(customerType: Option<string>, range: DateRange, iso: int -> string)
    ensures customerType == Some("NEW") ==> QueryVariable(CustomersQuery(customerType, range, iso)) == Some(RangeClause(range, iso))
    ensures customerType == Some("RETURNING") ==> QueryVariable(CustomersQuery(customerType, range, iso)) == Some("orders_count:>1")
    ensures customerType != Some("NEW") && customerType != Some("RETURNING") ==>
              QueryVariable(CustomersQuery(customerType, range, iso)).None?
  {
  }
}
