/**
 * `fetchShopifyData` and the `fetch*Data` functions it dispatches to: each
 * builds its search string, then pages through a connection with the
 * retrying call, at most 20 pages of up to 250 nodes, following
 * `pageInfo.endCursor` while `pageInfo.hasNextPage` holds. A thrown error
 * (the date range, or a call that failed for good) ends the fetch with
 * `success: false`, no data and a count of 0.
 *
 * Each kind of record has its own scripted Admin API client; a fetch uses
 * one of them.
 */
module ShopifyFetch {
  import opened Wrappers
  import opened Text
  import opened Calendar
  import opened DateRangeHelper
  import opened GraphqlRetry
  import opened QueryFilters
  import opened ShopifyRecords

  /** `maxPages`, the guard against an endless connection. */
  const MaxPages: nat := 20

  // ------------------------------------------------------------ pagination

  /** Where the pagination loop ends: the pages or the error, the next call number and the delays slept. */
  datatype Fetched<T> = Fetched(result: Result<seq<Page<T>>>, next: nat, sleeps: seq<nat>)

  /**
   * The pagination loop from one of its states: the number of the next
   * call, `hasNextPage`, `cursor`, the pages read so far (as many as
   * `pageCount` says) and the delays slept so far.
   */
  function Paginate<T>(answers: (nat, Request) -> Answer<T>, query: Option<string>, call: nat, hasNextPage: bool,
                       cursor: Option<string>, pages: seq<Page<T>>, slept: seq<nat>): Fetched<T>
    requires |pages| <= MaxPages
    decreases MaxPages - |pages|
  {
    if !hasNextPage || |pages| == MaxPages then Fetched(Success(pages), call, slept)
    else
      var run := Retry(answers, Request(query, cursor), call, 0);
      match run.result
      case Failure(e) => Fetched(Failure(e), run.next, slept + run.sleeps)
      case Success(page) =>
        Paginate(answers, query, run.next, page.hasNextPage, page.endCursor, pages + [page], slept + run.sleeps)
  }

  /** The whole loop, from its first call on: a next page is assumed and there is no cursor yet. */
  function FetchPages<T>(answers: (nat, Request) -> Answer<T>, query: Option<string>, call: nat): Fetched<T>
  {
    Paginate(answers, query, call, true, None, [], [])
  }

  /** The nodes of the pages, in order. */
  function Nodes<T>(pages: seq<Page<T>>): seq<T>
  {
    if pages == [] then [] else Nodes(pages[..|pages| - 1]) + pages[|pages| - 1].nodes
  }

  function NodesOf<T>(r: Result<seq<Page<T>>>): Result<seq<T>>
  {
    match r
    case Success(pages) => Success(Nodes(pages))
    case Failure(e) => Failure(e)
  }

  /** The pagination loop of a `fetch*Data`: every node of every page, or the error that ended it. */
  method FetchAll<T>(admin: AdminClient<T>, query: Option<string>) returns (r: Result<seq<T>>)
    modifies admin
    ensures var f := FetchPages(admin.answers, query, old(admin.calls));
      r == NodesOf(f.result) && admin.calls == f.next && admin.sleeps == old(admin.sleeps) + f.sleeps
  {
    var all: seq<T> := [];
    var hasNextPage := true;
    var cursor: Option<string> := None;
    var pageCount := 0;
    ghost var pages: seq<Page<T>> := [];
    ghost var slept: seq<nat> := [];
    ghost var target := FetchPages(admin.answers, query, admin.calls);
    while hasNextPage && pageCount < MaxPages
      invariant pageCount == |pages| <= MaxPages
      invariant all == Nodes(pages)
      invariant admin.sleeps == old(admin.sleeps) + slept
      invariant Paginate(admin.answers, query, admin.calls, hasNextPage, cursor, pages, slept) == target
      decreases MaxPages - pageCount
    {
      ghost var call := admin.calls;
      ghost var before := admin.sleeps;
      ghost var run := Retry(admin.answers, Request(query, cursor), call, 0);
      var result := ExecuteGraphQLWithRetry(admin, Request(query, cursor), 0);
      if result.Failure? {
        PageFailed(admin.answers, query, call, cursor, pages, slept, old(admin.sleeps), before, admin.sleeps);
        return Failure(result.error);
      }
      var page := result.value;
      PageRead(admin.answers, query, call, cursor, pages, slept, old(admin.sleeps), before, admin.sleeps);
      assert (pages + [page])[..|pages|] == pages;
      all := all + page.nodes;
      hasNextPage := page.hasNextPage;
      cursor := page.endCursor;
      pageCount := pageCount + 1;
      pages := pages + [page];
      slept := slept + run.sleeps;
    }
    return Success(all);
  }

  /** One page read: the loop goes on from the next call with that page's flag and cursor. */
  lemma PageRead<T>(answers: (nat, Request) -> Answer<T>, query: Option<string>, call: nat, cursor: Option<string>,
                    pages: seq<Page<T>>, slept: seq<nat>, start: seq<nat>, before: seq<nat>, after: seq<nat>)
    requires |pages| < MaxPages
    requires Retry(answers, Request(query, cursor), call, 0).result.Success?
    requires before == start + slept
    requires after == before + Retry(answers, Request(query, cursor), call, 0).sleeps
    ensures var run := Retry(answers, Request(query, cursor), call, 0);
      var page := run.result.value;
      && Paginate(answers, query, call, true, cursor, pages, slept)
         == Paginate(answers, query, run.next, page.hasNextPage, page.endCursor, pages + [page], slept + run.sleeps)
      && after == start + (slept + run.sleeps)
  {
    var run := Retry(answers, Request(query, cursor), call, 0);
    assert start + slept + run.sleeps == start + (slept + run.sleeps);
  }

  /** A page that could not be read ends the loop with that error. */
  lemma PageFailed<T>(answers: (nat, Request) -> Answer<T>, query: Option<string>, call: nat, cursor: Option<string>,
                      pages: seq<Page<T>>, slept: seq<nat>, start: seq<nat>, before: seq<nat>, after: seq<nat>)
    requires |pages| < MaxPages
    requires Retry(answers, Request(query, cursor), call, 0).result.Failure?
    requires before == start + slept
    requires after == before + Retry(answers, Request(query, cursor), call, 0).sleeps
    ensures var run := Retry(answers, Request(query, cursor), call, 0);
      && Paginate(answers, query, call, true, cursor, pages, slept) == Fetched(Failure(run.result.error), run.next, slept + run.sleeps)
      && after == start + (slept + run.sleeps)
  {
    var run := Retry(answers, Request(query, cursor), call, 0);
    assert start + slept + run.sleeps == start + (slept + run.sleeps);
  }

  // ------------------------------------------------------------ pagination properties

  /** Every page but the last announced a next page. */
  ghost predicate Continued<T>(pages: seq<Page<T>>)
  {
    forall i :: 0 <= i < |pages| - 1 ==> pages[i].hasNextPage
  }

  /** The loop state after `pages`: the flag and cursor are those of the last page. */
  ghost predicate Linked<T>(pages: seq<Page<T>>, hasNextPage: bool, cursor: Option<string>)
  {
    && Continued(pages)
    && (|pages| == 0 ==> hasNextPage && cursor.None?)
    && (|pages| > 0 ==> hasNextPage == pages[|pages| - 1].hasNextPage && cursor == pages[|pages| - 1].endCursor)
  }

  lemma {:induction false} PaginateShape<T>(answers: (nat, Request) -> Answer<T>, query: Option<string>, call: nat,
                                           hasNextPage: bool, cursor: Option<string>, pages: seq<Page<T>>, slept: seq<nat>)
    requires |pages| <= MaxPages
    requires Linked(pages, hasNextPage, cursor)
    decreases MaxPages - |pages|
    ensures var f := Paginate(answers, query, call, hasNextPage, cursor, pages, slept);
      f.result.Success? ==>
        && 0 < |f.result.value| <= MaxPages
        && |pages| <= |f.result.value|
        && f.result.value[..|pages|] == pages
        && Continued(f.result.value)
        && (|f.result.value| < MaxPages ==> !f.result.value[|f.result.value| - 1].hasNextPage)
  {
    if hasNextPage && |pages| < MaxPages {
      var run := Retry(answers, Request(query, cursor), call, 0);
      if run.result.Success? {
        var page := run.result.value;
        var more := pages + [page];
        assert Continued(more);
        PaginateShape(answers, query, run.next, page.hasNextPage, page.endCursor, more, slept + run.sleeps);
        var value := Paginate(answers, query, run.next, page.hasNextPage, page.endCursor, more, slept + run.sleeps).result;
        if value.Success? {
          assert value.value[..|more|][..|pages|] == pages;
        }
      }
    }
  }

  /**
   * A fetch that succeeds read between 1 and 20 pages; every page but the
   * last announced a next page, and it stopped short of 20 pages only at a
   * page announcing none.
   */
  lemma PagesShape<T>(answers: (nat, Request) -> Answer<T>, query: Option<string>, call: nat)
    ensures var f := FetchPages(answers, query, call);
      f.result.Success? ==>
        && 1 <= |f.result.value| <= MaxPages
        && (forall i :: 0 <= i < |f.result.value| - 1 ==> f.result.value[i].hasNextPage)
        && (|f.result.value| < MaxPages ==> !f.result.value[|f.result.value| - 1].hasNextPage)
  {
    PaginateShape(answers, query, call, true, None, [], []);
  }

  /** The cursor the request for page `i` carries: none for the first page, the previous page's end cursor after that. */
  function CursorFor<T>(pages: seq<Page<T>>, i: nat): Option<string>
    requires i < |pages|
  {
    if i == 0 then None else pages[i - 1].endCursor
  }

  /** Some call answered `request` with `page`. */
  ghost predicate AnsweredWith<T>(answers: (nat, Request) -> Answer<T>, request: Request, page: Page<T>)
  {
    exists c: nat :: answers(c, request) == Ok(page)
  }

  /** Each page is the answer to the request carrying the cursor of the page before it. */
  ghost predicate CursorChain<T>(answers: (nat, Request) -> Answer<T>, query: Option<string>, pages: seq<Page<T>>)
  {
    forall i :: 0 <= i < |pages| ==> AnsweredWith(answers, Request(query, CursorFor(pages, i)), pages[i])
  }

  lemma {:induction false} PaginateCursors<T>(answers: (nat, Request) -> Answer<T>, query: Option<string>, call: nat,
                                             hasNextPage: bool, cursor: Option<string>, pages: seq<Page<T>>, slept: seq<nat>)
    requires |pages| <= MaxPages
    requires CursorChain(answers, query, pages)
    requires |pages| == 0 ==> cursor.None?
    requires |pages| > 0 ==> cursor == pages[|pages| - 1].endCursor
    decreases MaxPages - |pages|
    ensures var f := Paginate(answers, query, call, hasNextPage, cursor, pages, slept);
      f.result.Success? ==> CursorChain(answers, query, f.result.value)
  {
    if hasNextPage && |pages| < MaxPages {
      var request := Request(query, cursor);
      var run := Retry(answers, request, call, 0);
      RetryResultIsLastAnswer(answers, request, call, 0);
      if run.result.Success? {
        var page := run.result.value;
        var more := pages + [page];
        ChainExtends(answers, query, pages, cursor, page, run.next - 1);
        PaginateCursors(answers, query, run.next, page.hasNextPage, page.endCursor, more, slept + run.sleeps);
      }
    }
  }

  /** A page answered to the request with the last cursor extends the chain. */
  lemma ChainExtends<T>(answers: (nat, Request) -> Answer<T>, query: Option<string>, pages: seq<Page<T>>,
                        cursor: Option<string>, page: Page<T>, c: nat)
    requires CursorChain(answers, query, pages)
    requires |pages| == 0 ==> cursor.None?
    requires |pages| > 0 ==> cursor == pages[|pages| - 1].endCursor
    requires answers(c, Request(query, cursor)) == Ok(page)
    ensures CursorChain(answers, query, pages + [page])
  {
    forall i | 0 <= i < |pages| + 1
      ensures AnsweredWith(answers, Request(query, CursorFor(pages + [page], i)), (pages + [page])[i])
    {
      if i < |pages| {
        EarlierPage(answers, query, pages, page, i);
      } else {
        LastPage(answers, query, pages, cursor, page, c);
      }
    }
  }

  lemma EarlierPage<T>(answers: (nat, Request) -> Answer<T>, query: Option<string>, pages: seq<Page<T>>,
                       page: Page<T>, i: nat)
    requires i < |pages|
    requires AnsweredWith(answers, Request(query, CursorFor(pages, i)), pages[i])
    ensures AnsweredWith(answers, Request(query, CursorFor(pages + [page], i)), (pages + [page])[i])
  {
    assert CursorFor(pages + [page], i) == CursorFor(pages, i);
  }

  lemma LastPage<T>(answers: (nat, Request) -> Answer<T>, query: Option<string>, pages: seq<Page<T>>,
                    cursor: Option<string>, page: Page<T>, c: nat)
    requires |pages| == 0 ==> cursor.None?
    requires |pages| > 0 ==> cursor == pages[|pages| - 1].endCursor
    requires answers(c, Request(query, cursor)) == Ok(page)
    ensures AnsweredWith(answers, Request(query, CursorFor(pages + [page], |pages|)), (pages + [page])[|pages|])
  {
    assert CursorFor(pages + [page], |pages|) == cursor;
  }

  /**
   * Each page of a successful fetch is what the API answered to the request
   * carrying the end cursor of the page before it, the first page to the
   * request without a cursor.
   */
  lemma PagesFollowCursors<T>(answers: (nat, Request) -> Answer<T>, query: Option<string>, call: nat)
    ensures var f := FetchPages(answers, query, call);
      f.result.Success? ==> CursorChain(answers, query, f.result.value)
  {
    PaginateCursors(answers, query, call, true, None, [], []);
  }

  lemma {:induction false} PaginateCalls<T>(answers: (nat, Request) -> Answer<T>, query: Option<string>, call: nat,
                                           hasNextPage: bool, cursor: Option<string>, pages: seq<Page<T>>, slept: seq<nat>)
    requires |pages| <= MaxPages
    decreases MaxPages - |pages|
    ensures var f := Paginate(answers, query, call, hasNextPage, cursor, pages, slept);
      && call <= f.next <= call + (MaxRetries + 1) * (MaxPages - |pages|)
      && |slept| <= |f.sleeps| <= |slept| + MaxRetries * (MaxPages - |pages|)
      && f.sleeps[..|slept|] == slept
  {
    if hasNextPage && |pages| < MaxPages {
      var run := Retry(answers, Request(query, cursor), call, 0);
      RetryCallsBounded(answers, Request(query, cursor), call, 0);
      if run.result.Success? {
        var page := run.result.value;
        PaginateCalls(answers, query, run.next, page.hasNextPage, page.endCursor, pages + [page], slept + run.sleeps);
        var f := Paginate(answers, query, run.next, page.hasNextPage, page.endCursor, pages + [page], slept + run.sleeps);
        assert f.sleeps[..|slept|] == f.sleeps[..|slept + run.sleeps|][..|slept|];
      } else {
        assert (slept + run.sleeps)[..|slept|] == slept;
      }
    }
  }

  /** A fetch makes at most 80 calls (4 per page for 20 pages) and sleeps at most 60 times. */
  lemma FetchCallsBounded<T>(answers: (nat, Request) -> Answer<T>, query: Option<string>, call: nat)
    ensures var f := FetchPages(answers, query, call);
      call <= f.next <= call + 80 && |f.sleeps| <= 60
  {
    PaginateCalls(answers, query, call, true, None, [], []);
  }

  lemma {:induction false} PaginateWithoutFailures<T>(answers: (nat, Request) -> Answer<T>, query: Option<string>, call: nat,
                                                     hasNextPage: bool, cursor: Option<string>, pages: seq<Page<T>>,
                                                     slept: seq<nat>)
    requires |pages| <= MaxPages
    requires forall c: nat, request: Request :: answers(c, request).Ok?
    decreases MaxPages - |pages|
    ensures var f := Paginate(answers, query, call, hasNextPage, cursor, pages, slept);
      f.result.Success? && |f.result.value| >= |pages| && f.next == call + (|f.result.value| - |pages|) && f.sleeps == slept
  {
    if hasNextPage && |pages| < MaxPages {
      var run := Retry(answers, Request(query, cursor), call, 0);
      assert answers(call, Request(query, cursor)).Ok?;
      PaginateWithoutFailures(answers, query, run.next, run.result.value.hasNextPage, run.result.value.endCursor,
                              pages + [run.result.value], slept + run.sleeps);
    }
  }

  /** Against an API that never fails, a fetch makes one call per page and never sleeps. */
  lemma FetchWithoutFailures<T>(answers: (nat, Request) -> Answer<T>, query: Option<string>, call: nat)
    requires forall c: nat, request: Request :: answers(c, request).Ok?
    ensures var f := FetchPages(answers, query, call);
      f.result.Success? && f.next == call + |f.result.value| && f.sleeps == []
  {
    PaginateWithoutFailures(answers, query, call, true, None, [], []);
  }

  /**
   * Against an API that always fails, a fetch gives up on its first page
   * after 4 calls and the delays of 1, 2 and 4 seconds, with the last error.
   */
  lemma FetchOutage<T>(answers: (nat, Request) -> Answer<T>, query: Option<string>, call: nat)
    requires forall c: nat, request: Request :: !answers(c, request).Ok?
    ensures var f := FetchPages(answers, query, call);
      && f.result == Failure(FailureMessage(answers(call + 3, Request(query, None))))
      && f.next == call + 4
      && f.sleeps == [1000, 2000, 4000]
  {
    var request := Request(query, None);
    PersistentFailure(answers, request, call, 0);
    RetrySleepsAreBackoff(answers, request, call, 0);
    DelaysBelowCap();
    assert Backoff(0, 3) == [Delay(0)] + Backoff(1, 2);
    assert [] + Retry(answers, request, call, 0).sleeps == Retry(answers, request, call, 0).sleeps;
  }

  // ------------------------------------------------------------ inventory

  /** The variants of a product; the Admin API always returns the connection. */
  function VariantsOf(p: Product): seq<Variant>
  {
    p.variants.GetOr([])
  }

  /** The inventory item of one variant; a missing unit cost is 0. */
  function ItemOf(p: Product, v: Variant): InventoryItem
  {
    InventoryItem(p.id, p.title, p.vendor, p.productType, v.id, v.sku, v.price, v.inventoryQuantity, v.unitCost.GetOr(0))
  }

  /** The items of one product: one per variant, in variant order. */
  function ProductItems(p: Product): (items: seq<InventoryItem>)
    ensures |items| == |VariantsOf(p)|
    ensures forall j :: 0 <= j < |items| ==> items[j] == ItemOf(p, VariantsOf(p)[j])
  {
    seq(|VariantsOf(p)|, j requires 0 <= j < |VariantsOf(p)| => ItemOf(p, VariantsOf(p)[j]))
  }

  /** The items of the products, product by product. */
  function Flatten(products: seq<Product>): seq<InventoryItem>
  {
    if products == [] then [] else Flatten(products[..|products| - 1]) + ProductItems(products[|products| - 1])
  }

  /** The number of variants of the products. */
  function VariantCount(products: seq<Product>): nat
  {
    if products == [] then 0 else VariantCount(products[..|products| - 1]) + |VariantsOf(products[|products| - 1])|
  }

  /** Flattening page by page is flattening the whole: the items keep the order of their products. */
  lemma {:induction false} FlattenConcat(a: seq<Product>, b: seq<Product>)
    decreases |b|
    ensures Flatten(a + b) == Flatten(a) + Flatten(b)
  {
    if b != [] {
      var init := b[..|b| - 1];
      FlattenConcat(a, init);
      assert (a + b)[..|a + b| - 1] == a + init;
      assert (a + b)[|a + b| - 1] == b[|b| - 1];
      calc {
        Flatten(a + b);
        Flatten(a + init) + ProductItems(b[|b| - 1]);
        Flatten(a) + Flatten(init) + ProductItems(b[|b| - 1]);
        Flatten(a) + (Flatten(init) + ProductItems(b[|b| - 1]));
      }
    } else {
      assert a + b == a;
    }
  }

  /** There is one item per variant. */
  lemma {:induction false} FlattenLength(products: seq<Product>)
    ensures |Flatten(products)| == VariantCount(products)
  {
    if products != [] {
      FlattenLength(products[..|products| - 1]);
    }
  }

  /** `products.forEach(p => p.variants.edges.forEach(v => allInventoryItems.push(...)))`. */
  method FlattenProducts(products: seq<Product>) returns (items: seq<InventoryItem>)
    ensures items == Flatten(products)
  {
    items := [];
    for i := 0 to |products|
      invariant items == Flatten(products[..i])
    {
      var variants := VariantsOf(products[i]);
      ghost var before := items;
      for j := 0 to |variants|
        invariant items == before + ProductItems(products[i])[..j]
      {
        assert ProductItems(products[i])[..j + 1] == ProductItems(products[i])[..j] + [ItemOf(products[i], variants[j])];
        items := items + [ItemOf(products[i], variants[j])];
      }
      assert ProductItems(products[i])[..|variants|] == ProductItems(products[i]);
      assert products[..i + 1][..i] == products[..i];
    }
    assert products[..|products|] == products;
  }

  function FlattenOf(r: Result<seq<Product>>): Result<seq<InventoryItem>>
  {
    match r
    case Success(products) => Success(Flatten(products))
    case Failure(e) => Failure(e)
  }

  /** The pagination loop of `fetchInventoryData`, which flattens each page as it arrives. */
  method FetchInventoryItems(admin: AdminClient<Product>, query: Option<string>) returns (r: Result<seq<InventoryItem>>)
    modifies admin
    ensures var f := FetchPages(admin.answers, query, old(admin.calls));
      r == FlattenOf(NodesOf(f.result)) && admin.calls == f.next && admin.sleeps == old(admin.sleeps) + f.sleeps
  {
    var all: seq<InventoryItem> := [];
    var hasNextPage := true;
    var cursor: Option<string> := None;
    var pageCount := 0;
    ghost var pages: seq<Page<Product>> := [];
    ghost var slept: seq<nat> := [];
    ghost var target := FetchPages(admin.answers, query, admin.calls);
    while hasNextPage && pageCount < MaxPages
      invariant pageCount == |pages| <= MaxPages
      invariant all == Flatten(Nodes(pages))
      invariant admin.sleeps == old(admin.sleeps) + slept
      invariant Paginate(admin.answers, query, admin.calls, hasNextPage, cursor, pages, slept) == target
      decreases MaxPages - pageCount
    {
      ghost var call := admin.calls;
      ghost var before := admin.sleeps;
      ghost var run := Retry(admin.answers, Request(query, cursor), call, 0);
      var result := ExecuteGraphQLWithRetry(admin, Request(query, cursor), 0);
      if result.Failure? {
        PageFailed(admin.answers, query, call, cursor, pages, slept, old(admin.sleeps), before, admin.sleeps);
        return Failure(result.error);
      }
      var page := result.value;
      PageRead(admin.answers, query, call, cursor, pages, slept, old(admin.sleeps), before, admin.sleeps);
      var items := FlattenProducts(page.nodes);
      assert (pages + [page])[..|pages|] == pages;
      FlattenConcat(Nodes(pages), page.nodes);
      all := all + items;
      hasNextPage := page.hasNextPage;
      cursor := page.endCursor;
      pageCount := pageCount + 1;
      pages := pages + [page];
      slept := slept + run.sleeps;
    }
    return Success(all);
  }

  /** Whether the stock-level filter keeps an item; a missing quantity is never in or out of stock. */
  predicate Keeps(stockLevel: Option<string>, item: InventoryItem)
  {
    var q := item.inventoryQuantity;
    if stockLevel == Some("IN_STOCK") then q.Some? && q.value > 0
    else if stockLevel == Some("LOW_STOCK") then q.Some? && 0 < q.value < 10
    else if stockLevel == Some("OUT_OF_STOCK") then q == Some(0)
    else true
  }

  /** The stock-level filter: the items it keeps, in order. */
  function StockFilter(stockLevel: Option<string>, items: seq<InventoryItem>): seq<InventoryItem>
  {
    if items == [] then []
    else StockFilter(stockLevel, items[..|items| - 1]) + (if Keeps(stockLevel, items[|items| - 1]) then [items[|items| - 1]] else [])
  }

  /** The filter keeps exactly the items of the requested stock level, and no more items than there were. */
  lemma {:induction false} StockFilterMembers(stockLevel: Option<string>, items: seq<InventoryItem>)
    ensures |StockFilter(stockLevel, items)| <= |items|
    ensures forall x :: x in StockFilter(stockLevel, items) <==> x in items && Keeps(stockLevel, x)
  {
    if items != [] {
      var init := items[..|items| - 1];
      StockFilterMembers(stockLevel, init);
      assert items == init + [items[|items| - 1]];
    }
  }

  /** Filtering a concatenation filters each part: the kept items stay in their order. */
  lemma {:induction false} StockFilterConcat(stockLevel: Option<string>, a: seq<InventoryItem>, b: seq<InventoryItem>)
    decreases |b|
    ensures StockFilter(stockLevel, a + b) == StockFilter(stockLevel, a) + StockFilter(stockLevel, b)
  {
    if b != [] {
      var init := b[..|b| - 1];
      var last := b[|b| - 1];
      var kept := if Keeps(stockLevel, last) then [last] else [];
      StockFilterConcat(stockLevel, a, init);
      assert (a + b)[..|a + b| - 1] == a + init;
      assert (a + b)[|a + b| - 1] == last;
      calc {
        StockFilter(stockLevel, a + b);
        StockFilter(stockLevel, a + init) + kept;
        StockFilter(stockLevel, a) + StockFilter(stockLevel, init) + kept;
        StockFilter(stockLevel, a) + (StockFilter(stockLevel, init) + kept);
      }
    } else {
      assert a + b == a;
    }
  }

  /** A stock level other than IN_STOCK, LOW_STOCK and OUT_OF_STOCK, or none, keeps every item. */
  lemma {:induction false} StockFilterKeepsAll(stockLevel: Option<string>, items: seq<InventoryItem>)
    requires stockLevel != Some("IN_STOCK") && stockLevel != Some("LOW_STOCK") && stockLevel != Some("OUT_OF_STOCK")
    ensures StockFilter(stockLevel, items) == items
  {
    if items != [] {
      StockFilterKeepsAll(stockLevel, items[..|items| - 1]);
    }
  }

  // ------------------------------------------------------------ the fetches

  /** The filters a fetch reads; a missing list is empty. */
  datatype Filters = Filters(
    dateRange: Option<string>,
    customStartDate: Option<int>,
    customEndDate: Option<int>,
    salesChannel: seq<string>,
    orderStatus: seq<string>,
    fulfillmentStatus: seq<string>,
    financialStatus: seq<string>,
    productType: seq<string>,
    vendor: seq<string>,
    customerType: Option<string>,
    stockLevel: Option<string>)

  /** `calculateDateRange(filters.dateRange || "LAST_30_DAYS", ...)`. */
  function RangeOf(filters: Filters, now: DateTime): Result<DateRange>
    requires now.Valid()
  {
    CalculateDateRange(OrElse(filters.dateRange, "LAST_30_DAYS"), filters.customStartDate, filters.customEndDate, now)
  }

  /** The `query` variable of a sales fetch, or the error the date range throws. */
  function SalesQueryOf(filters: Filters, now: DateTime, iso: int -> string): Result<Option<string>>
    requires now.Valid()
  {
    match RangeOf(filters, now)
    case Failure(e) => Failure(e)
    case Success(range) => Success(Some(SalesQuery(range, iso, filters.salesChannel)))
  }

  function OrdersQueryOf(filters: Filters, now: DateTime, iso: int -> string): Result<Option<string>>
    requires now.Valid()
  {
    match RangeOf(filters, now)
    case Failure(e) => Failure(e)
    case Success(range) =>
      Success(Some(OrdersQuery(range, iso, filters.orderStatus, filters.fulfillmentStatus, filters.financialStatus)))
  }

  /** The products fetch computes the date range, which it does not use, and can fail on it. */
  function ProductsQueryOf(filters: Filters, now: DateTime): Result<Option<string>>
    requires now.Valid()
  {
    match RangeOf(filters, now)
    case Failure(e) => Failure(e)
    case Success(_) => Success(QueryVariable(CatalogQuery(filters.productType, filters.vendor)))
  }

  function CustomersQueryOf(filters: Filters, now: DateTime, iso: int -> string): Result<Option<string>>
    requires now.Valid()
  {
    match RangeOf(filters, now)
    case Failure(e) => Failure(e)
    case Success(range) => Success(QueryVariable(CustomersQuery(filters.customerType, range, iso)))
  }

  /** The fetch a query leads to: none when building the query threw. */
  function Fetch<T>(answers: (nat, Request) -> Answer<T>, query: Result<Option<string>>, call: nat): Fetched<T>
  {
    match query
    case Failure(e) => Fetched(Failure(e), call, [])
    case Success(q) => FetchPages(answers, q, call)
  }

  /**
   * Only a custom range without both bounds makes a dated fetch fail
   * before its first call; every other filter set leads to the API.
   */
  lemma QueryFailsOnlyForIncompleteCustomRange(filters: Filters, now: DateTime, iso: int -> string)
    requires now.Valid()
    ensures var incomplete := OrElse(filters.dateRange, "LAST_30_DAYS") == "CUSTOM" &&
                              (filters.customStartDate.None? || filters.customEndDate.None?);
      && (SalesQueryOf(filters, now, iso).Failure? <==> incomplete)
      && (OrdersQueryOf(filters, now, iso).Failure? <==> incomplete)
      && (ProductsQueryOf(filters, now).Failure? <==> incomplete)
      && (CustomersQueryOf(filters, now, iso).Failure? <==> incomplete)
      && (incomplete ==> SalesQueryOf(filters, now, iso) == Failure("Custom date range requires startDate and endDate"))
  {
  }

  /** A fetch whose query was built: the loop over the pages. */
  method FetchRecords<T>(admin: AdminClient<T>, query: Result<Option<string>>) returns (r: Result<seq<T>>)
    modifies admin
    ensures var f := Fetch(admin.answers, query, old(admin.calls));
      r == NodesOf(f.result) && admin.calls == f.next && admin.sleeps == old(admin.sleeps) + f.sleeps
  {
    if query.Failure? {
      return Failure(query.error);
    }
    r := FetchAll(admin, query.value);
  }

  // ------------------------------------------------------------ dispatch

  /** The records of a fetch, by kind. */
  datatype Records =
    | OrderRecords(orders: seq<Order>)
    | ProductRecords(products: seq<Product>)
    | CustomerRecords(customers: seq<Customer>)
    | InventoryRecords(items: seq<InventoryItem>)
    | DiscountRecords(discounts: seq<Discount>)
    | NoRecords

  function Count(d: Records): nat
  {
    match d
    case OrderRecords(xs) => |xs|
    case ProductRecords(xs) => |xs|
    case CustomerRecords(xs) => |xs|
    case InventoryRecords(xs) => |xs|
    case DiscountRecords(xs) => |xs|
    case NoRecords => 0
  }

  datatype FetchDataResult = FetchDataResult(success: bool, data: Records, recordCount: nat, error: Option<string>)

  /** The result object of a fetch that returned `data`, or of one that threw. */
  function Outcome(r: Result<Records>): (o: FetchDataResult)
    ensures o.recordCount == Count(o.data)
    ensures o.success <==> r.Success?
    ensures o.success ==> o.data == r.value && o.error.None?
    ensures !o.success ==> o.data == NoRecords && o.recordCount == 0 && o.error == Some(r.error)
  {
    match r
    case Success(d) => FetchDataResult(true, d, Count(d), None)
    case Failure(e) => FetchDataResult(false, NoRecords, 0, Some(e))
  }

  function MapRecords<T>(r: Result<seq<T>>, make: seq<T> -> Records): Result<Records>
  {
    match r
    case Success(xs) => Success(make(xs))
    case Failure(e) => Failure(e)
  }

  const TrafficUnavailable: string :=
    "Traffic data is not available via Shopify GraphQL API. Consider integrating with Google Analytics or using Shopify Analytics API."

  /** The report types with a fetch; FINANCE_SUMMARY and CUSTOM have none. */
  predicate HasFetch(reportType: string)
  {
    reportType in {"SALES", "ORDERS", "PRODUCTS", "CUSTOMERS", "INVENTORY", "TRAFFIC", "DISCOUNTS"}
  }

  /**
   * `fetchShopifyData`: the fetch of the report type, with its outcome as
   * the result object. TRAFFIC has no source and fails with its message;
   * a type without a fetch fails as unknown.
   */
  method FetchShopifyData(reportType: string, filters: Filters, now: DateTime, iso: int -> string,
                          orderApi: AdminClient<Order>, productApi: AdminClient<Product>,
                          customerApi: AdminClient<Customer>, discountApi: AdminClient<Discount>)
    returns (result: FetchDataResult)
    requires now.Valid()
    modifies orderApi, productApi, customerApi, discountApi
    ensures result.recordCount == Count(result.data)
    ensures !result.success ==> result.data == NoRecords && result.recordCount == 0 && result.error.Some?
    ensures reportType == "TRAFFIC" ==> result == Outcome(Failure(TrafficUnavailable))
    ensures !HasFetch(reportType) ==> result == Outcome(Failure("Unknown report type: " + reportType))
    ensures !HasFetch(reportType) || reportType == "TRAFFIC" ==>
              unchanged(orderApi, productApi, customerApi, discountApi)
    ensures reportType in {"SALES", "ORDERS"} ==> unchanged(productApi, customerApi, discountApi)
    ensures reportType in {"PRODUCTS", "INVENTORY"} ==> unchanged(orderApi, customerApi, discountApi)
    ensures reportType == "CUSTOMERS" ==> unchanged(orderApi, productApi, discountApi)
    ensures reportType == "DISCOUNTS" ==> unchanged(orderApi, productApi, customerApi)
    ensures reportType == "SALES" ==>
              var f := Fetch(orderApi.answers, SalesQueryOf(filters, now, iso), old(orderApi.calls));
              result == Outcome(MapRecords(NodesOf(f.result), xs => OrderRecords(xs)))
              && orderApi.calls == f.next && orderApi.sleeps == old(orderApi.sleeps) + f.sleeps
    ensures reportType == "ORDERS" ==>
              var f := Fetch(orderApi.answers, OrdersQueryOf(filters, now, iso), old(orderApi.calls));
              result == Outcome(MapRecords(NodesOf(f.result), xs => OrderRecords(xs)))
              && orderApi.calls == f.next && orderApi.sleeps == old(orderApi.sleeps) + f.sleeps
    ensures reportType == "PRODUCTS" ==>
              var f := Fetch(productApi.answers, ProductsQueryOf(filters, now), old(productApi.calls));
              result == Outcome(MapRecords(NodesOf(f.result), xs => ProductRecords(xs)))
              && productApi.calls == f.next && productApi.sleeps == old(productApi.sleeps) + f.sleeps
    ensures reportType == "CUSTOMERS" ==>
              var f := Fetch(customerApi.answers, CustomersQueryOf(filters, now, iso), old(customerApi.calls));
              result == Outcome(MapRecords(NodesOf(f.result), xs => CustomerRecords(xs)))
              && customerApi.calls == f.next && customerApi.sleeps == old(customerApi.sleeps) + f.sleeps
    ensures reportType == "INVENTORY" ==>
              var f := FetchPages(productApi.answers, QueryVariable(CatalogQuery(filters.productType, filters.vendor)),
                                  old(productApi.calls));
              result == Outcome(MapRecords(FlattenOf(NodesOf(f.result)), xs => InventoryRecords(StockFilter(filters.stockLevel, xs))))
              && productApi.calls == f.next && productApi.sleeps == old(productApi.sleeps) + f.sleeps
    ensures reportType == "DISCOUNTS" ==>
              var f := FetchPages(discountApi.answers, None, old(discountApi.calls));
              result == Outcome(MapRecords(NodesOf(f.result), xs => DiscountRecords(xs)))
              && discountApi.calls == f.next && discountApi.sleeps == old(discountApi.sleeps) + f.sleeps
  {
    if reportType == "SALES" {
      var r := FetchRecords(orderApi, SalesQueryOf(filters, now, iso));
      result := Outcome(MapRecords(r, xs => OrderRecords(xs)));
    } else if reportType == "ORDERS" {
      var r := FetchRecords(orderApi, OrdersQueryOf(filters, now, iso));
      result := Outcome(MapRecords(r, xs => OrderRecords(xs)));
    } else if reportType == "PRODUCTS" {
      var r := FetchRecords(productApi, ProductsQueryOf(filters, now));
      result := Outcome(MapRecords(r, xs => ProductRecords(xs)));
    } else if reportType == "CUSTOMERS" {
      var r := FetchRecords(customerApi, CustomersQueryOf(filters, now, iso));
      result := Outcome(MapRecords(r, xs => CustomerRecords(xs)));
    } else if reportType == "INVENTORY" {
      var r := FetchInventoryItems(productApi, QueryVariable(CatalogQuery(filters.productType, filters.vendor)));
      result := Outcome(MapRecords(r, xs => InventoryRecords(StockFilter(filters.stockLevel, xs))));
    } else if reportType == "TRAFFIC" {
      result := Outcome(Failure(TrafficUnavailable));
    } else if reportType == "DISCOUNTS" {
      var r := FetchAll(discountApi, None);
      result := Outcome(MapRecords(r, xs => DiscountRecords(xs)));
    } else {
      result := Outcome(Failure("Unknown report type: " + reportType));
    }
  }
}
