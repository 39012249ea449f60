/**
  * The products list hook (`useProducts`): the full product list is fetched once and then
  * searched by name, bounded by price and cut into pages on the client; the hook keeps the
  * page, the page size and the filter as state.
  */
module ProductsHook {
  import opened Wrappers
  import opened Text
  import opened Lists

  /** A product as the back end returns it. */
  datatype Product = Product(
    id: string,
    name: string,
    price: real,
    image: string,
    description: string,
    createdAt: string,
    updatedAt: string)

  /** `{ search?, minPrice?, maxPrice? }`. */
  datatype ProductFilter = ProductFilter(search: Option<string>, minPrice: Option<real>, maxPrice: Option<real>)

  const DefaultFilter := ProductFilter(None, None, None)
  const DefaultPage := 1
  const DefaultPageSize := 10

  /** `filter.search` when it is a non-empty string. */
  function ActiveSearch(filter: ProductFilter): (r: Option<string>)
    ensures r.Some? ==> r.value != "" && filter.search == r
    ensures r.None? ==> filter.search in {None, Some("")}
  {
    if filter.search.Some? && filter.search.value != "" then filter.search else None
  }

  predicate SearchOk(filter: ProductFilter, p: Product) {
    match ActiveSearch(filter)
    case Some(search) => Contains(ToLower(p.name), ToLower(search))
    case None => true
  }

  /** A defined lower bound is inclusive, whatever its value (0 included). */
  predicate MinOk(filter: ProductFilter, p: Product) {
    match filter.minPrice
    case Some(min) => p.price >= min
    case None => true
  }

  /** A defined upper bound is inclusive, whatever its value (0 included). */
  predicate MaxOk(filter: ProductFilter, p: Product) {
    match filter.maxPrice
    case Some(max) => p.price <= max
    case None => true
  }

  /** Whether `p` passes every condition the filter puts in effect. */
  predicate Keeps(filter: ProductFilter, p: Product) {
    SearchOk(filter, p) && MinOk(filter, p) && MaxOk(filter, p)
  }

  function SearchStep(items: seq<Product>, filter: ProductFilter): (r: seq<Product>)
    ensures r == Filter(items, p => SearchOk(filter, p))
  {
    match ActiveSearch(filter)
    case Some(search) =>
      FilterExt(items, (p: Product) => Contains(ToLower(p.name), ToLower(search)), p => SearchOk(filter, p));
      Filter(items, (p: Product) => Contains(ToLower(p.name), ToLower(search)))
    case None =>
      FilterAll(items, p => SearchOk(filter, p));
      items
  }

  function MinStep(items: seq<Product>, filter: ProductFilter): (r: seq<Product>)
    ensures r == Filter(items, p => MinOk(filter, p))
  {
    match filter.minPrice
    case Some(min) =>
      FilterExt(items, (p: Product) => p.price >= min, p => MinOk(filter, p));
      Filter(items, (p: Product) => p.price >= min)
    case None =>
      FilterAll(items, p => MinOk(filter, p));
      items
  }

  function MaxStep(items: seq<Product>, filter: ProductFilter): (r: seq<Product>)
    ensures r == Filter(items, p => MaxOk(filter, p))
  {
    match filter.maxPrice
    case Some(max) =>
      FilterExt(items, (p: Product) => p.price <= max, p => MaxOk(filter, p));
      Filter(items, (p: Product) => p.price <= max)
    case None =>
      FilterAll(items, p => MaxOk(filter, p));
      items
  }

  /**
    * The `filteredProducts` memo: search on the name, then the lower bound, then the upper
    * bound. The result is the order-preserving subsequence of `products` that passes all three.
    */
  function FilteredProducts(products: seq<Product>, filter: ProductFilter): (r: seq<Product>)
    ensures r == Filter(products, p => Keeps(filter, p))
    ensures Subsequence(r, products)
    ensures forall i :: 0 <= i < |r| ==> Keeps(filter, r[i])
    ensures forall i :: 0 <= i < |products| && Keeps(filter, products[i]) ==> products[i] in r
  {
    var search: Product -> bool := p => SearchOk(filter, p);
    var min: Product -> bool := p => MinOk(filter, p);
    var max: Product -> bool := p => MaxOk(filter, p);
    var both: Product -> bool := p => SearchOk(filter, p) && MinOk(filter, p);
    var r := MaxStep(MinStep(SearchStep(products, filter), filter), filter);
    FilterFusion(products, search, min, both);
    FilterFusion(products, both, max, p => Keeps(filter, p));
    FilterSubsequence(products, p => Keeps(filter, p));
    assert forall i :: 0 <= i < |products| && Keeps(filter, products[i]) ==> products[i] in r by {
      forall i | 0 <= i < |products| && Keeps(filter, products[i]) ensures products[i] in r {
        FilterComplete(products, p => Keeps(filter, p), i);
      }
    }
    r
  }

  /** What the hook returns besides its state. */
  datatype ProductsView = ProductsView(products: seq<Product>, total: nat, totalPages: nat)

  /**
    * The projection: the fetched list (empty until it arrives) is filtered, counted, and
    * `filtered.slice((page - 1) * pageSize, page * pageSize)` is shown. At most `pageSize`
    * products are shown, each passing every active condition, in list order; `total` counts the
    * whole filtered list and `totalPages` is `ceil(total / pageSize)`.
    */
  function Project(fetched: Option<seq<Product>>, filter: ProductFilter, page: int, pageSize: int): (v: ProductsView)
    requires pageSize > 0
    ensures var products := if fetched.Some? then fetched.value else [];
      v.total == |FilteredProducts(products, filter)| &&
      |v.products| <= pageSize &&
      Subsequence(v.products, products) &&
      (forall i :: 0 <= i < |v.products| ==> Keeps(filter, v.products[i])) &&
      (page >= 1 ==>
        var filtered, start := FilteredProducts(products, filter), PageStart(page, pageSize);
        |v.products| == (if start >= |filtered| then 0 else if start + pageSize <= |filtered| then pageSize
                         else |filtered| - start) &&
        forall k :: 0 <= k < |v.products| ==> v.products[k] == filtered[start + k])
    ensures v.totalPages == CeilDiv(v.total, pageSize)
    ensures v.totalPages == 0 <==> v.total == 0
    ensures fetched.None? ==> v == ProductsView([], 0, 0)
  {
    var products := if fetched.Some? then fetched.value else [];
    var filtered := FilteredProducts(products, filter);
    var total := |filtered|;
    var shown := JsSlice(filtered, (page - 1) * pageSize, page * pageSize);
    assert shown == PageWindow(filtered, page, pageSize) by {
      PageEnd(page, pageSize);
    }
    SubsequenceTrans(shown, filtered, products);
    assert forall i :: 0 <= i < |shown| ==> Keeps(filter, shown[i]) by {
      forall i | 0 <= i < |shown| ensures Keeps(filter, shown[i]) {
        SubsequenceMember(shown, filtered, i);
      }
    }
    ProductsView(shown, total, CeilDiv(total, pageSize))
  }

  /** The search looks at the name only: products that agree on name and price are kept or dropped together. */
  lemma SearchIgnoresOtherFields(filter: ProductFilter, p: Product, q: Product)
    requires p.name == q.name && p.price == q.price
    ensures Keeps(filter, p) == Keeps(filter, q)
  {
  }

  /** The search condition reads the name alone: the price and every other field play no part in it. */
  lemma SearchNameOnly(filter: ProductFilter, p: Product, q: Product)
    requires p.name == q.name
    ensures SearchOk(filter, p) == SearchOk(filter, q)
  {
  }

  /** A price equal to a defined bound passes it, and a bound of 0 is applied like any other. */
  lemma BoundsInclusive(p: Product, search: Option<string>)
    ensures Keeps(ProductFilter(None, Some(p.price), Some(p.price)), p)
    ensures p.price > 0.0 ==> !Keeps(ProductFilter(search, None, Some(0.0)), p)
    ensures p.price < 0.0 ==> !Keeps(ProductFilter(search, Some(0.0), None), p)
  {
  }

  /**
    * The hook's state: `page`, `pageSize` and `filter` (React `useState` variables). In this
    * hook only `setSearch` and `resetFilter` reset the page; the raw setters do not.
    */
  class ProductsHookState {
    var page: int
    var pageSize: int
    var filter: ProductFilter

    /** Mounting the hook: options default to `{}`, page 1 and page size 10. */
    constructor(initialFilter: Option<ProductFilter>, initialPage: Option<int>, initialPageSize: Option<int>)
      ensures filter == (if initialFilter.Some? then initialFilter.value else DefaultFilter)
      ensures page == (if initialPage.Some? then initialPage.value else DefaultPage)
      ensures pageSize == (if initialPageSize.Some? then initialPageSize.value else DefaultPageSize)
    {
      filter := if initialFilter.Some? then initialFilter.value else DefaultFilter;
      page := if initialPage.Some? then initialPage.value else DefaultPage;
      pageSize := if initialPageSize.Some? then initialPageSize.value else DefaultPageSize;
    }

    /** What the hook shows for the list fetched so far. */
    function View(fetched: Option<seq<Product>>): (v: ProductsView)
      reads this
      requires pageSize > 0
      ensures |v.products| <= pageSize
      ensures forall i :: 0 <= i < |v.products| ==> Keeps(filter, v.products[i])
    {
      Project(fetched, filter, page, pageSize)
    }

    method SetPage(n: int)
      modifies this
      ensures page == n && pageSize == old(pageSize) && filter == old(filter)
    {
      page := n;
    }

    method SetPageSize(n: int)
      modifies this
      ensures pageSize == n && page == old(page) && filter == old(filter)
    {
      pageSize := n;
    }

    /** The raw setter: the page is left where it was. */
    method SetFilter(f: ProductFilter)
      modifies this
      ensures filter == f && page == old(page) && pageSize == old(pageSize)
    {
      filter := f;
    }

    /** `setSearch`: an empty text means no search; the price bounds are kept; back to page 1. */
    method SetSearch(search: string)
      modifies this
      ensures filter.search == (if search == "" then None else Some(search))
      ensures filter.minPrice == old(filter.minPrice) && filter.maxPrice == old(filter.maxPrice)
      ensures page == 1 && pageSize == old(pageSize)
    {
      filter := filter.(search := if search == "" then None else Some(search));
      page := 1;
    }

    /** `resetFilter`: the empty filter and page 1; the page size is kept. */
    method ResetFilter()
      modifies this
      ensures filter == DefaultFilter && page == DefaultPage
      ensures pageSize == old(pageSize)
    {
      filter := DefaultFilter;
      page := DefaultPage;
    }
  }
}
