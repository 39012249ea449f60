/**
  * The mock products endpoint (`getProducts`): a fixed list of eleven products, searched by
  * name or code, filtered by stock status, and cut into pages, with defaults for a missing
  * page number or page size.
  */
module ProductsApi {
  import opened Wrappers
  import opened Text
  import opened Lists

  datatype Category = Category(id: string, name: string, color: string)

  /** A product as the mock data writes it; `status` is `'in-stock'` or `'out-of-stock'`. */
  datatype Product = Product(
    id: string,
    code: string,
    name: string,
    image: string,
    category: Category,
    price: int,
    stock: int,
    status: string)

  /** The request: every field may be missing. */
  datatype ProductFilters = ProductFilters(
    search: Option<string>, status: Option<string>, page: Option<int>, pageSize: Option<int>)

  datatype ProductsResponse = ProductsResponse(data: seq<Product>, total: nat, page: int, pageSize: int)

  const InStock := "in-stock"
  const OutOfStock := "out-of-stock"
  /** The status value that means "no status filter". */
  const AllStatuses := "all"

  const ImageA := "https://images.unsplash.com/photo-1582722872445-44dc5f7e3c8f?w=100&h=100&fit=crop"
  const ImageB := "https://images.unsplash.com/photo-1518569656558-1f25e69d93d7?w=100&h=100&fit=crop"

  /** The eleven products the endpoint serves. */
  const MockProducts: seq<Product> := [
    Product("1", "HS102", "Hộp trứng gà PinkyEgg 6 quả", ImageA, Category("1", "Hộp 6", "#3B82F6"), 25000, 0, OutOfStock),
    Product("2", "MGV01", "Giỏ trứng gà PinkyEgg 30 quả", ImageB, Category("2", "Hộp 30", "#3B82F6"), 125000, 0, OutOfStock),
    Product("3", "HS102", "Pinky Egg Organic hộp 6", ImageB, Category("1", "Hộp 6", "#3B82F6"), 35000, 95, InStock),
    Product("4", "HS850", "Hộp trứng gà PinkyEgg 12 quả", ImageA, Category("3", "Hộp 12", "#EC4899"), 45000, 0, OutOfStock),
    Product("5", "HS102", "Khay trứng gà 30 quả", ImageB, Category("2", "Hộp 30", "#3B82F6"), 95000, 593, InStock),
    Product("6", "HS102", "Hộp trứng gà PinkyEgg 150 quả", ImageB, Category("4", "Hộp 150", "#3B82F6"), 112000, 0, OutOfStock),
    Product("7", "HS102", "Hộp trứng gà PinkyEgg 16 quả", ImageA, Category("1", "Hộp 6", "#3B82F6"), 92000, 138, InStock),
    Product("8", "HS102", "Rổ trứng gà 12 quả", ImageB, Category("3", "Hộp 12", "#EC4899"), 225000, 0, OutOfStock),
    Product("9", "HS102", "Khay trứng gà PinkyEgg 30 quả", ImageB, Category("5", "Khay 30", "#F97316"), 150000, 482, InStock),
    Product("10", "HS102", "Hộp trứng gà PinkyEgg 6 quả", ImageA, Category("1", "Hộp 6", "#3B82F6"), 25000, 0, OutOfStock),
    Product("11", "#01923", "Hộp trứng gà PinkyEgg 12 quả", ImageB, Category("3", "Hộp 12", "#EC4899"), 65000, 100, InStock)
  ]

  /**
    * The seed: eleven products with distinct ids, each out of stock exactly when its stock is 0,
    * and with a status that is one of the two the endpoint knows.
    */
  lemma MockProductsShape()
    ensures |MockProducts| == 11
    ensures forall i, j :: 0 <= i < j < |MockProducts| ==> MockProducts[i].id != MockProducts[j].id
    ensures forall i :: 0 <= i < |MockProducts| ==>
      (MockProducts[i].status == OutOfStock <==> MockProducts[i].stock == 0) &&
      MockProducts[i].status in {InStock, OutOfStock}
  {
  }

  /** The search text in effect: `filters.search` when it is a non-empty string. */
  function ActiveSearch(filters: ProductFilters): (r: Option<string>)
    ensures r.Some? ==> r.value != "" && filters.search == r
    ensures r.None? ==> filters.search in {None, Some("")}
  {
    if filters.search.Some? && filters.search.value != "" then filters.search else None
  }

  /** The status in effect: `filters.status` when it is non-empty and not `'all'`. */
  function ActiveStatus(filters: ProductFilters): (r: Option<string>)
    ensures r.Some? ==> r.value != "" && r.value != AllStatuses && filters.status == r
    ensures r.None? ==> filters.status in {None, Some(""), Some(AllStatuses)}
  {
    if filters.status.Some? && filters.status.value != "" && filters.status.value != AllStatuses then filters.status
    else None
  }

  /** Case-insensitive match of the search text against the name or the code. */
  predicate MatchesSearch(p: Product, search: string) {
    Contains(ToLower(p.name), ToLower(search)) || Contains(ToLower(p.code), ToLower(search))
  }

  predicate SearchOk(filters: ProductFilters, p: Product) {
    match ActiveSearch(filters)
    case Some(search) => MatchesSearch(p, search)
    case None => true
  }

  predicate StatusOk(filters: ProductFilters, p: Product) {
    match ActiveStatus(filters)
    case Some(status) => p.status == status
    case None => true
  }

  /** Whether `p` passes every condition the request puts in effect. */
  predicate Keeps(filters: ProductFilters, p: Product) {
    SearchOk(filters, p) && StatusOk(filters, p)
  }

  /** The search step of `getProducts`. */
  function SearchStep(items: seq<Product>, filters: ProductFilters): (r: seq<Product>)
    ensures r == Filter(items, p => SearchOk(filters, p))
  {
    match ActiveSearch(filters)
    case Some(search) =>
      FilterExt(items, p => MatchesSearch(p, search), p => SearchOk(filters, p));
      Filter(items, p => MatchesSearch(p, search))
    case None =>
      FilterAll(items, p => SearchOk(filters, p));
      items
  }

  /** The status step of `getProducts`. */
  function StatusStep(items: seq<Product>, filters: ProductFilters): (r: seq<Product>)
    ensures r == Filter(items, p => StatusOk(filters, p))
  {
    match ActiveStatus(filters)
    case Some(status) =>
      FilterExt(items, (p: Product) => p.status == status, p => StatusOk(filters, p));
      Filter(items, (p: Product) => p.status == status)
    case None =>
      FilterAll(items, p => StatusOk(filters, p));
      items
  }

  /**
    * The filtering of `getProducts`: search, then status. The result is the order-preserving
    * subsequence of `items` that passes both conditions, no more and no less.
    */
  function ApplyFilters(items: seq<Product>, filters: ProductFilters): (r: seq<Product>)
    ensures r == Filter(items, p => Keeps(filters, p))
    ensures Subsequence(r, items)
    ensures forall i :: 0 <= i < |r| ==> Keeps(filters, r[i])
    ensures forall i :: 0 <= i < |items| && Keeps(filters, items[i]) ==> items[i] in r
  {
    var search: Product -> bool := p => SearchOk(filters, p);
    var status: Product -> bool := p => StatusOk(filters, p);
    var r := StatusStep(SearchStep(items, filters), filters);
    FilterFusion(items, search, status, p => Keeps(filters, p));
    FilterSubsequence(items, p => Keeps(filters, p));
    assert forall i :: 0 <= i < |items| && Keeps(filters, items[i]) ==> items[i] in r by {
      forall i | 0 <= i < |items| && Keeps(filters, items[i]) ensures items[i] in r {
        FilterComplete(items, p => Keeps(filters, p), i);
      }
    }
    r
  }

  /** `filters.page || 1`: a missing or zero page number means page 1. */
  function EffectivePage(filters: ProductFilters): (page: int)
    ensures page != 0
    ensures filters.page.Some? && filters.page.value != 0 ==> page == filters.page.value
    ensures filters.page.None? || filters.page.value == 0 ==> page == 1
  {
    if filters.page.Some? && filters.page.value != 0 then filters.page.value else 1
  }

  /** `filters.pageSize || 10`: a missing or zero page size means 10. */
  function EffectivePageSize(filters: ProductFilters): (size: int)
    ensures size != 0
    ensures filters.pageSize.Some? && filters.pageSize.value != 0 ==> size == filters.pageSize.value
    ensures filters.pageSize.None? || filters.pageSize.value == 0 ==> size == 10
  {
    if filters.pageSize.Some? && filters.pageSize.value != 0 then filters.pageSize.value else 10
  }

  /**
    * `getProducts(filters)` without its delay, over the product list `seed`. `total` is the
    * filtered count before the page is cut; the page is taken from the filtered list in order and
    * holds at most `pageSize` products, each passing every active condition; the defaulted
    * page number and page size are returned.
    */
  function GetProducts(seed: seq<Product>, filters: ProductFilters): (r: ProductsResponse)
    ensures r.total == |ApplyFilters(seed, filters)|
    ensures r.page == EffectivePage(filters) && r.pageSize == EffectivePageSize(filters)
    ensures r.pageSize >= 0 ==> |r.data| <= r.pageSize
    ensures Subsequence(r.data, seed)
    ensures forall i :: 0 <= i < |r.data| ==> Keeps(filters, r.data[i])
    ensures r.page >= 1 && r.pageSize >= 0 ==>
      var filtered, start := ApplyFilters(seed, filters), PageStart(r.page, r.pageSize);
      |r.data| == (if start >= |filtered| then 0 else if start + r.pageSize <= |filtered| then r.pageSize
                   else |filtered| - start) &&
      forall k :: 0 <= k < |r.data| ==> r.data[k] == filtered[start + k]
    ensures r.pageSize > 0 && r.page > CeilDiv(r.total, r.pageSize) ==> r.data == []
  {
    var filtered := ApplyFilters(seed, filters);
    var page, pageSize := EffectivePage(filters), EffectivePageSize(filters);
    var data := PageWindow(filtered, page, pageSize);
    PageOfFiltered(seed, filters, page, pageSize);
    ProductsResponse(data, |filtered|, page, pageSize)
  }

  /** Any page of the filtered list comes from the seed in order, passes the filter, and is empty past the last page. */
  lemma PageOfFiltered(seed: seq<Product>, filters: ProductFilters, page: int, pageSize: int)
    ensures var filtered := ApplyFilters(seed, filters);
      var data := PageWindow(filtered, page, pageSize);
      Subsequence(data, seed) &&
      (forall i :: 0 <= i < |data| ==> Keeps(filters, data[i])) &&
      (pageSize > 0 && page > CeilDiv(|filtered|, pageSize) ==> data == [])
  {
    var filtered := ApplyFilters(seed, filters);
    var data := PageWindow(filtered, page, pageSize);
    SubsequenceTrans(data, filtered, seed);
    forall i | 0 <= i < |data| ensures Keeps(filters, data[i]) {
      SubsequenceMember(data, filtered, i);
    }
    if pageSize > 0 && page > CeilDiv(|filtered|, pageSize) {
      PastLastPageEmpty(filtered, page, pageSize);
    }
  }

  /** A request with no search text and no status (or `'all'`) filters nothing. */
  lemma NoConditionKeepsAll(items: seq<Product>, filters: ProductFilters)
    requires ActiveSearch(filters).None? && ActiveStatus(filters).None?
    ensures ApplyFilters(items, filters) == items
  {
    assert SearchStep(items, filters) == items;
  }

  /** With a status alone, the request filters by status alone. */
  lemma StatusOnlyFilter(items: seq<Product>, status: string)
    requires status != "" && status != AllStatuses
    ensures ApplyFilters(items, ProductFilters(None, Some(status), None, None))
            == Filter(items, (p: Product) => p.status == status)
  {
    assert SearchStep(items, ProductFilters(None, Some(status), None, None)) == items;
  }

  /** Without filters, page 2 of size 10 holds product 11 alone, out of 11. */
  lemma SecondPageScenario()
    ensures var r := GetProducts(MockProducts, ProductFilters(None, None, Some(2), Some(10)));
      r.total == 11 && r.page == 2 && r.pageSize == 10 && |r.data| == 1 && r.data[0].id == "11"
  {
    NoConditionKeepsAll(MockProducts, ProductFilters(None, None, Some(2), Some(10)));
    assert PageStart(2, 10) == 10;
  }

  /** Status `'all'` and a zero page and page size: the first ten of all eleven products. */
  lemma AllStatusDefaultsScenario()
    ensures var r := GetProducts(MockProducts, ProductFilters(Some(""), Some(AllStatuses), Some(0), Some(0)));
      r.total == 11 && r.page == 1 && r.pageSize == 10 && |r.data| == 10 && r.data[0].id == "1"
  {
    NoConditionKeepsAll(MockProducts, ProductFilters(Some(""), Some(AllStatuses), Some(0), Some(0)));
    assert PageStart(1, 10) == 0;
  }

  /** Six of the seed products are out of stock. */
  lemma OutOfStockScenario()
    ensures GetProducts(MockProducts, ProductFilters(None, Some(OutOfStock), None, None)).total == 6
  {
    StatusOnlyFilter(MockProducts, OutOfStock);
    OutOfStockOnSeed();
  }

  lemma OutOfStockOnSeed()
    ensures |Filter(MockProducts, (p: Product) => p.status == OutOfStock)| == 6
  {
    var s := MockProducts;
    var keep: Product -> bool := (p: Product) => p.status == OutOfStock;
    assert s[11..] == [];
    FilterStep(s, 10, keep);
    FilterStep(s, 9, keep);
    FilterStep(s, 8, keep);
    FilterStep(s, 7, keep);
    FilterStep(s, 6, keep);
    FilterStep(s, 5, keep);
    FilterStep(s, 4, keep);
    FilterStep(s, 3, keep);
    FilterStep(s, 2, keep);
    FilterStep(s, 1, keep);
    FilterStep(s, 0, keep);
    assert s[0..] == s;
  }

  lemma InStockOnSeed()
    ensures |Filter(MockProducts, (p: Product) => p.status == InStock)| == 5
  {
    var s := MockProducts;
    var keep: Product -> bool := (p: Product) => p.status == InStock;
    assert s[11..] == [];
    FilterStep(s, 10, keep);
    FilterStep(s, 9, keep);
    FilterStep(s, 8, keep);
    FilterStep(s, 7, keep);
    FilterStep(s, 6, keep);
    FilterStep(s, 5, keep);
    FilterStep(s, 4, keep);
    FilterStep(s, 3, keep);
    FilterStep(s, 2, keep);
    FilterStep(s, 1, keep);
    FilterStep(s, 0, keep);
    assert s[0..] == s;
  }

  /** Five of the seed products are in stock. */
  lemma InStockScenario()
    ensures GetProducts(MockProducts, ProductFilters(None, Some(InStock), None, None)).total == 5
  {
    StatusOnlyFilter(MockProducts, InStock);
    InStockOnSeed();
  }

  /** "ORGANIC" and "Organic" lower-case to the same text. */
  lemma OrganicLowerCase()
    ensures ToLower("ORGANIC") == ToLower("Organic")
  {
    assert ToLower("ORGANIC") == "organic";
    assert ToLower("Organic") == "organic";
  }

  /** A product whose name is that of product 3 matches "ORGANIC", whatever its other fields. */
  lemma OrganicNameMatches(p: Product)
    requires p.name == "Pinky Egg Organic hộp 6"
    ensures MatchesSearch(p, "ORGANIC")
  {
    assert p.name[10..17] == "Organic";
    assert OccursAt(p.name, "Organic", 10);
    LowerKeepsOccurrence(p.name, "Organic", 10);
    OrganicLowerCase();
  }

  /** The search ignores case: "ORGANIC" finds product 3, "Pinky Egg Organic hộp 6". */
  lemma CaseInsensitiveSearchScenario()
    ensures MatchesSearch(MockProducts[2], "ORGANIC")
  {
    OrganicNameMatches(MockProducts[2]);
  }
}
