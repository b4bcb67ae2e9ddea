/**
 * The deterministic parts of backend/routes/products.js: how GET / turns its
 * query into a filter, a sort and page arithmetic; how GET /:id treats an
 * inactive product; and how DELETE /:id deactivates a product instead of
 * removing it.
 *
 * Query values arrive already read: a text parameter is `Some(text)` when
 * present (possibly empty), a numeric one `Some(n)` when present and
 * non-empty. Prices are integer cents.
 */
module ProductRoutes {
  import opened Results
  import opened ProductModel

  const DefaultPage: int := 1
  const DefaultLimit: int := 12
  const DefaultSortKey: string := "createdAt"

  datatype ListQuery = ListQuery(
    page: Option<int>,
    limit: Option<int>,
    category: Option<string>,
    search: Option<string>,
    minPrice: Option<int>,
    maxPrice: Option<int>,
    sortBy: Option<string>,
    sortOrder: Option<string>,
    featured: Option<string>)

  /**
   * The database filter. `isActive` is the value the record's flag must have;
   * every other constraint is absent (None) or the value to compare with.
   */
  datatype ProductFilter = ProductFilter(
    isActive: bool,
    category: Option<string>,
    text: Option<string>,
    minPrice: Option<int>,
    maxPrice: Option<int>,
    featured: Option<bool>)

  /** One sort key with direction 1 (ascending) or -1 (descending). */
  datatype SortSpec = SortSpec(key: string, direction: int)

  /** JavaScript truthiness of a text parameter: present and non-empty. */
  predicate Given(s: Option<string>) {
    s.Some? && s.value != ""
  }

  /** The constraints of `filter` that the database evaluates on a record (the text search aside). */
  predicate Matches(filter: ProductFilter, p: Product) {
    && p.isActive == filter.isActive
    && (filter.category.Some? ==> p.category == filter.category.value)
    && (filter.minPrice.Some? ==> p.price >= filter.minPrice.value)
    && (filter.maxPrice.Some? ==> p.price <= filter.maxPrice.value)
    && (filter.featured.Some? ==> p.featured == filter.featured.value)
  }

  /**
   * The records a listing query asks for, read off the query itself: active
   * ones; of the named category unless none or "all" is named; within the
   * given price bounds; and featured ones when featured is "true".
   */
  predicate Requested(q: ListQuery, p: Product) {
    && p.isActive
    && (Given(q.category) && q.category.value != "all" ==> p.category == q.category.value)
    && (q.minPrice.Some? ==> q.minPrice.value <= p.price)
    && (q.maxPrice.Some? ==> p.price <= q.maxPrice.value)
    && (q.featured == Some("true") ==> p.featured)
  }

  /**
   * GET /: builds the filter and the sort field by field from the query.
   * The filter always requires an active record and admits exactly the
   * records the query asks for.
   */
  method BuildListQuery(q: ListQuery) returns (filter: ProductFilter, sort: SortSpec)
    ensures filter.isActive
    ensures filter.category.Some? <==> Given(q.category) && q.category.value != "all"
    ensures filter.category.Some? ==> filter.category == q.category
    ensures filter.text.Some? <==> Given(q.search)
    ensures filter.text.Some? ==> filter.text == q.search
    ensures filter.minPrice == q.minPrice && filter.maxPrice == q.maxPrice
    ensures filter.featured.Some? <==> q.featured == Some("true")
    ensures filter.featured.Some? ==> filter.featured.value
    ensures sort.key == q.sortBy.GetOr(DefaultSortKey)
    ensures sort.direction == 1 <==> q.sortOrder == Some("asc")
    ensures sort.direction == 1 || sort.direction == -1
    ensures forall p :: Matches(filter, p) <==> Requested(q, p)
  {
    filter := ProductFilter(true, None, None, None, None, None);
    if Given(q.category) && q.category.value != "all" {
      filter := filter.(category := q.category);
    }
    if Given(q.search) {
      filter := filter.(text := q.search);
    }
    if q.minPrice.Some? || q.maxPrice.Some? {
      if q.minPrice.Some? {
        filter := filter.(minPrice := q.minPrice);
      }
      if q.maxPrice.Some? {
        filter := filter.(maxPrice := q.maxPrice);
      }
    }
    if q.featured == Some("true") {
      filter := filter.(featured := Some(true));
    }
    var key := q.sortBy.GetOr(DefaultSortKey);
    sort := SortSpec(key, if q.sortOrder == Some("asc") then 1 else -1);
  }

  /** The pagination block of the GET / answer. */
  datatype Pagination = Pagination(
    currentPage: int,
    totalPages: int,
    totalProducts: nat,
    hasNext: bool,
    hasPrev: bool)

  /** How many matching records the page skips: `(page - 1) * limit`. */
  function Skip(page: int, limit: int): int {
    (page - 1) * limit
  }

  /** `Math.ceil(totalProducts / limit)`: the fewest pages of `limit` records that hold them all. */
  function TotalPages(totalProducts: nat, limit: int): (pages: nat)
    requires limit > 0
    ensures totalProducts <= pages * limit
    ensures pages == 0 || (pages - 1) * limit < totalProducts
    ensures pages == 0 <==> totalProducts == 0
  {
    var pages := (totalProducts + limit - 1) / limit;
    CeilingDivision(totalProducts, limit);
    pages
  }

  lemma CeilingDivision(n: nat, d: int)
    requires d > 0
    ensures var c := (n + d - 1) / d;
      c >= 0 && n <= c * d && (c == 0 || (c - 1) * d < n) && (c == 0 <==> n == 0)
  {
    var c := (n + d - 1) / d;
    var m := (n + d - 1) % d;
    assert n + d - 1 == c * d + m && 0 <= m < d;
    assert c >= 0;
    assert (c - 1) * d == c * d - d;
  }

  function PageOf(q: ListQuery): int {
    q.page.GetOr(DefaultPage)
  }

  function LimitOf(q: ListQuery): int {
    q.limit.GetOr(DefaultLimit)
  }

  /** The pagination block for a query whose filter matched `totalProducts` records. */
  function Paginate(q: ListQuery, totalProducts: nat): (pg: Pagination)
    requires LimitOf(q) > 0
    ensures pg.currentPage == PageOf(q) && pg.totalProducts == totalProducts
    ensures pg.totalPages == TotalPages(totalProducts, LimitOf(q))
    ensures pg.hasNext <==> PageOf(q) < pg.totalPages
    ensures pg.hasPrev <==> PageOf(q) > 1
  {
    var page := PageOf(q);
    var pages := TotalPages(totalProducts, LimitOf(q));
    Pagination(page, pages, totalProducts, page < pages, page > 1)
  }

  /** Multiplying by a positive page size keeps the order of page numbers. */
  lemma ScaleMonotone(a: int, b: int, limit: int)
    requires limit > 0
    ensures a <= b <==> a * limit <= b * limit
    ensures a < b <==> a * limit < b * limit
  {
    if a <= b {
      assert b * limit - a * limit == (b - a) * limit;
    } else {
      assert a * limit - b * limit == (a - b) * limit;
    }
  }

  /**
   * `hasNext` holds exactly when matching records remain after this page,
   * and `hasPrev` exactly when this page skips some.
   */
  lemma PageFlagsMeaning(q: ListQuery, totalProducts: nat)
    requires LimitOf(q) > 0
    ensures Paginate(q, totalProducts).hasNext <==> Skip(PageOf(q), LimitOf(q)) + LimitOf(q) < totalProducts
    ensures Paginate(q, totalProducts).hasPrev <==> Skip(PageOf(q), LimitOf(q)) > 0
  {
    var page, limit := PageOf(q), LimitOf(q);
    var pages: int := TotalPages(totalProducts, limit);
    assert Skip(page, limit) + limit == page * limit;
    ScaleMonotone(page, pages - 1, limit);
    ScaleMonotone(pages, page, limit);
    ScaleMonotone(1, page - 1, limit);
  }

  /** Every page from the first to the last starts at a matching record. */
  lemma PagesAreNonEmpty(q: ListQuery, totalProducts: nat)
    requires LimitOf(q) > 0
    requires 1 <= PageOf(q) <= TotalPages(totalProducts, LimitOf(q))
    ensures 0 <= Skip(PageOf(q), LimitOf(q)) < totalProducts
  {
    var page, limit := PageOf(q), LimitOf(q);
    var pages: int := TotalPages(totalProducts, limit);
    ScaleMonotone(page - 1, pages - 1, limit);
    ScaleMonotone(0, page - 1, limit);
  }

  /** Why GET /:id and DELETE /:id answer "not found". */
  datatype LookupError = NotFound | NotAvailable

  class ProductStore {
    /** The stored product records, keyed by id. */
    var products: Catalog

    ghost predicate Valid()
      reads this
    {
      ValidCatalog(products)
    }

    constructor (initial: Catalog)
      requires ValidCatalog(initial)
      ensures Valid() && products == initial
    {
      products := initial;
    }

    /**
     * GET /:id: a missing record is NotFound and an inactive one
     * NotAvailable; only an active record is returned.
     */
    method GetById(id: ProductId) returns (r: Result<Product, LookupError>)
      ensures r.Ok? <==> id in products && products[id].isActive
      ensures r.Ok? ==> r.value == products[id]
      ensures id !in products ==> r == Err(NotFound)
      ensures id in products && !products[id].isActive ==> r == Err(NotAvailable)
    {
      if id !in products {
        return Err(NotFound);
      }
      var product := products[id];
      if !product.isActive {
        return Err(NotAvailable);
      }
      r := Ok(product);
    }

    /**
     * DELETE /:id: a soft delete. The record stays stored with `isActive`
     * false and every other field and record unchanged; a missing id is
     * NotFound and changes nothing.
     */
    method Delete(id: ProductId) returns (r: Outcome<LookupError>)
      requires Valid()
      modifies this
      ensures Valid()
      ensures id !in old(products) ==> r == Fail(NotFound) && products == old(products)
      ensures id in old(products) ==>
        && r == Pass
        && products == old(products)[id := old(products)[id].(isActive := false)]
      ensures products.Keys == old(products).Keys
    {
      if id !in products {
        return Fail(NotFound);
      }
      products := products[id := products[id].(isActive := false)];
      r := Pass;
    }
  }
}
