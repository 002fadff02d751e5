/** Product lookups. Each read tries the hybrid endpoint first and, on any
    failure, the standard endpoint once; the featured list falls through four
    strategies. */
module ProductService {
  import opened Wrappers
  import opened Text
  import opened Types
  import opened Settled

  /** The query parameters a product read sends; a field that is `None` is not
      sent. */
  datatype Filters = Filters(
    page: Option<int>,
    limit: Option<int>,
    search: Option<string>,
    query: Option<string>,
    categoryId: Option<int>,
    sortBy: Option<string>)

  const NoFilters := Filters(None, None, None, None, None, None)

  /** `{ ...base, ...over }`: a parameter given in `over` replaces the one in `base`. */
  function Spread(base: Filters, over: Filters): (r: Filters)
    ensures over.search.Some? ==> r.search == over.search
    ensures over.search.None? ==> r.search == base.search
    ensures over.categoryId.Some? ==> r.categoryId == over.categoryId
    ensures over.categoryId.None? ==> r.categoryId == base.categoryId
  {
    Filters(
      if over.page.Some? then over.page else base.page,
      if over.limit.Some? then over.limit else base.limit,
      if over.search.Some? then over.search else base.search,
      if over.query.Some? then over.query else base.query,
      if over.categoryId.Some? then over.categoryId else base.categoryId,
      if over.sortBy.Some? then over.sortBy else base.sortBy)
  }

  datatype Request = Get(path: string, params: Filters)

  /** A paginated response body; `data` may be missing. */
  datatype Page = Page(data: Option<seq<Product>>)

  /** The outcome of a read together with the requests it issued, in order. */
  datatype Attempt<T> = Attempt(result: Result<T, string>, requests: seq<Request>)

  /** The shape shared by every product read: the primary request, and the
      fallback request only when the primary fails. The error text comes from
      the fallback's failure. */
  function PrimaryThenFallback<T>(primaryRequest: Request, primary: Result<T, ApiError>,
                                  fallbackRequest: Request, fallback: Result<T, ApiError>,
                                  message: string): (r: Attempt<T>)
    ensures r.result.Err? <==> primary.Err? && fallback.Err?
    ensures primary.Ok? ==> r.result == Ok(primary.value) && r.requests == [primaryRequest]
    ensures primary.Err? ==> r.requests == [primaryRequest, fallbackRequest] && r.result == Rethrow(fallback, message)
    ensures 1 <= |r.requests| <= 2 && r.requests[0] == primaryRequest
    ensures r.result.Err? ==> fallback.Err? && r.result.error == MessageOr(fallback.error, message)
  {
    if primary.Ok? then Attempt(Ok(primary.value), [primaryRequest])
    else Attempt(Rethrow(fallback, message), [primaryRequest, fallbackRequest])
  }

  /** `getProducts`: the same filters go to both endpoints. */
  function GetProducts(filters: Filters, hybrid: Result<Page, ApiError>, standard: Result<Page, ApiError>): (r: Attempt<Page>)
    ensures r.result.Ok? <==> hybrid.Ok? || standard.Ok?
    ensures hybrid.Ok? ==> r.result == Ok(hybrid.value) && r.requests == [Get("/hybrid/products", filters)]
    ensures hybrid.Err? && standard.Ok? ==> r.result == Ok(standard.value)
    ensures hybrid.Err? ==> r.requests == [Get("/hybrid/products", filters), Get("/products", filters)]
    ensures r.result.Err? ==> hybrid.Err? && standard.Err? && r.result.error == MessageOr(standard.error, "Failed to fetch products")
  {
    PrimaryThenFallback(Get("/hybrid/products", filters), hybrid, Get("/products", filters), standard, "Failed to fetch products")
  }

  /** `getProduct`. */
  function GetProduct(id: int, hybrid: Result<Product, ApiError>, standard: Result<Product, ApiError>): (r: Attempt<Product>)
    ensures r.result.Ok? <==> hybrid.Ok? || standard.Ok?
    ensures hybrid.Ok? ==> r.result == Ok(hybrid.value) && r.requests == [Get("/hybrid/products/" + IntString(id), NoFilters)]
    ensures hybrid.Err? && standard.Ok? ==> r.result == Ok(standard.value)
    ensures hybrid.Err? ==> r.requests == [Get("/hybrid/products/" + IntString(id), NoFilters), Get("/products/" + IntString(id), NoFilters)]
    ensures r.result.Err? ==> standard.Err? && r.result.error == MessageOr(standard.error, "Failed to fetch product")
  {
    PrimaryThenFallback(Get("/hybrid/products/" + IntString(id), NoFilters), hybrid,
                        Get("/products/" + IntString(id), NoFilters), standard, "Failed to fetch product")
  }

  /** `searchProducts`: the hybrid endpoint gets the term as `search`, the
      standard one as `query`; a filter of the same name given by the caller
      wins. */
  function SearchProducts(query: string, filters: Filters, hybrid: Result<Page, ApiError>, standard: Result<Page, ApiError>): (r: Attempt<Page>)
    ensures |r.requests| >= 1 && r.requests[0].path == "/hybrid/products"
    ensures |r.requests| >= 1 && r.requests[0].params.search == (if filters.search.Some? then filters.search else Some(query))
    ensures hybrid.Ok? ==> r.result == Ok(hybrid.value) && |r.requests| == 1
    ensures hybrid.Err? && standard.Ok? ==> r.result == Ok(standard.value)
    ensures hybrid.Err? ==>
      (|r.requests| == 2 && r.requests[1].path == "/products/search" &&
       r.requests[1].params.query == (if filters.query.Some? then filters.query else Some(query)))
    ensures r.result.Err? <==> hybrid.Err? && standard.Err?
    ensures r.result.Err? ==> standard.Err? && r.result.error == MessageOr(standard.error, "Failed to search products")
  {
    PrimaryThenFallback(Get("/hybrid/products", Spread(NoFilters.(search := Some(query)), filters)), hybrid,
                        Get("/products/search", Spread(NoFilters.(query := Some(query)), filters)), standard,
                        "Failed to search products")
  }

  /** `getProductsByCategory`. */
  function GetProductsByCategory(categoryId: int, filters: Filters, hybrid: Result<Page, ApiError>, standard: Result<Page, ApiError>): (r: Attempt<Page>)
    ensures |r.requests| >= 1 && r.requests[0].path == "/hybrid/products"
    ensures |r.requests| >= 1 && r.requests[0].params.categoryId == (if filters.categoryId.Some? then filters.categoryId else Some(categoryId))
    ensures hybrid.Ok? ==> r.result == Ok(hybrid.value) && |r.requests| == 1
    ensures hybrid.Err? && standard.Ok? ==> r.result == Ok(standard.value)
    ensures hybrid.Err? ==> r.requests == [r.requests[0], Get("/products/category/" + IntString(categoryId), filters)]
    ensures r.result.Err? <==> hybrid.Err? && standard.Err?
    ensures r.result.Err? ==> standard.Err? && r.result.error == MessageOr(standard.error, "Failed to fetch products by category")
  {
    PrimaryThenFallback(Get("/hybrid/products", Spread(NoFilters.(categoryId := Some(categoryId)), filters)), hybrid,
                        Get("/products/category/" + IntString(categoryId), filters), standard,
                        "Failed to fetch products by category")
  }

  /** `response.data.data || []`. */
  function PageItems(page: Page): seq<Product> {
    page.data.GetOr([])
  }

  /** The products strategy 1 finds: every trending id resolved, the found
      ones in id order. */
  function TrendingPick(trending: Result<seq<int>, ApiError>, lookup: int -> Result<Product, string>): seq<Product> {
    if trending.Ok? then Resolve(trending.value, lookup) else []
  }

  /** Strategy 2 counts only when it answers with a non-empty list. */
  predicate NewestUsable(newest: Result<Page, ApiError>) {
    newest.Ok? && PageItems(newest.value) != []
  }

  const FeaturedFailed := "Failed to fetch featured products"

  /** The request each featured-products strategy sends, in order: the
      trending analytics, the newest hybrid products, the featured list and the
      newest standard products, each with the caller's limit. */
  function FeaturedRequests(limit: int): (r: seq<Request>)
    ensures |r| == 4
    ensures forall k :: 0 <= k < |r| ==> r[k].params.limit == Some(limit)
    ensures r[1].params.sortBy == Some("newest") && r[3].params.sortBy == Some("newest")
  {
    [Get("/analytics/trending", NoFilters.(limit := Some(limit))),
     Get("/hybrid/products", NoFilters.(sortBy := Some("newest"), limit := Some(limit))),
     Get("/products/featured", NoFilters.(limit := Some(limit))),
     Get("/products", NoFilters.(limit := Some(limit), sortBy := Some("newest")))]
  }

  /** `getFeaturedProducts`. `trending` answers the analytics call, `lookup`
      gives each `getProduct(id)` outcome, `newest`, `featured` and `standard`
      answer strategies 2, 3 and 4; `strategies` counts the strategies tried
      and `requests` lists the strategy requests sent (the per-id product
      reads are `lookedUp`). */
  method GetFeaturedProducts(trending: Result<seq<int>, ApiError>, lookup: int -> Result<Product, string>,
                             newest: Result<Page, ApiError>, featured: Result<Page, ApiError>,
                             standard: Result<Page, ApiError>, limit: int := 10)
    returns (result: Result<seq<Product>, string>, strategies: nat, lookedUp: seq<int>, requests: seq<Request>)
    ensures 1 <= strategies <= 4 && requests == FeaturedRequests(limit)[..strategies]
    // Strategy 1 resolves every trending id, not only the first `limit`.
    ensures trending.Ok? ==> lookedUp == trending.value
    ensures trending.Err? ==> lookedUp == []
    ensures TrendingPick(trending, lookup) != [] ==> result == Ok(TrendingPick(trending, lookup)) && strategies == 1
    ensures TrendingPick(trending, lookup) == [] && NewestUsable(newest) ==>
      result == Ok(PageItems(newest.value)) && strategies == 2
    // Strategy 3 is final even when its list is empty.
    ensures TrendingPick(trending, lookup) == [] && !NewestUsable(newest) && featured.Ok? ==>
      result == Ok(PageItems(featured.value)) && strategies == 3
    ensures strategies == 4 <==> TrendingPick(trending, lookup) == [] && !NewestUsable(newest) && featured.Err?
    ensures strategies == 4 ==> result == (if standard.Ok? then Ok(PageItems(standard.value)) else Err(FeaturedFailed))
    ensures result.Err? <==>
      TrendingPick(trending, lookup) == [] && !NewestUsable(newest) && featured.Err? && standard.Err?
    ensures result.Err? ==> result.error == FeaturedFailed
  {
    lookedUp := [];
    strategies := 1;
    requests := FeaturedRequests(limit)[..1];
    if trending.Ok? && |trending.value| > 0 {
      lookedUp := trending.value;
      var validProducts := Resolve(trending.value, lookup);
      if |validProducts| > 0 {
        result := Ok(validProducts);
        return;
      }
    } else if trending.Ok? {
      lookedUp := trending.value;
    }

    strategies := 2;
    requests := FeaturedRequests(limit)[..2];
    if newest.Ok? {
      var products := PageItems(newest.value);
      if |products| > 0 {
        result := Ok(products);
        return;
      }
    }

    strategies := 3;
    requests := FeaturedRequests(limit)[..3];
    if featured.Ok? {
      result := Ok(PageItems(featured.value));
      return;
    }

    strategies := 4;
    requests := FeaturedRequests(limit)[..4];
    if standard.Ok? {
      result := Ok(PageItems(standard.value));
    } else {
      result := Err(FeaturedFailed);
    }
  }
}
