/** What the two recommendation components share: truncating an id list the
    way `Array.prototype.slice(0, n)` does, the three views a product panel
    can show, and the click on a product. */
module Recommendations {
  import opened Wrappers
  import opened Text
  import opened Types
  import Settled
  import AnalyticsService

  const NoRecommendations := "No recommendations available at the moment."

  /** `ids.slice(0, maxItems)`: a negative end counts back from the end of
      the list. */
  function Take(ids: seq<int>, maxItems: int): (r: seq<int>)
    ensures 0 <= maxItems <= |ids| ==> r == ids[..maxItems]
    ensures maxItems >= |ids| ==> r == ids
    ensures maxItems < 0 ==> r == ids[..if |ids| + maxItems < 0 then 0 else |ids| + maxItems]
    ensures |r| <= |ids| && r == ids[..|r|]
  {
    var end := if maxItems < 0 then |ids| + maxItems else maxItems;
    var clamped := if end < 0 then 0 else if end > |ids| then |ids| else end;
    ids[..clamped]
  }

  /** The products of a panel: the fulfilled lookups of the first `maxItems`
      ids, in id order; a failed lookup drops only its own product. */
  function PanelProducts(ids: seq<int>, maxItems: int, lookup: int -> Result<Product, string>): (r: seq<Product>)
    ensures 0 <= maxItems ==> |r| <= maxItems
    ensures |r| <= |ids|
    ensures forall p :: p in r <==> exists k :: 0 <= k < |Take(ids, maxItems)| && lookup(ids[k]) == Ok(p)
  {
    Settled.Resolve(Take(ids, maxItems), lookup)
  }

  /** Ids beyond the first `maxItems` are never looked up: changing them
      changes nothing. */
  lemma PanelIgnoresTail(ids: seq<int>, more: seq<int>, maxItems: nat, lookup: int -> Result<Product, string>)
    requires maxItems <= |ids|
    ensures PanelProducts(ids + more, maxItems, lookup) == PanelProducts(ids, maxItems, lookup)
  {
    assert (ids + more)[..maxItems] == ids[..maxItems];
  }

  /** A panel shows placeholders while loading, a message when it has an
      error or no products, and the product grid otherwise. */
  datatype View = Skeletons(count: nat) | Message(text: string) | Grid(products: seq<Product>)

  /** `Array.from({ length: n })`: a negative length gives no placeholders. */
  function Placeholders(maxItems: int): (r: nat)
    ensures maxItems >= 0 ==> r == maxItems
    ensures maxItems < 0 ==> r == 0
  {
    if maxItems < 0 then 0 else maxItems
  }

  function PanelView(loading: bool, error: Option<string>, products: seq<Product>, maxItems: int): (r: View)
    ensures loading <==> r.Skeletons?
    ensures r.Grid? <==> !loading && !Truthy(error) && products != []
    ensures r.Grid? ==> r.products == products
    ensures r.Message? ==> r.text == (if Truthy(error) then error.value else NoRecommendations)
  {
    if loading then Skeletons(Placeholders(maxItems))
    else if Truthy(error) || |products| == 0 then Message(if Truthy(error) then error.value else NoRecommendations)
    else Grid(products)
  }

  /** An error message and the empty message can be told apart. */
  lemma ErrorDistinctFromEmpty(error: string, maxItems: int)
    requires error != "" && error != NoRecommendations
    ensures PanelView(false, Some(error), [], maxItems) != PanelView(false, None, [], maxItems)
  {
  }

  /** Opening a product from a panel. `record` says whether a view is
      posted first; recording failures are caught, so navigation to the
      product page always follows. */
  method ClickProduct(analytics: AnalyticsService.AnalyticsService, product: Product, record: bool, userId: string, timestamp: nat, suffix: string)
    returns (posted: Option<AnalyticsService.Event>, navigateTo: Route)
    modifies analytics.session`analyticsSessionId
    ensures navigateTo == ProductPage(product.id)
    ensures record <==> posted.Some?
    ensures posted.Some? ==> (posted.value.ProductView? && posted.value.productId == IntString(product.id) &&
                              posted.value.userId == Some(userId))
    ensures !record ==> analytics.session.analyticsSessionId == old(analytics.session.analyticsSessionId)
  {
    posted := None;
    if record {
      var event := analytics.RecordProductView(IntString(product.id), Some(userId), None, timestamp, suffix);
      posted := Some(event);
    }
    navigateTo := ProductPage(product.id);
  }
}
