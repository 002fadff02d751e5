/** The personalised recommendation panel: a user's recommended ids, or
    trending ids when there are none, resolved to products; a wishlist of
    product ids toggled from the cards. */
module PersonalizedRecommendations {
  import opened Wrappers
  import opened Text
  import opened Types
  import opened Recommendations
  import AnalyticsService

  const LoadFailed := "Failed to load personalized recommendations"

  /** The analytics reads the panel issues. */
  datatype Call = UserRecommendationsCall(userId: string, limit: int) | TrendingCall(limit: int)

  class PanelState {
    var products: seq<Product>
    var loading: bool
    var wishlist: set<int>
    var error: Option<string>

    constructor ()
      ensures products == [] && loading && wishlist == {} && error == None
    {
      products, loading, wishlist, error := [], true, {}, None;
    }

    /** `fetchRecommendations`. A failed read of either list sets the error
        and keeps the old products; otherwise the products are the panel
        products of the recommended ids. `calls` lists the reads issued. */
    method FetchRecommendations(userId: string, maxItems: int, own: Result<seq<int>, ApiError>,
                                trending: Result<seq<int>, ApiError>, lookup: int -> Result<Product, string>)
      returns (calls: seq<Call>)
      modifies this`products, this`loading, this`error
      ensures !loading
      ensures calls == [UserRecommendationsCall(userId, maxItems)] +
        (if own.Ok? && own.value == [] then [TrendingCall(maxItems)] else [])
      ensures own.Err? || (own.Ok? && own.value == [] && trending.Err?) ==>
        error == Some(LoadFailed) && products == old(products)
      ensures own.Ok? && own.value != [] ==> error == None && products == PanelProducts(own.value, maxItems, lookup)
      ensures own.Ok? && own.value == [] && trending.Ok? ==>
        error == None && products == PanelProducts(trending.value, maxItems, lookup)
    {
      loading := true;
      error := None;
      calls := [UserRecommendationsCall(userId, maxItems)];
      if own.Err? {
        error := Some(LoadFailed);
      } else {
        var recommendedIds := own.value;
        var failed := false;
        if |recommendedIds| == 0 {
          calls := calls + [TrendingCall(maxItems)];
          if trending.Ok? {
            recommendedIds := recommendedIds + trending.value;
            assert recommendedIds == trending.value;
          } else {
            failed := true;
          }
        }
        if failed {
          error := Some(LoadFailed);
        } else {
          products := Settled.Resolve(Take(recommendedIds, maxItems), lookup);
        }
      }
      loading := false;
    }

    /** `handleWishlistToggle`: the product's id leaves the wishlist when it
        is in it and joins it otherwise; `onAddToWishlist` is told about the
        product either way. */
    method ToggleWishlist(product: Product) returns (notified: Product)
      modifies this`wishlist
      ensures product.id in old(wishlist) ==> wishlist == old(wishlist) - {product.id}
      ensures product.id !in old(wishlist) ==> wishlist == old(wishlist) + {product.id}
      ensures notified == product
    {
      var newWishlist := wishlist;
      if product.id in wishlist {
        newWishlist := newWishlist - {product.id};
      } else {
        newWishlist := newWishlist + {product.id};
      }
      wishlist := newWishlist;
      notified := product;
    }

    function View(maxItems: int): (r: View)
      reads this
      ensures r == PanelView(loading, error, products, maxItems)
    {
      PanelView(loading, error, products, maxItems)
    }
  }

  /** The wishlist after a toggle, as a function of the one before. */
  function Toggled(wishlist: set<int>, id: int): (r: set<int>)
    ensures id in r <==> id !in wishlist
    ensures forall x :: x != id ==> (x in r <==> x in wishlist)
  {
    if id in wishlist then wishlist - {id} else wishlist + {id}
  }

  /** Toggling the same product twice restores the wishlist. */
  lemma ToggleTwice(wishlist: set<int>, id: int)
    ensures Toggled(Toggled(wishlist, id), id) == wishlist
  {
  }

  /** Toggles of different products commute. */
  lemma TogglesCommute(wishlist: set<int>, a: int, b: int)
    ensures Toggled(Toggled(wishlist, a), b) == Toggled(Toggled(wishlist, b), a)
  {
  }

  /** The method on the panel state follows `Toggled`, so a double toggle
      of one product leaves the wishlist as it was. */
  method DoubleToggle(panel: PanelState, product: Product)
    modifies panel`wishlist
    ensures panel.wishlist == old(panel.wishlist)
  {
    var _ := panel.ToggleWishlist(product);
    var _ := panel.ToggleWishlist(product);
  }

  /** The stock line of a card. */
  function StockLabel(stockQuantity: int): (r: string)
    ensures stockQuantity > 0 ==> r == IntString(stockQuantity) + " in stock"
    ensures stockQuantity <= 0 ==> r == "Out of Stock"
  {
    if stockQuantity > 0 then IntString(stockQuantity) + " in stock" else "Out of Stock"
  }

  /** Add-to-cart is disabled exactly for a stock of zero. */
  predicate AddToCartDisabled(product: Product)
    ensures AddToCartDisabled(product) ==> product.stockQuantity <= 0
    ensures product.stockQuantity != 0 ==> !AddToCartDisabled(product)
  {
    product.stockQuantity == 0
  }

  /** A disabled button always sits under "Out of Stock", but a negative
      stock shows "Out of Stock" with the button enabled. */
  lemma DisabledMeansOutOfStock(product: Product)
    ensures AddToCartDisabled(product) <==> product.stockQuantity == 0
    ensures AddToCartDisabled(product) ==> StockLabel(product.stockQuantity) == "Out of Stock"
    ensures product.stockQuantity < 0 ==> StockLabel(product.stockQuantity) == "Out of Stock" && !AddToCartDisabled(product)
    ensures product.stockQuantity > 0 ==> !AddToCartDisabled(product) && StockLabel(product.stockQuantity) != "Out of Stock"
  {
    if product.stockQuantity > 0 {
      var line := StockLabel(product.stockQuantity);
      assert line[0] == DecimalString(product.stockQuantity)[0];
      assert IsDigit(line[0]);
    }
  }

  /** `handleProductClick`: the panel always records a view for its user,
      then navigates to the product page. */
  method PanelClick(analytics: AnalyticsService.AnalyticsService, product: Product, userId: string, timestamp: nat, suffix: string)
    returns (posted: AnalyticsService.Event, navigateTo: Route)
    modifies analytics.session`analyticsSessionId
    ensures navigateTo == ProductPage(product.id)
    ensures posted.ProductView? && posted.productId == IntString(product.id) && posted.userId == Some(userId)
  {
    var recorded;
    recorded, navigateTo := ClickProduct(analytics, product, true, userId, timestamp, suffix);
    posted := recorded.value;
  }
}
