/** The display rules of a product card: which image to show, which badges,
    which hover actions, and where a click leads. */
module ProductCard {
  import opened Wrappers
  import opened Text
  import opened Types
  import ImageProcessor
  import AnalyticsService
  import SessionIds

  const ElectronicsFallback := "/images/product-fallback-electronics.jpg"
  const ClothingFallback := "/images/product-fallback-clothing.jpg"
  const BooksFallback := "/images/product-fallback-books.jpg"

  /** The first image flagged primary, searched from the front. */
  function FirstPrimary(images: seq<ProductImage>): (r: Option<ProductImage>)
    ensures r.Some? <==> exists k :: 0 <= k < |images| && images[k].isPrimary
    ensures r.Some? ==> r.value.isPrimary && r.value in images
    ensures r.Some? ==> exists k :: 0 <= k < |images| && images[k] == r.value &&
                                   forall j :: 0 <= j < k ==> !images[j].isPrimary
  {
    if images == [] then None
    else if images[0].isPrimary then Some(images[0])
    else
      var r := FirstPrimary(images[1..]);
      assert forall k :: 1 <= k < |images| ==> images[k] == images[1..][k - 1];
      if r.Some? then
        var k :| 0 <= k < |images[1..]| && images[1..][k] == r.value && forall j :: 0 <= j < k ==> !images[1..][j].isPrimary;
        assert images[k + 1] == r.value;
        r
      else r
  }

  /** `primaryImage`: the first primary image, else the first image, else none. */
  function PrimaryImage(product: Product): (r: Option<ProductImage>)
    ensures product.images.None? || product.images.value == [] ==> r.None?
    ensures r.Some? ==> r.value in product.images.value
    ensures product.images.Some? && product.images.value != [] ==> r.Some?
    ensures product.images.Some? && (exists k :: 0 <= k < |product.images.value| && product.images.value[k].isPrimary) ==>
      r.Some? && r.value.isPrimary
    ensures (product.images.Some? && product.images.value != [] &&
             forall k :: 0 <= k < |product.images.value| ==> !product.images.value[k].isPrimary) ==>
      r == Some(product.images.value[0])
  {
    match product.images
    case None => None
    case Some(images) =>
      var primary := FirstPrimary(images);
      if primary.Some? then primary
      else if |images| > 0 then Some(images[0])
      else None
  }

  /** `hasDiscount`: a truthy discount price below the list price. A discount
      price of 0 is falsy, so a free product has no discount. */
  predicate HasDiscount(product: Product)
    ensures HasDiscount(product) ==> product.discountPrice.Some? && product.discountPrice.value < product.price
    ensures product.discountPrice.None? || product.discountPrice == Some(0) ==> !HasDiscount(product)
  {
    product.discountPrice.Some? && product.discountPrice.value != 0 && product.discountPrice.value < product.price
  }

  /** `discountPercentage`: 0 without a discount; otherwise the saving as a
      percentage of the list price, rounded half up as `Math.round` does.
      Rounding is exact here, on the integer prices. */
  function DiscountPercentage(product: Product): (r: int)
    ensures !HasDiscount(product) ==> r == 0
    // r is the nearest integer to 100 * (price - discountPrice) / price, halves rounding up.
    ensures HasDiscount(product) && product.price > 0 ==>
      var saving := 200 * (product.price - product.discountPrice.value);
      2 * r * product.price - product.price <= saving < 2 * r * product.price + product.price
  {
    if HasDiscount(product) && product.price != 0 then
      var twice := 200 * (product.price - product.discountPrice.value) + product.price;
      var denominator := 2 * product.price;
      if denominator > 0 then twice / denominator else (-twice) / (-denominator)
    else 0
  }

  /** A discount of a positive price by a positive discount price lies
      between 0 and 100 percent. */
  lemma DiscountPercentageBounds(product: Product)
    requires HasDiscount(product) && product.discountPrice.value > 0
    ensures 0 <= DiscountPercentage(product) <= 100
  {
    var r := DiscountPercentage(product);
    var p := product.price;
    var saving := 200 * (p - product.discountPrice.value);
    assert 0 < saving < 200 * p;
    assert 2 * r * p == 2 * (r * p);
    if r < 0 {
      MulMonotone(r, -1, p);
    }
    if r > 100 {
      MulMonotone(101, r, p);
    }
  }

  lemma MulMonotone(a: int, b: int, p: int)
    requires a <= b && p > 0
    ensures a * p <= b * p
  {
    assert b * p - a * p == (b - a) * p;
  }

  /** The "N% OFF" badge label, shown exactly when there is a discount. */
  function DiscountBadges(product: Product): (r: seq<string>)
    ensures r != [] <==> HasDiscount(product)
    ensures HasDiscount(product) ==> r == [IntString(DiscountPercentage(product)) + "% OFF"]
  {
    if HasDiscount(product) then [IntString(DiscountPercentage(product)) + "% OFF"] else []
  }

  /** A JavaScript value as `&&` yields it: `undefined`, a number or a boolean. */
  datatype JsValue = Undefined | Number(n: int) | Boolean(b: bool)

  predicate JsTruthy(v: JsValue) {
    match v
    case Undefined => false
    case Number(n) => n != 0
    case Boolean(b) => b
  }

  /** What the card renders around its discount: the badge in the corner,
      the struck-through list price beside the price, and any bare text. */
  datatype Node = Text(text: string) | Badge(caption: string) | StruckPrice(price: int)

  /** The value of `hasDiscount` as written, `discountPrice && discountPrice
      < price`: `undefined` without a discount price, the number 0 for a zero
      one, otherwise the comparison. */
  function HasDiscountValue(product: Product): (r: JsValue)
    ensures JsTruthy(r) <==> HasDiscount(product)
    ensures r.Number? <==> product.discountPrice == Some(0)
    ensures r.Undefined? <==> product.discountPrice.None?
  {
    match product.discountPrice
    case None => Undefined
    case Some(d) => if d == 0 then Number(0) else Boolean(d < product.price)
  }

  /** What a JSX child `{v && child}` renders: the child for a truthy value;
      for a falsy number its digits as text; nothing for `false` or `undefined`. */
  function RenderAnd(v: JsValue, child: Node): (r: seq<Node>)
    ensures |r| <= 1
    ensures r == [] <==> !JsTruthy(v) && !v.Number?
    ensures JsTruthy(v) ==> r == [child]
    ensures !JsTruthy(v) && v.Number? ==> r == [Text(IntString(v.n))]
  {
    if JsTruthy(v) then [child]
    else if v.Number? then [Text(IntString(v.n))]
    else []
  }

  /** The discount nodes as written: the badge corner and the price line,
      each gated by the number-or-boolean `hasDiscount`. */
  function DiscountNodesAsWritten(product: Product): (r: (seq<Node>, seq<Node>))
    ensures r.0 == RenderAnd(HasDiscountValue(product), Badge(IntString(DiscountPercentage(product)) + "% OFF"))
    ensures r.1 == RenderAnd(HasDiscountValue(product), StruckPrice(product.price))
  {
    var v := HasDiscountValue(product);
    (RenderAnd(v, Badge(IntString(DiscountPercentage(product)) + "% OFF")), RenderAnd(v, StruckPrice(product.price)))
  }

  /** A zero discount price makes `hasDiscount` the number 0, and React
      renders it as the text "0" in the corner and again after the price. */
  lemma StrayZeroAsWritten(product: Product)
    requires product.discountPrice == Some(0)
    ensures DiscountNodesAsWritten(product) == ([Text("0")], [Text("0")])
  {
    assert IntString(0) == "0";
  }

  /** The intended discount nodes, with `hasDiscount` a boolean
      (`!!discountPrice && …`): the badge and the struck list price appear
      exactly when there is a discount, and no bare text ever does. */
  function DiscountNodes(product: Product): (r: (seq<Node>, seq<Node>))
    ensures r.0 != [] <==> HasDiscount(product)
    ensures r.1 != [] <==> HasDiscount(product)
    ensures r.0 != [] ==> r.0 == [Badge(DiscountBadges(product)[0])]
    ensures r.1 != [] ==> r.1 == [StruckPrice(product.price)]
    ensures forall k :: 0 <= k < |r.0| ==> !r.0[k].Text?
    ensures forall k :: 0 <= k < |r.1| ==> !r.1[k].Text?
  {
    var v := Boolean(HasDiscount(product));
    (RenderAnd(v, Badge(IntString(DiscountPercentage(product)) + "% OFF")), RenderAnd(v, StruckPrice(product.price)))
  }

  /** The code as written renders what was intended on every product except
      one whose discount price is 0. */
  lemma AsWrittenDiffersOnlyAtZero(product: Product)
    ensures DiscountNodesAsWritten(product) == DiscountNodes(product) <==> product.discountPrice != Some(0)
  {
    if product.discountPrice == Some(0) {
      StrayZeroAsWritten(product);
      assert DiscountNodes(product).0 == [];
    }
  }

  /** The price line: the discount price when there is a discount, else the
      list price; what is shown never exceeds the list price. */
  function ShownPrice(product: Product): (r: int)
    ensures r <= product.price
    ensures r < product.price <==> HasDiscount(product)
    ensures r == product.price || Some(r) == product.discountPrice
  {
    if HasDiscount(product) then product.discountPrice.value else product.price
  }

  /** The lowercased category name, or '' without one. */
  function CategoryName(product: Product): string {
    if product.category.Some? && product.category.value.name.Some? then Lower(product.category.value.name.value) else ""
  }

  /** `getFallbackImageUrl`: the first keyword group the category name
      contains decides the image. */
  function FallbackImageUrl(product: Product): (r: string)
    ensures var n := CategoryName(product);
      (Contains(n, "electronics") || Contains(n, "phone") ==> r == ElectronicsFallback) &&
      (!Contains(n, "electronics") && !Contains(n, "phone") && (Contains(n, "clothing") || Contains(n, "apparel")) ==> r == ClothingFallback) &&
      (!Contains(n, "electronics") && !Contains(n, "phone") && !Contains(n, "clothing") && !Contains(n, "apparel") && Contains(n, "book") ==> r == BooksFallback) &&
      (!Contains(n, "electronics") && !Contains(n, "phone") && !Contains(n, "clothing") && !Contains(n, "apparel") && !Contains(n, "book") ==> r == ImageProcessor.GenericFallback)
    ensures ImageProcessor.IsLocalImage(r)
  {
    var n := CategoryName(product);
    assert ElectronicsFallback[..8] == ClothingFallback[..8] == BooksFallback[..8] == ImageProcessor.GenericFallback[..8] == "/images/";
    if Contains(n, "electronics") || Contains(n, "phone") then ElectronicsFallback
    else if Contains(n, "clothing") || Contains(n, "apparel") then ClothingFallback
    else if Contains(n, "book") then BooksFallback
    else ImageProcessor.GenericFallback
  }

  /** The empty string contains no non-empty text. */
  lemma EmptyContainsNothing(t: string)
    requires t != ""
    ensures !Contains("", t)
  {
  }

  /** A product without a category name gets the generic image. */
  lemma NoCategoryGeneric(product: Product)
    requires product.category.None? || product.category.value.name.None?
    ensures FallbackImageUrl(product) == ImageProcessor.GenericFallback
  {
    EmptyContainsNothing("electronics");
    EmptyContainsNothing("phone");
    EmptyContainsNothing("clothing");
    EmptyContainsNothing("apparel");
    EmptyContainsNothing("book");
  }

  /** The `src` the card starts with: the primary image's URL when truthy,
      else the category fallback. */
  function ImageSource(product: Product): (r: string)
    ensures var p := PrimaryImage(product);
      (p.Some? && Truthy(p.value.url) ==> r == p.value.url.value) &&
      (!(p.Some? && Truthy(p.value.url)) ==> r == FallbackImageUrl(product))
  {
    var p := PrimaryImage(product);
    if p.Some? && Truthy(p.value.url) then p.value.url.value else FallbackImageUrl(product)
  }

  /** `displayTags`: at most the first two tags of the first content entry. */
  function DisplayTags(product: Product): (r: seq<Tag>)
    ensures |r| <= 2
    ensures product.content.Some? && |product.content.value| > 0 && product.content.value[0].tags.Some? ==>
      var tags := product.content.value[0].tags.value;
      r == tags[..if |tags| < 2 then |tags| else 2]
    ensures product.content.None? || product.content.value == [] ==> r == []
    ensures product.content.Some? && product.content.value != [] && product.content.value[0].tags.None? ==> r == []
  {
    if product.content.Some? && |product.content.value| > 0 && product.content.value[0].tags.Some? then
      var tags := product.content.value[0].tags.value;
      tags[..if |tags| < 2 then |tags| else 2]
    else []
  }

  /** The stock badges shown: "Only N left" for 1..5 units, "Out of Stock" at
      0, nothing otherwise; never both. */
  function StockBadges(stockQuantity: int): (r: seq<string>)
    ensures |r| <= 1
    ensures r == ["Only " + IntString(stockQuantity) + " left"] <==> 0 < stockQuantity <= 5
    ensures r == ["Out of Stock"] <==> stockQuantity == 0
    ensures r == [] <==> stockQuantity < 0 || stockQuantity > 5
  {
    var lowLabel := "Only " + IntString(stockQuantity) + " left";
    var low := if stockQuantity <= 5 && stockQuantity > 0 then [lowLabel] else [];
    var out := if stockQuantity == 0 then ["Out of Stock"] else [];
    assert lowLabel != "Out of Stock" by {
      assert lowLabel[1] == 'n' != "Out of Stock"[1];
    }
    assert [lowLabel] != ["Out of Stock"] by {
      assert [lowLabel][0] != ["Out of Stock"][0];
    }
    low + out
  }

  datatype HoverAction = QuickView | AddToWishlist | AddToCart

  /** The hover actions, in display order. */
  function HoverActions(hasWishlistHandler: bool, hasCartHandler: bool, stockQuantity: int): (r: seq<HoverAction>)
    ensures |r| >= 1 && r[0] == QuickView
    ensures AddToCart in r <==> hasCartHandler && stockQuantity > 0
    ensures AddToWishlist in r <==> hasWishlistHandler
    ensures |r| == 1 + (if hasWishlistHandler then 1 else 0) + (if hasCartHandler && stockQuantity > 0 then 1 else 0)
    // No action twice, and the wishlist button comes before add-to-cart.
    ensures forall i, j :: 0 <= i < j < |r| ==> r[i] != r[j]
    ensures forall i, j :: 0 <= i < |r| && 0 <= j < |r| && r[i] == AddToWishlist && r[j] == AddToCart ==> i < j
  {
    [QuickView] + (if hasWishlistHandler then [AddToWishlist] else []) +
      (if hasCartHandler && stockQuantity > 0 then [AddToCart] else [])
  }

  /** `handleCardClick`: with analytics on, which is the default, the view
      of this product is posted for the card's user; recording failures are
      caught, so the card always navigates to the product page. */
  method CardClick(analytics: AnalyticsService.AnalyticsService, product: Product, userId: Option<string>,
                   timestamp: nat, suffix: string, showAnalytics: bool := true)
    returns (posted: Option<AnalyticsService.Event>, navigateTo: Route)
    modifies analytics.session`analyticsSessionId
    ensures navigateTo == ProductPage(product.id)
    ensures showAnalytics <==> posted.Some?
    ensures posted.Some? ==> posted.value.ProductView? && posted.value.productId == IntString(product.id) &&
                             posted.value.userId == userId
    ensures posted.Some? && Truthy(old(analytics.session.analyticsSessionId)) ==>
      posted.value.sessionId == old(analytics.session.analyticsSessionId).value
    ensures posted.Some? && !Truthy(old(analytics.session.analyticsSessionId)) ==>
      posted.value.sessionId == SessionIds.GeneratedSessionId(timestamp, suffix)
    ensures posted.Some? ==> analytics.session.analyticsSessionId == Some(posted.value.sessionId)
    ensures !showAnalytics ==> analytics.session.analyticsSessionId == old(analytics.session.analyticsSessionId)
  {
    posted := None;
    if showAnalytics {
      var event := analytics.RecordProductView(IntString(product.id), userId, None, timestamp, suffix);
      posted := Some(event);
    }
    navigateTo := ProductPage(product.id);
  }
}
