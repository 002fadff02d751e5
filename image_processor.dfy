/** Image URL normalisation: every image URL a product carries is turned into
    one the browser can load, either an absolute URL, a bundled fallback image
    under /images/, or a path joined onto the API base URL. */
module ImageProcessor {
  import opened Wrappers
  import opened Text
  import opened Types

  const GenericFallback := "/images/product-fallback-generic.jpg"

  /** The base URL used when no environment variable overrides it. */
  const DefaultBaseUrl := "https://nestjs-blog-backend-ecommerce.desarrollo-software.xyz"

  predicate IsAbsolute(u: string) {
    StartsWith(u, "http://") || StartsWith(u, "https://")
  }

  predicate IsLocalImage(u: string) {
    StartsWith(u, "/images/")
  }

  /** The base URL with one trailing '/' removed, if it has one. */
  function Stem(base: string): (r: string)
    ensures r + "/" == base || r == base
    ensures StartsWith(r + "/", base)
  {
    if EndsWith(base, "/") then base[..|base| - 1] else base
  }

  /** `processImageUrl`, with the configured base URL as a parameter. */
  function ProcessImageUrl(baseUrl: string, imageUrl: Option<string>): (r: string)
    ensures r != ""
    ensures !Truthy(imageUrl) ==> r == GenericFallback
    ensures Truthy(imageUrl) && (IsAbsolute(imageUrl.value) || IsLocalImage(imageUrl.value)) ==> r == imageUrl.value
    // Both joining branches put exactly one '/' between the base (less one
    // trailing '/') and the path (less one leading '/').
    ensures Truthy(imageUrl) && !IsAbsolute(imageUrl.value) && !IsLocalImage(imageUrl.value) ==>
      var path := imageUrl.value;
      r == Stem(baseUrl) + "/" + (if path[0] == '/' then path[1..] else path)
  {
    if !Truthy(imageUrl) then GenericFallback
    else
      var url := imageUrl.value;
      if IsAbsolute(url) then url
      else if StartsWith(url, "/") then
        if IsLocalImage(url) then url
        else
          var cleanPath := url[1..];
          var base := if EndsWith(baseUrl, "/") then baseUrl[..|baseUrl| - 1] else baseUrl;
          base + "/" + cleanPath
      else
        var base := if EndsWith(baseUrl, "/") then baseUrl else baseUrl + "/";
        base + url
  }

  lemma StartsWithTrans(s: string, t: string, u: string)
    requires StartsWith(s, t) && StartsWith(t, u)
    ensures StartsWith(s, u)
  {
    assert s[..|u|] == s[..|t|][..|u|];
  }

  lemma StartsWithAppend(s: string, t: string, u: string)
    requires StartsWith(s, t)
    ensures StartsWith(s + u, t)
  {
    assert (s + u)[..|t|] == s[..|t|];
  }

  /** A joined URL begins with the base URL itself. */
  lemma {:induction false} JoinedStartsWithBase(baseUrl: string, imageUrl: Option<string>)
    requires Truthy(imageUrl) && !IsAbsolute(imageUrl.value) && !IsLocalImage(imageUrl.value)
    ensures StartsWith(ProcessImageUrl(baseUrl, imageUrl), baseUrl)
  {
    var path := imageUrl.value;
    var rest := if path[0] == '/' then path[1..] else path;
    StartsWithAppend(Stem(baseUrl) + "/", baseUrl, rest);
  }

  /** With an absolute base URL, every result is absolute or a bundled image. */
  lemma {:induction false} ResultIsLoadable(baseUrl: string, imageUrl: Option<string>)
    requires IsAbsolute(baseUrl)
    ensures var r := ProcessImageUrl(baseUrl, imageUrl); IsAbsolute(r) || IsLocalImage(r)
  {
    var r := ProcessImageUrl(baseUrl, imageUrl);
    if !Truthy(imageUrl) {
      assert r[..8] == "/images/";
    } else if !IsAbsolute(imageUrl.value) && !IsLocalImage(imageUrl.value) {
      JoinedStartsWithBase(baseUrl, imageUrl);
      if StartsWith(baseUrl, "http://") {
        StartsWithTrans(r, baseUrl, "http://");
      } else {
        StartsWithTrans(r, baseUrl, "https://");
      }
    }
  }

  /** With an absolute base URL, normalising an already normalised URL changes
      nothing. */
  lemma {:induction false} ProcessImageUrlIdempotent(baseUrl: string, imageUrl: Option<string>)
    requires IsAbsolute(baseUrl)
    ensures var r := ProcessImageUrl(baseUrl, imageUrl); ProcessImageUrl(baseUrl, Some(r)) == r
  {
    ResultIsLoadable(baseUrl, imageUrl);
  }

  /** One image with its `processedUrl` filled in from its own `url`. */
  function ProcessImage(baseUrl: string, image: ProductImage): (r: ProductImage)
    ensures r.(processedUrl := image.processedUrl) == image
    ensures r.processedUrl == Some(ProcessImageUrl(baseUrl, image.url))
  {
    image.(processedUrl := Some(ProcessImageUrl(baseUrl, image.url)))
  }

  /** A product whose every image carries its normalised URL; nothing else
      differs from the input. */
  function ProcessProduct(baseUrl: string, product: Product): (r: Product)
    ensures r.(images := product.images) == product
    ensures r.images.Some? <==> product.images.Some?
    ensures product.images.Some? ==>
      |r.images.value| == |product.images.value| &&
      forall k :: 0 <= k < |product.images.value| ==>
        r.images.value[k] == ProcessImage(baseUrl, product.images.value[k]) &&
        r.images.value[k].url == product.images.value[k].url &&
        r.images.value[k].processedUrl == Some(ProcessImageUrl(baseUrl, product.images.value[k].url))
  {
    match product.images
    case None => product
    case Some(images) =>
      product.(images := Some(seq(|images|, k requires 0 <= k < |images| => ProcessImage(baseUrl, images[k]))))
  }

  /** Processing is idempotent whatever the base URL: the processed URL is
      always recomputed from the untouched original URL. */
  lemma ProcessProductIdempotent(baseUrl: string, product: Product)
    ensures ProcessProduct(baseUrl, ProcessProduct(baseUrl, product)) == ProcessProduct(baseUrl, product)
  {
    var once := ProcessProduct(baseUrl, product);
    var twice := ProcessProduct(baseUrl, once);
    if product.images.Some? {
      assert twice.images.value == once.images.value;
    }
  }

  /** `processProductImages`: a missing product passes through. */
  function ProcessProductImages(baseUrl: string, product: Option<Product>): (r: Option<Product>)
    ensures r.Some? <==> product.Some?
    ensures product.Some? ==> r.value == ProcessProduct(baseUrl, product.value)
    ensures product.Some? ==> r.value.id == product.value.id && r.value.(images := product.value.images) == product.value
  {
    match product
    case None => None
    case Some(p) => Some(ProcessProduct(baseUrl, p))
  }

  /** `processProductsImages`: a missing or non-array input gives the empty
      list; otherwise every product is processed, in order. */
  function ProcessProductsImages(baseUrl: string, products: Option<seq<Product>>): (r: seq<Product>)
    ensures products.None? ==> r == []
    ensures products.Some? ==> |r| == |products.value|
    ensures products.Some? ==> forall k :: 0 <= k < |r| ==>
      r[k] == ProcessProduct(baseUrl, products.value[k]) && r[k].id == products.value[k].id
  {
    match products
    case None => []
    case Some(ps) => seq(|ps|, k requires 0 <= k < |ps| => ProcessProduct(baseUrl, ps[k]))
  }
}
