/** The simple catalog page: the product list with its two built-in fallback
    products, the search filter, the cart counter and the image choice. */
module ProductCatalog {
  import opened Wrappers
  import opened Text
  import opened Types
  import ImageProcessor
  import ProductService
  import ProductCard

  /** The two products shown when the backend cannot be reached; prices in cents. */
  const FallbackProducts: seq<Product> := [
    Product(1, Some("Samsung Galaxy Smartphone"), 59999, None, 10,
            Some([ProductImage(1, Some(ProductCard.ElectronicsFallback), Some("Samsung Galaxy"), true, None)]),
            Some(Category(1, Some("Electronics"))), None),
    Product(2, Some("Nike Air Max Sneakers"), 12999, None, 5,
            Some([ProductImage(2, Some(ImageProcessor.GenericFallback), Some("Nike Air Max"), true, None)]),
            Some(Category(2, Some("Fashion"))), None)
  ]

  const InvalidFormat := "Invalid response format from API"

  /** The search predicate: the lowercased name, or else the lowercased
      category name, contains the lowercased term. A missing name or category
      name never matches; an empty one matches the empty term. */
  predicate Matches(product: Product, searchTerm: string)
    ensures product.name.None? && (product.category.None? || product.category.value.name.None?) ==>
      !Matches(product, searchTerm)
    ensures product.name.Some? && Contains(Lower(product.name.value), Lower(searchTerm)) ==> Matches(product, searchTerm)
  {
    (product.name.Some? && Contains(Lower(product.name.value), Lower(searchTerm))) ||
    (product.category.Some? && product.category.value.name.Some? &&
     Contains(Lower(product.category.value.name.value), Lower(searchTerm)))
  }

  /** `filteredProducts`. */
  function Filter(products: seq<Product>, searchTerm: string): (r: seq<Product>)
    ensures |r| <= |products|
    ensures forall p :: p in r <==> p in products && Matches(p, searchTerm)
  {
    if products == [] then []
    else
      var rest := Filter(products[1..], searchTerm);
      assert forall p :: p in products <==> p == products[0] || p in products[1..];
      if Matches(products[0], searchTerm) then [products[0]] + rest else rest
  }

  /** The filter keeps order: filtering a concatenation concatenates the
      filtered parts. */
  lemma {:induction false} FilterConcat(a: seq<Product>, b: seq<Product>, searchTerm: string)
    ensures Filter(a + b, searchTerm) == Filter(a, searchTerm) + Filter(b, searchTerm)
  {
    if a == [] {
      assert a + b == b;
    } else {
      assert (a + b)[1..] == a[1..] + b;
      FilterConcat(a[1..], b, searchTerm);
    }
  }

  lemma ContainsEmpty(s: string)
    ensures Contains(s, "")
  {
    assert s[..0] == "";
  }

  /** The empty term keeps exactly the products that have a name or a
      category name. */
  lemma EmptyTermKeeps(products: seq<Product>)
    ensures forall p :: p in Filter(products, "") <==>
      p in products && (p.name.Some? || (p.category.Some? && p.category.value.name.Some?))
  {
    assert Lower("") == "";
    forall p: Product ensures Matches(p, "") <==> p.name.Some? || (p.category.Some? && p.category.value.name.Some?) {
      if p.name.Some? {
        ContainsEmpty(Lower(p.name.value));
      }
      if p.category.Some? && p.category.value.name.Some? {
        ContainsEmpty(Lower(p.category.value.name.value));
      }
    }
  }

  /** The catalog image: the first image's processed URL, else its URL, else
      the generic fallback. */
  function CatalogImage(product: Product): (r: string)
    ensures product.images.None? || product.images.value == [] ==> r == ImageProcessor.GenericFallback
    ensures product.images.Some? && product.images.value != [] ==>
      var first := product.images.value[0];
      (Truthy(first.processedUrl) ==> r == first.processedUrl.value) &&
      (!Truthy(first.processedUrl) && Truthy(first.url) ==> r == first.url.value) &&
      (!Truthy(first.processedUrl) && !Truthy(first.url) ==> r == ImageProcessor.GenericFallback)
    ensures r != ""
  {
    if product.images.Some? && |product.images.value| > 0 then
      var first := product.images.value[0];
      if Truthy(first.processedUrl) then first.processedUrl.value
      else if Truthy(first.url) then first.url.value
      else ImageProcessor.GenericFallback
    else ImageProcessor.GenericFallback
  }

  /** After `fetchProducts` has normalised a product's images, the catalog shows
      the normalised URL of its first image, never the raw one. */
  lemma CatalogShowsProcessed(baseUrl: string, product: Product)
    requires product.images.Some? && product.images.value != []
    ensures CatalogImage(ImageProcessor.ProcessProduct(baseUrl, product)) ==
            ImageProcessor.ProcessImageUrl(baseUrl, product.images.value[0].url)
  {
  }

  /** The catalog's error fallback image: electronics for 'electronics' or
      'phone' categories, generic otherwise. */
  function CatalogFallbackImage(product: Product): (r: string)
    ensures var n := ProductCard.CategoryName(product);
      r == ProductCard.ElectronicsFallback <==> Contains(n, "electronics") || Contains(n, "phone")
    ensures r == ProductCard.ElectronicsFallback || r == ImageProcessor.GenericFallback
  {
    var categoryName := ProductCard.CategoryName(product);
    var fallbackImage := ImageProcessor.GenericFallback;
    if Contains(categoryName, "electronics") || Contains(categoryName, "phone") then ProductCard.ElectronicsFallback
    else fallbackImage
  }

  /** On electronics the catalog and the card agree; elsewhere the catalog
      never picks the clothing or books image. */
  lemma CatalogFallbackRefinesCard(product: Product)
    ensures var card := ProductCard.FallbackImageUrl(product);
      card == ProductCard.ElectronicsFallback <==> CatalogFallbackImage(product) == ProductCard.ElectronicsFallback
  {
  }

  class CatalogPage {
    var products: seq<Product>
    var error: string
    var loading: bool
    var cartCount: int

    constructor ()
      ensures products == [] && error == "" && loading && cartCount == 0
    {
      products, error, loading, cartCount := [], "", true, 0;
    }

    /** The view that shows only the error, with no products. */
    predicate ErrorOnly()
      reads this
    {
      error != "" && |products| == 0
    }

    /** `fetchProducts`, with page 1 and 12 per page. An array in the
        response becomes the image-processed products; anything else is an
        error, and every error brings in the fallback products. */
    method FetchProducts(baseUrl: string, hybrid: Result<ProductService.Page, ApiError>, standard: Result<ProductService.Page, ApiError>)
      modifies this`products, this`error, this`loading
      ensures var outcome := ProductService.GetProducts(ProductService.NoFilters.(page := Some(1), limit := Some(12)), hybrid, standard).result;
        (outcome.Ok? && outcome.value.data.Some? ==>
          products == ImageProcessor.ProcessProductsImages(baseUrl, outcome.value.data) && error == "") &&
        (outcome.Ok? && outcome.value.data.None? ==> products == FallbackProducts && error == InvalidFormat) &&
        (outcome.Err? ==> products == FallbackProducts && error == outcome.error)
      ensures !loading && !ErrorOnly()
    {
      loading := true;
      error := "";
      var response := ProductService.GetProducts(ProductService.NoFilters.(page := Some(1), limit := Some(12)), hybrid, standard).result;
      if response.Ok? && response.value.data.Some? {
        products := ImageProcessor.ProcessProductsImages(baseUrl, response.value.data);
      } else {
        var message := if response.Ok? then InvalidFormat else response.error;
        error := if message != "" then message else "Failed to fetch products";
        products := FallbackProducts;
      }
      loading := false;
    }

    /** `addToCart`: the counter goes up by exactly one. */
    method AddToCart(productId: int)
      modifies this`cartCount
      ensures cartCount == old(cartCount) + 1
    {
      cartCount := cartCount + 1;
    }

    /** The cart badge, shown once anything was added. */
    predicate ShowCartBadge()
      reads this
      ensures ShowCartBadge() ==> cartCount >= 1
      ensures cartCount <= 0 ==> !ShowCartBadge()
    {
      cartCount > 0
    }
  }
}
