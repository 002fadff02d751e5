/** The records the storefront exchanges with its backend, reduced to the fields
    the modelled rules read. Prices are integer cents. A field the source marks
    optional, or reads with `?.`, is an `Option`. */
module Types {
  import opened Wrappers

  datatype Category = Category(id: int, name: Option<string>)

  /** `processedUrl` is added by the image processor; a backend image has none. */
  datatype ProductImage = ProductImage(
    id: int,
    url: Option<string>,
    altText: Option<string>,
    isPrimary: bool,
    processedUrl: Option<string>)

  /** A content tag is normally an object with a name (and an optional value);
      the renderer also accepts a bare scalar. */
  datatype Tag = ObjectTag(name: Option<string>, value: Option<string>) | ScalarTag(text: string)

  datatype ProductDocument = ProductDocument(id: string, name: string, url: string, docType: string)

  /** One content entry of a product. `specifications` lists the entries of the
      specification object in the order `Object.entries` yields them, each value
      already rendered as text. */
  datatype ProductContent = ProductContent(
    description: Option<string>,
    richDescription: Option<string>,
    features: Option<seq<string>>,
    specifications: Option<seq<(string, string)>>,
    tags: Option<seq<Tag>>,
    documents: Option<seq<ProductDocument>>,
    videoUrls: Option<seq<string>>)

  datatype Product = Product(
    id: int,
    name: Option<string>,
    price: int,
    discountPrice: Option<int>,
    stockQuantity: int,
    images: Option<seq<ProductImage>>,
    category: Option<Category>,
    content: Option<seq<ProductContent>>)

  datatype ProductVariant = ProductVariant(id: int, name: string, value: string, priceAdjustment: int, stockQuantity: int)

  /** A guest cart line as kept in browser storage. */
  datatype LocalCartItem = LocalCartItem(
    productId: int,
    quantity: int,
    selectedVariants: Option<seq<ProductVariant>>,
    price: int)

  datatype CartItem = CartItem(id: int, product: Product, quantity: int, selectedVariants: Option<seq<ProductVariant>>, price: int)

  datatype Cart = Cart(id: int, customerId: int, items: seq<CartItem>, totalAmount: int)

  datatype Role = Customer | Admin

  datatype User = User(id: int, email: string, name: string, role: Role)

  /** The client-side routes the modelled components navigate to. */
  datatype Route = ProductPage(productId: int) | ProductsPage | LoginPage | AdminPage | UnauthorizedPage | CartPage
}
