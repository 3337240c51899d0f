/** Record shapes shared by the storefront components (types/index.ts).
    Money and ratings are exact `real`s; JavaScript numbers are not modelled. */
module Types {

  datatype Option<+T> = None | Some(value: T)

  /** A catalog entry. `originalPrice`, `createdAt` and `updatedAt` are optional keys. */
  datatype Product = Product(
    id: string,
    name: string,
    price: real,
    originalPrice: Option<real>,
    image: string,
    images: seq<string>,
    category: string,
    description: string,
    rating: real,
    reviews: int,
    inStock: bool,
    tags: seq<string>,
    brand: string,
    createdAt: Option<string>,
    updatedAt: Option<string>)

  /** `Omit<Product, 'id'>`: what the product form submits and what the page turns into a product. */
  datatype ProductData = ProductData(
    name: string,
    price: real,
    originalPrice: Option<real>,
    image: string,
    images: seq<string>,
    category: string,
    description: string,
    rating: real,
    reviews: int,
    inStock: bool,
    tags: seq<string>,
    brand: string,
    createdAt: Option<string>,
    updatedAt: Option<string>)

  /** A product without its id. */
  function DataOf(p: Product): ProductData
  {
    ProductData(p.name, p.price, p.originalPrice, p.image, p.images, p.category, p.description,
      p.rating, p.reviews, p.inStock, p.tags, p.brand, p.createdAt, p.updatedAt)
  }

  /** One key of an object spread `{ ...current, ...patch }`: a key present in the patch wins. */
  function Pick<T>(o: Option<T>, current: T): T
  {
    if o.Some? then o.value else current
  }

  /** `Partial<Product>`: a key that is present overwrites; for an optional key,
      `Some(None)` is a key that is present with the value `undefined`. */
  datatype ProductPatch = ProductPatch(
    id: Option<string>,
    name: Option<string>,
    price: Option<real>,
    originalPrice: Option<Option<real>>,
    image: Option<string>,
    images: Option<seq<string>>,
    category: Option<string>,
    description: Option<string>,
    rating: Option<real>,
    reviews: Option<int>,
    inStock: Option<bool>,
    tags: Option<seq<string>>,
    brand: Option<string>,
    createdAt: Option<Option<string>>,
    updatedAt: Option<Option<string>>)

  datatype CartItem = CartItem(product: Product, quantity: int)

  datatype Role = Admin | Customer

  datatype User = User(
    id: string,
    name: string,
    email: string,
    avatar: Option<string>,
    role: Role,
    createdAt: string,
    twoFactorEnabled: Option<bool>,
    carbonOffset: Option<real>)

  /** `Partial<User>`, with the same convention as `ProductPatch`. */
  datatype UserPatch = UserPatch(
    id: Option<string>,
    name: Option<string>,
    email: Option<string>,
    avatar: Option<Option<string>>,
    role: Option<Role>,
    createdAt: Option<string>,
    twoFactorEnabled: Option<Option<bool>>,
    carbonOffset: Option<Option<real>>)

  /** The catalog criteria; `priceRange` is the pair (low, high). */
  datatype FilterState = FilterState(
    category: string,
    priceRange: (real, real),
    brand: string,
    rating: real,
    inStock: bool)

  datatype OrderStatus = Pending | Processing | Shipped | Delivered | Cancelled

  datatype Address = Address(street: string, city: string, state: string, zipCode: string, country: string)

  datatype PaymentInfo = PaymentInfo(cardNumber: string, expiryDate: string, cvv: string, cardholderName: string)

  datatype Order = Order(
    id: string,
    userId: string,
    items: seq<CartItem>,
    total: real,
    status: OrderStatus,
    shippingAddress: Address,
    paymentMethod: string,
    createdAt: string,
    trackingNumber: Option<string>,
    carbonOffset: real,
    charityDonation: real)

  datatype Recommendation = Recommendation(productId: string, reason: string, confidence: real)

  /** A chat line; `timestamp` stands for the `Date` the component stamps on it. */
  datatype ChatMessage = ChatMessage(
    id: string,
    text: string,
    isBot: bool,
    timestamp: string,
    recommendations: Option<seq<Recommendation>>)
}
