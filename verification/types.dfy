/** The storefront's value types: products, cart lines, the page selector and
    the gallery and team records. A product's category and the page tag are
    closed string unions in the storefront; here they are enumerations with
    their string tags and the parsers back from those tags. */
module Types {

  datatype Option<+T> = None | Some(value: T)

  /** The five product categories. */
  datatype Category = Doors | Windows | Wedding | Home | Tools

  /** The string tag a category carries in the catalog and in the filter bar. */
  function CategoryId(c: Category): string
  {
    match c
    case Doors => "doors"
    case Windows => "windows"
    case Wedding => "wedding"
    case Home => "home"
    case Tools => "tools"
  }

  function ParseCategory(s: string): (r: Option<Category>)
    ensures r.Some? ==> CategoryId(r.value) == s
  {
    if s == "doors" then Some(Doors)
    else if s == "windows" then Some(Windows)
    else if s == "wedding" then Some(Wedding)
    else if s == "home" then Some(Home)
    else if s == "tools" then Some(Tools)
    else None
  }

  /** Every category tag parses back to its category, so no two categories
      share a tag. */
  lemma CategoryIdRoundTrip(c: Category)
    ensures ParseCategory(CategoryId(c)) == Some(c)
  {
  }

  /** A catalog product. Only the old (pre-discount) price is optional; the
      prices are whole dinar amounts. */
  datatype Product = Product(
    id: int,
    name: string,
    price: nat,
    oldPrice: Option<nat>,
    description: string,
    longDescription: string,
    category: Category,
    images: seq<string>)

  /** A cart line: every product field plus a quantity. */
  datatype CartItem = CartItem(
    id: int,
    name: string,
    price: nat,
    oldPrice: Option<nat>,
    description: string,
    longDescription: string,
    category: Category,
    images: seq<string>,
    quantity: int)

  /** `{ ...product, quantity }`: the product's fields copied into a cart line. */
  function WithQuantity(p: Product, quantity: int): (item: CartItem)
    ensures ProductOf(item) == p && item.quantity == quantity
  {
    CartItem(p.id, p.name, p.price, p.oldPrice, p.description, p.longDescription,
             p.category, p.images, quantity)
  }

  /** The product fields of a cart line. */
  function ProductOf(item: CartItem): Product
  {
    Product(item.id, item.name, item.price, item.oldPrice, item.description,
            item.longDescription, item.category, item.images)
  }

  /** A cart line is determined by its product fields and its quantity. */
  lemma CartItemRoundTrip(item: CartItem)
    ensures WithQuantity(ProductOf(item), item.quantity) == item
  {
  }

  /** The eleven mutually exclusive pages. */
  datatype View =
    | HomeView | Products | ProductDetail | CartView | Checkout | CustomDesign
    | AiDesign | About | Success | PaymentCcp | PaymentEdahabia

  function ViewId(v: View): string
  {
    match v
    case HomeView => "home"
    case Products => "products"
    case ProductDetail => "product-detail"
    case CartView => "cart"
    case Checkout => "checkout"
    case CustomDesign => "custom-design"
    case AiDesign => "ai-design"
    case About => "about"
    case Success => "success"
    case PaymentCcp => "payment-ccp"
    case PaymentEdahabia => "payment-edahabia"
  }

  function ParseView(s: string): (r: Option<View>)
    ensures r.Some? ==> ViewId(r.value) == s
  {
    if s == "home" then Some(HomeView)
    else if s == "products" then Some(Products)
    else if s == "product-detail" then Some(ProductDetail)
    else if s == "cart" then Some(CartView)
    else if s == "checkout" then Some(Checkout)
    else if s == "custom-design" then Some(CustomDesign)
    else if s == "ai-design" then Some(AiDesign)
    else if s == "about" then Some(About)
    else if s == "success" then Some(Success)
    else if s == "payment-ccp" then Some(PaymentCcp)
    else if s == "payment-edahabia" then Some(PaymentEdahabia)
    else None
  }

  /** Every page tag parses back to its page: the eleven tags are distinct. */
  lemma ViewIdRoundTrip(v: View)
    ensures ParseView(ViewId(v)) == Some(v)
  {
  }

  /** The page tags listed once each. */
  const AllViewIds: seq<string> := [
    "home", "products", "product-detail", "cart", "checkout", "custom-design",
    "ai-design", "about", "success", "payment-ccp", "payment-edahabia"]

  /** There are exactly eleven pages: the tag list has eleven distinct
      entries, each the tag of a page, and every page's tag is on it. */
  lemma ElevenViews()
    ensures |AllViewIds| == 11
    ensures forall i, j :: 0 <= i < j < |AllViewIds| ==> AllViewIds[i] != AllViewIds[j]
    ensures forall i :: 0 <= i < |AllViewIds| ==> ParseView(AllViewIds[i]).Some?
    ensures forall v: View :: ViewId(v) in AllViewIds
  {
    forall v: View ensures ViewId(v) in AllViewIds {
      match v
      case HomeView => assert AllViewIds[0] == ViewId(v);
      case Products => assert AllViewIds[1] == ViewId(v);
      case ProductDetail => assert AllViewIds[2] == ViewId(v);
      case CartView => assert AllViewIds[3] == ViewId(v);
      case Checkout => assert AllViewIds[4] == ViewId(v);
      case CustomDesign => assert AllViewIds[5] == ViewId(v);
      case AiDesign => assert AllViewIds[6] == ViewId(v);
      case About => assert AllViewIds[7] == ViewId(v);
      case Success => assert AllViewIds[8] == ViewId(v);
      case PaymentCcp => assert AllViewIds[9] == ViewId(v);
      case PaymentEdahabia => assert AllViewIds[10] == ViewId(v);
    }
  }

  /** A gallery entry (video or image). */
  datatype WorkKind = Video | Image
  datatype WorkItem = WorkItem(id: int, kind: WorkKind, url: string, thumbnailUrl: Option<string>, title: string)

  /** A team member shown on the about page. */
  datatype TeamMember = TeamMember(id: int, name: string, role: string, image: string, bio: string)
}
