/** The root component of the storefront: the six pieces of page state, the
    handlers that replace them, the header's cart badge and the switch that
    picks the main content from the current page. */
module Storefront {
  import opened Types
  import opened CartEngine

  /** The root component's state as one value. */
  datatype AppState = AppState(
    view: View,
    cart: Cart,
    selectedProduct: Option<Product>,
    mobileMenuOpen: bool,
    contactModalOpen: bool,
    darkMode: bool)

  /** The entries of the desktop navigation bar and of the mobile menu. */
  datatype NavTarget =
    | GoHome | GoProducts | GoAiDesign | GoGallery | GoCustomDesign | GoAbout | GoContact

  /** The page a navigation entry shows; the contact entry opens the
      customer-service modal instead. */
  function NavView(t: NavTarget): (v: Option<View>)
    ensures v.None? <==> t == GoContact
  {
    match t
    case GoHome => Some(HomeView)
    case GoProducts => Some(Products)
    case GoAiDesign => Some(AiDesign)
    case GoGallery => Some(HomeView)
    case GoCustomDesign => Some(CustomDesign)
    case GoAbout => Some(About)
    case GoContact => None
  }

  /** Pressing a navigation entry. The gallery entry goes home and closes the
      mobile menu in both menus; every mobile entry closes the menu; the other
      desktop entries leave the menu as it is. */
  function AfterNav(s: AppState, t: NavTarget, mobile: bool): (r: AppState)
    ensures r.cart == s.cart && r.selectedProduct == s.selectedProduct && r.darkMode == s.darkMode
    ensures mobile || t == GoGallery ==> !r.mobileMenuOpen
    ensures !mobile && t != GoGallery ==> r.mobileMenuOpen == s.mobileMenuOpen
    ensures t == GoContact ==> r.view == s.view && r.contactModalOpen
    ensures t != GoContact ==> Some(r.view) == NavView(t) && r.contactModalOpen == s.contactModalOpen
  {
    var menu := if mobile || t == GoGallery then false else s.mobileMenuOpen;
    match NavView(t)
    case None => s.(contactModalOpen := true, mobileMenuOpen := menu)
    case Some(v) => s.(view := v, mobileMenuOpen := menu)
  }

  /** What the main area shows. */
  datatype Screen =
    | HomeScreen
    | CatalogScreen
    | DetailScreen(product: Product)
    | CartScreen(cart: Cart)
    | CheckoutScreen(cartTotal: int, cart: Cart)
    | AiDesignScreen
    | CustomDesignScreen
    | SuccessScreen
    | AboutScreen
    | PaymentScreen(ccp: bool)
    | NoScreen

  /** The page a screen belongs to. */
  function ScreenView(sc: Screen): Option<View>
  {
    match sc
    case HomeScreen => Some(HomeView)
    case CatalogScreen => Some(Products)
    case DetailScreen(_) => Some(ProductDetail)
    case CartScreen(_) => Some(CartView)
    case CheckoutScreen(_, _) => Some(Checkout)
    case AiDesignScreen => Some(AiDesign)
    case CustomDesignScreen => Some(CustomDesign)
    case SuccessScreen => Some(Success)
    case AboutScreen => Some(About)
    case PaymentScreen(ccp) => Some(if ccp then PaymentCcp else PaymentEdahabia)
    case NoScreen => None
  }

  /** The main content switch. The detail page needs a selected product and
      shows nothing without one; the checkout page gets the cart and the
      cart's amount due. */
  function MainContent(s: AppState): (sc: Screen)
    ensures sc == NoScreen <==> s.view == ProductDetail && s.selectedProduct.None?
    ensures sc != NoScreen ==> ScreenView(sc) == Some(s.view)
    ensures sc.DetailScreen? ==> s.selectedProduct == Some(sc.product)
    ensures sc.CartScreen? ==> sc.cart == s.cart
    ensures sc.CheckoutScreen? ==> sc.cart == s.cart && sc.cartTotal == TotalPrice(s.cart)
  {
    match s.view
    case HomeView => HomeScreen
    case Products => CatalogScreen
    case ProductDetail =>
      (match s.selectedProduct
       case Some(p) => DetailScreen(p)
       case None => NoScreen)
    case CartView => CartScreen(s.cart)
    case Checkout => CheckoutScreen(TotalPrice(s.cart), s.cart)
    case AiDesign => AiDesignScreen
    case CustomDesign => CustomDesignScreen
    case Success => SuccessScreen
    case About => AboutScreen
    case PaymentCcp => PaymentScreen(true)
    case PaymentEdahabia => PaymentScreen(false)
  }

  /** The header badge: the unit count, shown only when it is positive. */
  function CartBadge(cart: Cart): (b: Option<int>)
    ensures b.Some? ==> b.value >= 1
  {
    var n := TotalItems(cart);
    if n > 0 then Some(n) else None
  }

  /** In a well-formed cart the badge shows exactly when the cart has a line,
      and it shows at least the number of lines. */
  lemma BadgeShownIffNonEmpty(cart: Cart)
    requires WellFormed(cart)
    ensures CartBadge(cart).Some? <==> cart != map[]
    ensures CartBadge(cart).Some? ==> CartBadge(cart).value >= |cart|
  {
    TotalsBounds(cart);
  }

  /** The root component. Each method is one handler; the cart handlers keep
      the cart well formed. */
  class App {
    var view: View
    var cart: Cart
    var selectedProduct: Option<Product>
    var mobileMenuOpen: bool
    var contactModalOpen: bool
    var darkMode: bool

    function State(): AppState
      reads this
    {
      AppState(view, cart, selectedProduct, mobileMenuOpen, contactModalOpen, darkMode)
    }

    ghost predicate Valid()
      reads this
    {
      WellFormed(cart)
    }

    /** The home page, an empty cart, nothing selected, every toggle off. */
    constructor ()
      ensures State() == AppState(HomeView, map[], None, false, false, false)
      ensures Valid()
    {
      view := HomeView;
      cart := map[];
      selectedProduct := None;
      mobileMenuOpen := false;
      contactModalOpen := false;
      darkMode := false;
    }

    /** `setView`, as the logo, the cart button and the child pages call it. */
    method SetView(v: View)
      modifies this
      ensures State() == old(State()).(view := v)
    {
      view := v;
    }

    /** A product card's details action: select the product, then show it. */
    method OpenProduct(p: Product)
      modifies this
      ensures State() == old(State()).(selectedProduct := Some(p), view := ProductDetail)
      ensures MainContent(State()) == DetailScreen(p)
    {
      selectedProduct := Some(p);
      view := ProductDetail;
    }

    /** A navigation entry of the desktop bar (mobile false) or of the mobile
        menu (mobile true). */
    method Navigate(t: NavTarget, mobile: bool)
      modifies this
      ensures State() == AfterNav(old(State()), t, mobile)
    {
      match NavView(t) {
        case None => contactModalOpen := true;
        case Some(v) => view := v;
      }
      if mobile || t == GoGallery {
        mobileMenuOpen := false;
      }
    }

    method ToggleMobileMenu()
      modifies this
      ensures State() == old(State()).(mobileMenuOpen := !old(mobileMenuOpen))
    {
      mobileMenuOpen := !mobileMenuOpen;
    }

    method ToggleDarkMode()
      modifies this
      ensures State() == old(State()).(darkMode := !old(darkMode))
    {
      darkMode := !darkMode;
    }

    method CloseContactModal()
      modifies this
      ensures State() == old(State()).(contactModalOpen := false)
    {
      contactModalOpen := false;
    }

    /** The confirm button of the two payment-information pages. */
    method ConfirmPayment()
      requires view == PaymentCcp || view == PaymentEdahabia
      modifies this
      ensures State() == old(State()).(view := Success)
    {
      view := Success;
    }

    /** The success page's button back home. */
    method LeaveSuccess()
      requires view == Success
      modifies this
      ensures State() == old(State()).(view := HomeView)
    {
      view := HomeView;
    }

    /** `handleAddToCart`. */
    method HandleAddToCart(p: Product)
      requires Valid()
      modifies this
      ensures State() == old(State()).(cart := AddToCart(old(cart), p))
      ensures Valid()
    {
      cart := AddToCart(cart, p);
    }

    /** `setItemQuantity`. */
    method UpdateItemQuantity(id: int, quantity: int)
      requires Valid()
      modifies this
      ensures State() == old(State()).(cart := SetItemQuantity(old(cart), id, quantity))
      ensures Valid()
    {
      cart := SetItemQuantity(cart, id, quantity);
    }

    /** `removeItem`. */
    method DeleteItem(id: int)
      requires Valid()
      modifies this
      ensures State() == old(State()).(cart := RemoveItem(old(cart), id))
      ensures Valid()
    {
      cart := RemoveItem(cart, id);
    }
  }
}
