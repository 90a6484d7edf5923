/** The cart page: its layout as a function of the cart, the quantity buttons
    of each line, and the delete confirmation, whose marked id is the page's
    only state of its own. */
module CartPage {
  import opened Types
  import opened CartEngine
  import opened Storefront

  /** The cart page's two layouts. A filled cart lists its lines and shows the
      heading count, the unit count and the amount due. */
  datatype Layout =
    | EmptyCart
    | Filled(lines: seq<CartItem>, heading: int, itemCount: int, total: int)

  /** The page as the component computes it from the cart it receives. */
  function PageLayout(cart: Cart): (l: Layout)
    ensures l.EmptyCart? <==> cart == map[]
    ensures l.Filled? ==> l.lines == Entries(cart) && l.heading == |cart|
    ensures l.Filled? ==> l.itemCount == TotalItems(cart) && l.total == TotalPrice(cart)
  {
    var items := Entries(cart);
    NonEmptySize(cart);
    if |items| == 0 then EmptyCart
    else Filled(items, |items|, Fold(items, Units), Fold(items, Amount))
  }

  /** In a well-formed cart the unit count is at least the heading count,
      which is at least one, and the amount due is not negative. */
  lemma FilledCounts(cart: Cart)
    requires WellFormed(cart)
    ensures PageLayout(cart).Filled? ==>
      PageLayout(cart).itemCount >= PageLayout(cart).heading >= 1 && PageLayout(cart).total >= 0
  {
    TotalsBounds(cart);
    NonEmptySize(cart);
  }

  /** The pages the cart page's buttons lead to: browsing from an empty cart;
      browsing or checking out from a filled one. */
  function Exits(l: Layout): (vs: seq<View>)
    ensures Products in vs
    ensures Checkout in vs <==> l.Filled?
  {
    match l
    case EmptyCart => [Products]
    case Filled(_, _, _, _) => [Products, Checkout]
  }

  /** The short category label under a line's name. */
  function LineCategoryLabel(c: Category): string
  {
    match c
    case Doors => "أبواب"
    case Windows => "نوافذ"
    case _ => "منتج"
  }

  /** Doors and windows have labels of their own; the other three categories
      share one. */
  lemma LineCategoryLabels(c: Category)
    ensures LineCategoryLabel(c) == LineCategoryLabel(Wedding) <==> c != Doors && c != Windows
    ensures LineCategoryLabel(Doors) != LineCategoryLabel(Windows)
  {
  }

  /** The decrement button: disabled at one unit or fewer, otherwise it asks
      for one unit less. */
  function DecrementRequest(item: CartItem): (q: Option<int>)
    ensures q.Some? <==> item.quantity > 1
    ensures q.Some? ==> q.value == item.quantity - 1 && q.value >= 1
  {
    if item.quantity <= 1 then None else Some(item.quantity - 1)
  }

  /** The increment button asks for one unit more. */
  function IncrementRequest(item: CartItem): (q: int)
    ensures q > item.quantity
  {
    item.quantity + 1
  }

  /** A click on the increment button adds one unit and the line's price,
      and the cart stays well formed. */
  lemma IncrementTotals(cart: Cart, id: int)
    requires WellFormed(cart) && id in cart
    ensures var up := SetItemQuantity(cart, id, IncrementRequest(cart[id]));
      WellFormed(up) &&
      TotalItems(up) == TotalItems(cart) + 1 &&
      TotalPrice(up) == TotalPrice(cart) + cart[id].price
  {
    var p, q := cart[id].price, cart[id].quantity;
    var n := IncrementRequest(cart[id]);
    assert n - q == 1;
    SetItemQuantityTotals(cart, id, n);
    assert p * (n - q) == p;
  }

  /** A click on an enabled decrement button takes one unit and the line's
      price away, and the cart stays well formed. */
  lemma DecrementTotals(cart: Cart, id: int)
    requires WellFormed(cart) && id in cart
    requires DecrementRequest(cart[id]).Some?
    ensures var down := SetItemQuantity(cart, id, DecrementRequest(cart[id]).value);
      WellFormed(down) &&
      TotalItems(down) == TotalItems(cart) - 1 &&
      TotalPrice(down) == TotalPrice(cart) - cart[id].price
  {
    var p, q := cart[id].price, cart[id].quantity;
    var n := DecrementRequest(cart[id]).value;
    assert n - q == -1;
    SetItemQuantityTotals(cart, id, n);
    assert p * (n - q) == -p;
  }

  /** What the delete-confirmation slot renders. A marked id of 0 is falsy:
      the slot renders the number itself as text and no dialog. */
  datatype ModalSlot = NoModal | ZeroText | DeleteDialog(id: int)

  function ModalFor(mark: Option<int>): (m: ModalSlot)
    ensures m.DeleteDialog? <==> mark.Some? && mark.value != 0
    ensures m.DeleteDialog? ==> mark == Some(m.id)
    ensures m == ZeroText <==> mark == Some(0)
  {
    match mark
    case None => NoModal
    case Some(id) => if id == 0 then ZeroText else DeleteDialog(id)
  }

  /** The cart page's own state: the id waiting for delete confirmation. */
  class CartView {
    var itemToDelete: Option<int>

    constructor ()
      ensures itemToDelete == None
    {
      itemToDelete := None;
    }

    /** The trash button of a line only marks it; the cart is untouched. */
    method PressTrash(id: int, app: App)
      requires id in app.cart
      modifies this
      ensures itemToDelete == Some(id)
      ensures ModalFor(itemToDelete).DeleteDialog? <==> id != 0
    {
      itemToDelete := Some(id);
    }

    /** The dialog's confirm button: a truthy mark is removed from the cart
        and cleared; a missing or zero mark does nothing. */
    method ConfirmDelete(app: App)
      requires app.Valid()
      modifies this, app
      ensures app.Valid()
      ensures match old(itemToDelete)
        case Some(id) =>
          if id != 0 then
            itemToDelete == None &&
            app.State() == old(app.State()).(cart := RemoveItem(old(app.cart), id))
          else
            itemToDelete == old(itemToDelete) && app.State() == old(app.State())
        case None => itemToDelete == None && app.State() == old(app.State())
    {
      match itemToDelete {
        case Some(id) =>
          if id != 0 {
            app.DeleteItem(id);
            itemToDelete := None;
          }
        case None =>
      }
    }

    /** The dialog's cancel button clears the mark and removes nothing. */
    method CancelDelete()
      modifies this
      ensures itemToDelete == None
    {
      itemToDelete := None;
    }

    /** A line's decrement button; a click on the disabled button does nothing. */
    method PressDecrement(app: App, id: int)
      requires app.Valid() && id in app.cart
      modifies app
      ensures app.Valid()
      ensures match DecrementRequest(old(app.cart)[id])
        case None => app.State() == old(app.State())
        case Some(q) => app.State() == old(app.State()).(cart := SetItemQuantity(old(app.cart), id, q))
    {
      match DecrementRequest(app.cart[id]) {
        case None =>
        case Some(q) => app.UpdateItemQuantity(id, q);
      }
    }

    /** A line's increment button. */
    method PressIncrement(app: App, id: int)
      requires app.Valid() && id in app.cart
      modifies app
      ensures app.Valid()
      ensures app.State()
           == old(app.State()).(cart := SetItemQuantity(old(app.cart), id, IncrementRequest(old(app.cart)[id])))
    {
      app.UpdateItemQuantity(id, IncrementRequest(app.cart[id]));
    }

    /** The browse, continue-shopping and checkout buttons. */
    method Leave(app: App, target: View)
      requires target in Exits(PageLayout(app.cart))
      modifies app
      ensures app.State() == old(app.State()).(view := target)
    {
      app.SetView(target);
    }
  }
}
