/** The checkout page: the payment choice, the order message sent to the form
    service, and what the page does with the service's answer. The number
    formatting of amounts (`toLocaleString`) is a parameter `fmt`. */
module CheckoutPage {
  import opened Types
  import opened Text
  import opened CartEngine
  import opened Storefront

  datatype PaymentMethod = Cash | Ccp | Edahabia

  /** The payment label sent with the order. */
  function PaymentLabel(m: PaymentMethod): string
  {
    if m == Cash then "الدفع عند الاستلام"
    else if m == Ccp then "بريد الجزائر CCP"
    else "البطاقة الذهبية"
  }

  /** The three labels are distinct, so the order says which method was chosen. */
  lemma PaymentLabelInjective(m1: PaymentMethod, m2: PaymentMethod)
    ensures PaymentLabel(m1) == PaymentLabel(m2) ==> m1 == m2
  {
    assert PaymentLabel(Cash)[0] != PaymentLabel(Ccp)[0];
    assert PaymentLabel(Cash)[2] != PaymentLabel(Edahabia)[2];
    assert PaymentLabel(Ccp)[0] != PaymentLabel(Edahabia)[0];
  }

  /** The page an accepted order leads to. */
  function ConfirmationView(m: PaymentMethod): (v: View)
    ensures v == Success <==> m == Cash
    ensures v == PaymentCcp <==> m == Ccp
    ensures v == PaymentEdahabia <==> m == Edahabia
  {
    match m
    case Ccp => PaymentCcp
    case Edahabia => PaymentEdahabia
    case Cash => Success
  }

  /** How the request ends: an OK response, a non-OK response whose body does
      or does not parse as JSON, or a failed `fetch`. */
  datatype Outcome = Accepted | Rejected(bodyParses: bool) | Unreachable

  const SubmitErrorAlert: string :=
    "حدث خطأ أثناء إرسال الطلب. يرجى التأكد من البيانات والمحاولة مرة أخرى."
  const NetworkAlert: string := "تعذر الاتصال بالخادم، تأكد من اتصالك بالإنترنت."

  datatype Reaction = GoTo(view: View) | Alert(message: string)

  /** The response branch. Only an OK response changes the page. A non-OK
      response alerts the submission error, unless reading its body throws:
      then control reaches the catch block and the network alert shows. */
  function ReactionTo(m: PaymentMethod, o: Outcome): (r: Reaction)
    ensures r.GoTo? <==> o == Accepted
    ensures r.GoTo? ==> r.view == ConfirmationView(m)
    ensures r == Alert(SubmitErrorAlert) <==> o == Rejected(true)
    ensures r == Alert(NetworkAlert) <==> o == Unreachable || o == Rejected(false)
  {
    match o
    case Accepted => GoTo(ConfirmationView(m))
    case Rejected(parses) => if parses then Alert(SubmitErrorAlert) else Alert(NetworkAlert)
    case Unreachable => Alert(NetworkAlert)
  }

  // ---------------------------------------------------------------------
  // The order message

  /** One line of the order details. */
  function OrderLine(item: CartItem, fmt: int -> string): string
  {
    "- " + item.name + " (الكمية: " + IntToDecimal(item.quantity) + ") - السعر: "
      + fmt(item.price) + " د.ج"
  }

  /** `cartItems.map(...)`: one line per item, in order. */
  function OrderLines(items: seq<CartItem>, fmt: int -> string): (lines: seq<string>)
    ensures |lines| == |items|
    ensures forall i | 0 <= i < |items| :: lines[i] == OrderLine(items[i], fmt)
  {
    if items == [] then [] else [OrderLine(items[0], fmt)] + OrderLines(items[1..], fmt)
  }

  /** The order details: the lines joined by newlines. */
  function OrderDetails(cart: Cart, fmt: int -> string): string
  {
    Join(OrderLines(Entries(cart), fmt), '\n')
  }

  /** A line names the item, its quantity in decimal and its formatted price. */
  lemma OrderLineMentions(item: CartItem, fmt: int -> string)
    ensures Contains(OrderLine(item, fmt), item.name)
    ensures Contains(OrderLine(item, fmt), IntToDecimal(item.quantity))
    ensures Contains(OrderLine(item, fmt), fmt(item.price))
  {
    var q, p := IntToDecimal(item.quantity), fmt(item.price);
    var a, b, c := " (الكمية: ", ") - السعر: ", " د.ج";
    var line := OrderLine(item, fmt);
    assert line == "- " + item.name + (a + q + b + p + c);
    ContainsMiddle("- ", item.name, a + q + b + p + c);
    assert line == ("- " + item.name + a) + q + (b + p + c);
    ContainsMiddle("- " + item.name + a, q, b + p + c);
    assert line == ("- " + item.name + a + q + b) + p + c;
    ContainsMiddle("- " + item.name + a + q + b, p, c);
  }

  lemma FreeAppend(a: string, b: string, sep: char)
    ensures Free(a + b, sep) <==> Free(a, sep) && Free(b, sep)
  {
    if Free(a, sep) && Free(b, sep) {
      forall i | 0 <= i < |a + b| ensures (a + b)[i] != sep {
        if i >= |a| { assert (a + b)[i] == b[i - |a|]; }
      }
    }
    if Free(a + b, sep) {
      forall i | 0 <= i < |a| ensures a[i] != sep {
        assert (a + b)[i] == a[i];
      }
      forall i | 0 <= i < |b| ensures b[i] != sep {
        assert (a + b)[|a| + i] == b[i];
      }
    }
  }

  /** A line holds no newline when the name and the formatted price hold none. */
  lemma OrderLineFree(item: CartItem, fmt: int -> string)
    requires Free(item.name, '\n') && Free(fmt(item.price), '\n')
    ensures Free(OrderLine(item, fmt), '\n')
  {
    var q := IntToDecimal(item.quantity);
    FreeAppend("- ", item.name, '\n');
    FreeAppend("- " + item.name, " (الكمية: ", '\n');
    FreeAppend("- " + item.name + " (الكمية: ", q, '\n');
    FreeAppend("- " + item.name + " (الكمية: " + q, ") - السعر: ", '\n');
    FreeAppend("- " + item.name + " (الكمية: " + q + ") - السعر: ", fmt(item.price), '\n');
    FreeAppend("- " + item.name + " (الكمية: " + q + ") - السعر: " + fmt(item.price), " د.ج", '\n');
  }

  /** An empty cart gives empty details. */
  lemma OrderDetailsEmpty(fmt: int -> string)
    ensures OrderDetails(map[], fmt) == ""
  {
    assert Entries(map[]) == [];
  }

  /** Splitting the details at newlines gives back exactly one line per cart
      line, in the cart's enumeration order, provided no product name and no
      formatted price holds a newline. */
  lemma OrderDetailsLines(cart: Cart, fmt: int -> string)
    requires cart != map[]
    requires forall k | k in cart :: Free(cart[k].name, '\n') && Free(fmt(cart[k].price), '\n')
    ensures Split(OrderDetails(cart, fmt), '\n') == OrderLines(Entries(cart), fmt)
    ensures |Split(OrderDetails(cart, fmt), '\n')| == |cart|
  {
    var items := Entries(cart);
    var lines := OrderLines(items, fmt);
    var ks := SortedKeys(cart.Keys);
    forall i | 0 <= i < |lines| ensures Free(lines[i], '\n') {
      assert ks[i] in ks;
      OrderLineFree(items[i], fmt);
    }
    NonEmptySize(cart);
    SplitJoin(lines, '\n');
  }

  // ---------------------------------------------------------------------
  // The form

  /** The form's fields as `FormData` reads them. */
  datatype ContactForm = ContactForm(
    name: string, phone: string, email: string, wilaya: string, address: string)

  /** `[0-9]{n}` matched against the whole string. */
  predicate MatchesDigits(s: string, n: nat)
  {
    if n == 0 then s == []
    else s != [] && IsDigit(s[0]) && MatchesDigits(s[1..], n - 1)
  }

  lemma {:induction false} MatchesDigitsIff(s: string, n: nat)
    ensures MatchesDigits(s, n) <==> |s| == n && AllDigits(s)
  {
    if n > 0 && s != [] {
      MatchesDigitsIff(s[1..], n - 1);
      if AllDigits(s) {
        assert forall i | 0 <= i < |s[1..]| :: s[1..][i] == s[i + 1];
      }
      if IsDigit(s[0]) && AllDigits(s[1..]) {
        forall i | 0 <= i < |s| ensures IsDigit(s[i]) {
          if i > 0 { assert s[i] == s[1..][i - 1]; }
        }
      }
    }
  }

  /** The phone field's pattern `[0-9]{10}`. */
  predicate PhoneAccepted(phone: string)
  {
    MatchesDigits(phone, 10)
  }

  /** The phone field takes exactly ten characters, each a digit. */
  lemma PhoneAcceptedIff(phone: string)
    ensures PhoneAccepted(phone) <==> |phone| == 10 && AllDigits(phone)
  {
    MatchesDigitsIff(phone, 10);
  }

  /** The browser submits the form only when every required field is filled
      in (the wilaya list's placeholder has the empty value) and the phone
      matches its pattern. */
  predicate FormComplete(f: ContactForm)
  {
    f.name != "" && PhoneAccepted(f.phone) && f.email != "" && f.wilaya != "" && f.address != ""
  }

  /** The JSON body posted to the form service. */
  datatype OrderPayload = OrderPayload(
    email: string,
    name: string,
    phone: string,
    wilaya: string,
    address: string,
    paymentMethod: string,
    totalAmount: string,
    orderDetails: string,
    message: string,
    replyTo: string,
    subject: string)

  function BuildPayload(f: ContactForm, m: PaymentMethod, cart: Cart, cartTotal: int,
                        fmt: int -> string): OrderPayload
  {
    OrderPayload(
      f.email, f.name, f.phone, f.wilaya, f.address,
      PaymentLabel(m),
      fmt(cartTotal) + " د.ج",
      OrderDetails(cart, fmt),
      "طلبية جديدة من " + f.name,
      f.email,
      "طلب جديد من " + f.name + " - القيمة: " + fmt(cartTotal) + " د.ج")
  }

  /** The reply address is the customer's e-mail; the message and the subject
      name the customer; the amount and the subject carry the formatted
      total the page was given. */
  lemma PayloadMentions(f: ContactForm, m: PaymentMethod, cart: Cart, cartTotal: int,
                        fmt: int -> string)
    ensures var d := BuildPayload(f, m, cart, cartTotal, fmt);
      d.replyTo == d.email == f.email &&
      Contains(d.message, f.name) &&
      Contains(d.subject, f.name) &&
      Contains(d.subject, fmt(cartTotal)) &&
      Contains(d.totalAmount, fmt(cartTotal))
  {
    var d := BuildPayload(f, m, cart, cartTotal, fmt);
    var head, mid, tail := "طلب جديد من ", " - القيمة: ", " د.ج";
    ContainsMiddle("طلبية جديدة من ", f.name, "");
    assert d.message == "طلبية جديدة من " + f.name + "";
    ContainsMiddle(head, f.name, mid + fmt(cartTotal) + tail);
    assert d.subject == head + f.name + (mid + fmt(cartTotal) + tail);
    ContainsMiddle(head + f.name + mid, fmt(cartTotal), tail);
    assert d.subject == (head + f.name + mid) + fmt(cartTotal) + tail;
    ContainsMiddle("", fmt(cartTotal), tail);
    assert d.totalAmount == "" + fmt(cartTotal) + tail;
  }

  /** On the storefront's checkout page the amount sent is the cart's amount
      due and the details are those of the cart shown. */
  lemma PayloadFromApp(s: AppState, f: ContactForm, m: PaymentMethod, fmt: int -> string)
    requires s.view == Checkout
    ensures MainContent(s).CheckoutScreen?
    ensures var sc := MainContent(s);
      var d := BuildPayload(f, m, sc.cart, sc.cartTotal, fmt);
      d.totalAmount == fmt(TotalPrice(s.cart)) + " د.ج" &&
      d.orderDetails == OrderDetails(s.cart, fmt)
  {
  }

  /** A request in flight: the payload and the payment method the submit
      handler saw. */
  datatype Request = Request(payload: OrderPayload, payment: PaymentMethod)

  /** The checkout page's own state. */
  class CheckoutForm {
    var paymentMethod: PaymentMethod
    var isSubmitting: bool

    constructor ()
      ensures paymentMethod == Cash && !isSubmitting
    {
      paymentMethod := Cash;
      isSubmitting := false;
    }

    /** A payment radio button. */
    method ChoosePayment(m: PaymentMethod)
      modifies this
      ensures paymentMethod == m && isSubmitting == old(isSubmitting)
    {
      paymentMethod := m;
    }

    /** Submitting: nothing happens while the button is disabled or while the
        browser holds back an incomplete form; otherwise the page marks itself
        as submitting and posts the payload built from the props it was
        given. The request remembers the payment method of this submit. */
    method Submit(f: ContactForm, cart: Cart, cartTotal: int, fmt: int -> string)
      returns (req: Option<Request>)
      modifies this
      ensures paymentMethod == old(paymentMethod)
      ensures old(isSubmitting) || !FormComplete(f) ==>
        req == None && isSubmitting == old(isSubmitting)
      ensures !old(isSubmitting) && FormComplete(f) ==>
        isSubmitting &&
        req == Some(Request(BuildPayload(f, paymentMethod, cart, cartTotal, fmt), paymentMethod))
    {
      if isSubmitting || !FormComplete(f) {
        return None;
      }
      isSubmitting := true;
      req := Some(Request(BuildPayload(f, paymentMethod, cart, cartTotal, fmt), paymentMethod));
    }

    /** The request settles: navigate or alert as the outcome says, then
        re-enable the button. The cart is never touched. */
    method Settle(req: Request, outcome: Outcome, app: App) returns (alert: Option<string>)
      modifies this, app
      ensures !isSubmitting && paymentMethod == old(paymentMethod)
      ensures app.cart == old(app.cart)
      ensures match ReactionTo(req.payment, outcome)
        case GoTo(v) => app.State() == old(app.State()).(view := v) && alert == None
        case Alert(msg) => app.State() == old(app.State()) && alert == Some(msg)
    {
      alert := None;
      match ReactionTo(req.payment, outcome) {
        case GoTo(v) => app.SetView(v);
        case Alert(msg) => alert := Some(msg);
      }
      isSubmitting := false;
    }

    /** The back-to-cart button. */
    method Back(app: App)
      modifies app
      ensures app.State() == old(app.State()).(view := CartView)
    {
      app.SetView(CartView);
    }
  }
}
