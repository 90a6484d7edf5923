# A verified model of the storefront's client-side state

This project models the browser side of a single-page shop for wrought-iron
products: doors, windows, wedding pieces, home pieces and tools. The pages
are written in Arabic and sold in Algerian dinars. The model covers:

- the cart, which maps each product id to a line item (the product plus a
  quantity), and its three updaters: add, set quantity and remove;
- the two cart totals, the unit count and the amount due;
- the root component's page state and the handlers that change it:
  eleven pages, the selected product, the mobile menu, the contact modal
  and dark mode;
- the cart page, with its ± buttons and its two-step delete confirmation;
- the checkout page: the payment method, the order message, the phone
  pattern, the `isSubmitting` flag and the branch taken on the response;
- the product list's category and search filter;
- the product detail page's main image and category label.

Module layout, one module per source file:

| module | file | source |
|---|---|---|
| `Types` | types.dfy | types.ts |
| `Text` | text.dfy | string helpers: substring, join/split, decimal digits |
| `CartEngine` | cart_engine.dfy | the cart updaters and totals of App.tsx |
| `Storefront` | storefront.dfy | the page state and handlers of App.tsx (`class App`) |
| `CartPage` | cart_page.dfy | components/Cart.tsx (`class CartView`) |
| `CheckoutPage` | checkout.dfy | components/Checkout.tsx (`class CheckoutForm`) |
| `Catalog` | product_list.dfy | components/ProductList.tsx (`class ProductBrowser`) |
| `DetailPage` | product_detail.dfy | components/ProductDetail.tsx (`class ProductDetailView`) |

Pure parts of the source are Dafny functions. These are the cart updaters,
the `reduce` totals, the filter, the payment label, the order details and
the response branch. Parts that hold component state are classes whose
methods update fields: `App`, `CartView`, `CheckoutForm`, `ProductBrowser`
and `ProductDetailView`. Each handler's postcondition gives the new state as
a function of the old one. The cart handlers also keep the cart well formed:
every key is its line's id, and every quantity is at least 1.

The cart is an object keyed by product id, and `Object.values` returns its
lines in ascending id order. The model enumerates the lines in that order
(`Entries`) and proves the totals do not depend on it (`TotalsIgnoreOrder`).

## Model

| member | source | states |
|---|---|---|
| Types.CategoryIdRoundTrip | types.ts:8 | every product category has a string id that parses back to that same category |
| Types.ParseCategory | types.ts:8 | a string parses to a category only if it is that category's id |
| Types.CartItemRoundTrip | types.ts:12-14 | a cart line is exactly a product plus a quantity: splitting it and rebuilding it gives the same line |
| Types.WithQuantity | types.ts:12-14 | a line built from a product and a quantity carries every field of the product and that quantity |
| Types.ViewIdRoundTrip | types.ts:16 | every page tag parses back to the page it names |
| Types.ParseView | types.ts:16 | a string parses to a page only if it is that page's tag |
| Types.ElevenViews | types.ts:16 | there are exactly eleven page tags, all distinct, all parse, and every page has one |
| CartEngine.AddToCart | App.tsx:32-39 | adding an absent product inserts one line with quantity 1; adding a present one raises only that line's quantity by 1 and keeps the stored copy; no other line changes; the keys grow by exactly the product's id; well-formedness is kept |
| CartEngine.SetItemQuantity | App.tsx:44-51 | a quantity below 1 or an absent id leaves the cart unchanged; otherwise only that line's quantity becomes exactly the request; the keys stay the same; well-formedness is kept |
| CartEngine.RemoveItem | App.tsx:54-59 | only the id's line is deleted, the others are untouched; an absent id is a no-op; well-formedness is kept |
| CartEngine.AddTimesFromEmpty | App.tsx:33-39 | n adds of one product to an empty cart give a single line of quantity n |
| CartEngine.RemoveIdempotent | App.tsx:54-59 | removing twice equals removing once |
| CartEngine.SetQuantityUndo | App.tsx:44-51 | setting a line's quantity and then setting back the old one restores the cart |
| CartEngine.AddThenRemove | App.tsx:32-59 | removing a product after adding it leaves the cart as if it had only been removed |
| CartEngine.SortedKeys | App.tsx:73 | the enumeration order of the cart's ids is strictly increasing and lists each id exactly once |
| CartEngine.IncreasingUnique | App.tsx:73 | two strictly increasing sequences of the same ids are equal, so the enumeration order is determined |
| CartEngine.Entries | App.tsx:73 | the cart's lines, one per id, in ascending id order |
| CartEngine.FoldPermutation | App.tsx:74-75 | a sum over cart lines does not depend on their order |
| CartEngine.TotalsIgnoreOrder | App.tsx:73-75 | any enumeration of the cart's lines gives the same unit count and amount due |
| CartEngine.FoldAppend | App.tsx:74-75 | a sum over two concatenated runs of lines is the sum of their sums |
| CartEngine.SumWithout | App.tsx:74-75 | the sum over a cart is one line's weight plus the sum over the cart without that line |
| CartEngine.EmptyTotals | App.tsx:74-75 | the empty cart has 0 units and costs 0 |
| CartEngine.TotalsBounds | App.tsx:74-75 | in a well-formed cart the unit count is at least the number of lines and is 0 only for the empty cart; the amount due is not negative |
| CartEngine.AddToCartTotals | App.tsx:32-39 | an add raises the unit count by 1 and the amount due by the stored line's price |
| CartEngine.AddTimesTotals | App.tsx:32-39 | n adds of one product to an empty cart give n units costing n times its price |
| CartEngine.SetItemQuantityTotals | App.tsx:44-51 | setting a quantity moves the unit count by the quantity change and the amount due by price times that change |
| CartEngine.RemoveItemTotals | App.tsx:54-59 | removing a line takes its quantity and its line total away from the totals |
| Storefront.NavView | App.tsx:102-111 | every navigation entry except contact names a page to show |
| Storefront.AfterNav | App.tsx:61-63 | the gallery entry goes home and closes the mobile menu; every mobile entry closes the menu; desktop entries leave it as it is; contact opens the modal and keeps the page; the cart, the selection and dark mode never change |
| Storefront.App.Navigate | App.tsx:146-154 | a mobile-menu or desktop navigation click turns the page state into exactly `AfterNav` of the old state |
| Storefront.MainContent | App.tsx:164-262 | the main area shows the current page's content; the detail page shows the selected product and nothing at all without one; the checkout page gets the cart and its amount due |
| Storefront.CartBadge | App.tsx:130-132 | the header badge shows the unit count only when it is at least 1 |
| Storefront.BadgeShownIffNonEmpty | App.tsx:130-132 | for a well-formed cart the badge shows exactly when the cart has a line, and it is at least the number of lines |
| Storefront.App.constructor | App.tsx:16-21 | the app starts on the home page with an empty cart, nothing selected, and the menu, the modal and dark mode off |
| Storefront.App.SetView | App.tsx:88 | only the page changes |
| Storefront.App.OpenProduct | App.tsx:168 | the product becomes selected, the page becomes its detail page, and the main area shows exactly that product |
| Storefront.App.ToggleMobileMenu | App.tsx:136 | only the mobile-menu flag flips |
| Storefront.App.ToggleDarkMode | App.tsx:121 | only the dark-mode flag flips |
| Storefront.App.CloseContactModal | App.tsx:290 | only the contact modal closes |
| Storefront.App.ConfirmPayment | App.tsx:282 | the confirm button of a payment page leads to the success page |
| Storefront.App.LeaveSuccess | App.tsx:254 | the success page's button leads home |
| Storefront.App.HandleAddToCart | App.tsx:32-39 | the cart becomes `AddToCart` of the old cart, nothing else changes, and the cart stays well formed |
| Storefront.App.UpdateItemQuantity | App.tsx:44-51 | the cart becomes `SetItemQuantity` of the old cart, nothing else changes, and the cart stays well formed |
| Storefront.App.DeleteItem | App.tsx:54-59 | the cart becomes `RemoveItem` of the old cart, nothing else changes, and the cart stays well formed |
| CartPage.PageLayout | components/Cart.tsx:15-46 | an empty cart shows the empty layout; a filled cart lists its lines in enumeration order, heads with the number of lines, and shows the unit count and the amount due, which are the app's totals |
| CartPage.FilledCounts | components/Cart.tsx:46-107 | on a filled page the unit count is at least the heading count, which is at least 1, and the amount due is not negative |
| CartPage.Exits | components/Cart.tsx:25-38 | both layouts lead to the product list; only a filled cart leads to checkout |
| CartPage.LineCategoryLabels | components/Cart.tsx:65 | doors and windows have labels of their own; the other three categories share one |
| CartPage.DecrementRequest | components/Cart.tsx:76-77 | the decrement button is enabled exactly above one unit and asks for one unit less, never below 1 |
| CartPage.IncrementRequest | components/Cart.tsx:82 | the increment button asks for more than the current quantity |
| CartPage.IncrementTotals | components/Cart.tsx:82 | an increment adds one unit and the line's price to the totals and keeps the cart well formed |
| CartPage.DecrementTotals | components/Cart.tsx:76-77 | an enabled decrement removes one unit and the line's price from the totals and keeps the cart well formed |
| CartPage.ModalFor | components/Cart.tsx:122 | the delete dialog shows exactly for a marked nonzero id; a marked id of 0 renders as the text "0" |
| CartPage.CartView.constructor | components/Cart.tsx:13 | nothing is marked for deletion at first |
| CartPage.CartView.PressTrash | components/Cart.tsx:88 | the trash button only marks the line; the dialog shows unless the id is 0 |
| CartPage.CartView.ConfirmDelete | components/Cart.tsx:18-23 | a marked nonzero id is removed from the cart and the mark cleared; with no mark, or a mark of 0, nothing changes |
| CartPage.CartView.CancelDelete | components/Cart.tsx:140 | cancelling clears the mark and removes nothing |
| CartPage.CartView.PressDecrement | components/Cart.tsx:76-77 | the decrement button sets one unit less, and a disabled one changes nothing; the cart stays well formed |
| CartPage.CartView.PressIncrement | components/Cart.tsx:82 | the increment button sets one unit more; the cart stays well formed |
| CartPage.CartView.Leave | components/Cart.tsx:34-112 | the browse, continue and checkout buttons change only the page, and only to a page the layout offers |
| CheckoutPage.PaymentLabelInjective | components/Checkout.tsx:38 | the three payment methods have three different labels |
| CheckoutPage.ConfirmationView | components/Checkout.tsx:56-59 | after an OK response, cash leads to success, CCP to the CCP page and Edahabia to the Edahabia page, and no other method leads to each |
| CheckoutPage.ReactionTo | components/Checkout.tsx:56-67 | only an OK response changes the page; a non-OK response with a readable body alerts the submission error; a failed request or an unreadable error body alerts the connection error |
| CheckoutPage.OrderLines | components/Checkout.tsx:25-26 | one order line per cart line, in order |
| CheckoutPage.OrderLineMentions | components/Checkout.tsx:26 | each order line contains the item's name, its quantity in decimal and its formatted price |
| CheckoutPage.OrderLineFree | components/Checkout.tsx:26 | an order line has no line break when the name and the formatted price have none |
| CheckoutPage.OrderDetailsEmpty | components/Checkout.tsx:25-27 | an empty cart gives empty order details |
| CheckoutPage.OrderDetailsLines | components/Checkout.tsx:25-27 | splitting the order details at line breaks gives back exactly one line per cart line, in cart order |
| CheckoutPage.MatchesDigitsIff | components/Checkout.tsx:95 | the pattern of n digit classes accepts exactly the strings of n decimal digits |
| CheckoutPage.PhoneAcceptedIff | components/Checkout.tsx:95 | the phone field accepts exactly 10 characters, each 0-9 |
| CheckoutPage.PayloadMentions | components/Checkout.tsx:32-44 | the reply address is the customer's e-mail; the message and subject name the customer; the amount and the subject carry the formatted total |
| CheckoutPage.PayloadFromApp | components/Checkout.tsx:39-43 | on the app's checkout page the amount sent is the cart's amount due and the details are those of the app's cart |
| CheckoutPage.CheckoutForm.constructor | components/Checkout.tsx:13-14 | the payment method starts as cash and nothing is being submitted |
| CheckoutPage.CheckoutForm.ChoosePayment | components/Checkout.tsx:126-134 | a radio button sets the payment method only |
| CheckoutPage.CheckoutForm.Submit | components/Checkout.tsx:16-44 | while submitting, or with an incomplete form, nothing is sent; otherwise the page marks itself submitting and sends the payload built from the form, the current payment method, the cart and the total |
| CheckoutPage.CheckoutForm.Settle | components/Checkout.tsx:56-70 | the page navigates or alerts as the outcome says; the submitting flag is cleared in every outcome and the cart is never changed |
| CheckoutPage.CheckoutForm.Back | components/Checkout.tsx:76 | the back button changes only the page, to the cart |
| Catalog.CategoryIdsCoverCategories | components/ProductList.tsx:11-18 | the filter bar offers "all" and then one id per product category |
| Catalog.Filter | components/ProductList.tsx:24-31 | a product is shown exactly when it is in the catalog, matches the category (or "all") and its lower-cased name or description contains the lower-cased query |
| Catalog.FilterKeepsOrder | components/ProductList.tsx:24 | the shown products are the catalog with some products left out, in catalog order |
| Catalog.OpeningShowsAll | components/ProductList.tsx:21-28 | with "all" and an empty query the whole catalog is shown |
| Catalog.GridFor | components/ProductList.tsx:69-126 | the no-results notice shows exactly when no product is listed; otherwise the cards are the filtered products |
| Catalog.OldPriceSlotFor | components/ProductList.tsx:83-107 | the struck old price shows exactly for a nonzero old price; an old price of 0 renders as the text "0" |
| Catalog.ProductBrowser.constructor | components/ProductList.tsx:21-22 | the list opens on "all" with an empty query, showing the whole catalog |
| Catalog.ProductBrowser.Search | components/ProductList.tsx:48 | typing sets the query only |
| Catalog.ProductBrowser.PickCategory | components/ProductList.tsx:57 | a category button sets the category only; every shown product then belongs to it |
| Catalog.ProductBrowser.Reset | components/ProductList.tsx:134 | the reset button restores "all" and the empty query, showing the whole catalog |
| Catalog.ProductBrowser.ViewDetails | components/ProductList.tsx:91 | a card's details button selects and opens exactly that card's product |
| Catalog.ProductBrowser.AddFromCard | components/ProductList.tsx:115 | a card's cart button adds exactly that card's product |
| DetailPage.CategoryLabels | components/ProductDetail.tsx:56-58 | doors, windows and wedding pieces have distinct labels; home and tools share the fallback label |
| DetailPage.ProductDetailView.constructor | components/ProductDetail.tsx:12 | the main image starts as the first image, or undefined when there is none |
| DetailPage.ProductDetailView.ClickThumbnail | components/ProductDetail.tsx:36-41 | a thumbnail makes its image the main one, so the main image stays one of the product's images |
| DetailPage.ProductDetailView.OldPrice | components/ProductDetail.tsx:74 | the struck old price shows exactly for a nonzero old price |
| DetailPage.ProductDetailView.PressAddToCart | components/ProductDetail.tsx:87 | the add button adds the displayed product unchanged |
| DetailPage.ProductDetailView.Back | components/ProductDetail.tsx:17 | the back button changes only the page, to the product list |
| Text.SplitJoin | components/Checkout.tsx:27 | splitting lines joined with a separator they do not contain gives the lines back |
| Text.DecimalRoundTrip | components/Checkout.tsx:26 | the decimal rendering of a quantity reads back as that quantity |

## Left out

- The AI design generator and the customer-service chat (components/AiDesignGenerator.tsx, components/CustomerServiceModal.tsx) call an external AI service. They are not part of this model; only the modal's open flag is kept.
- The network request to the form service is not modelled. Its result is the `Outcome` parameter of `CheckoutPage.CheckoutForm.Settle`: OK, non-OK with a readable or unreadable body, or a failed request. The window alert becomes the returned message.
- Number formatting (`toLocaleString`) is a parameter `fmt`, and lower-casing (`toLowerCase`) is a parameter `lower`. Neither is interpreted. Quantities in the order line use plain decimal digits, as a template literal does.
- The browser's form validation is modelled as `FormComplete`: required fields non-empty and the phone pattern. The e-mail field's format check is reduced to non-emptiness.
- The 100 ms scroll timer, `scrollIntoView`, the dark-mode class on the document element, the gallery modal's timers and the hero parallax are DOM or timer effects and are not modelled. The state changes around them are.
- Prices are JavaScript numbers; the model takes them as whole dinar amounts (`nat`), so there is no floating point.
- The product, wilaya and team data module is not part of this model. The catalog is a parameter sequence.
- The custom-design form posts straight from the browser with no script logic; it is only the `CustomDesign` page.
- Hero, About and the work gallery are static presentation beyond the page changes already in `Storefront.App`.
- Cart keys are JavaScript strings. The model keys the cart by integer id and enumerates lines in ascending id order, which is the order `Object.values` uses for non-negative integer keys. Negative ids would enumerate in insertion order; the totals are proved order-independent either way.
- CartEngine.AddTimesTotals: only states the totals for repeated adds to an empty cart; the single-add step (`CartEngine.AddToCartTotals`) covers any cart.
- The cart is never cleared after a successful order, and the model keeps it that way: `Settle` states the cart is unchanged in every outcome.
