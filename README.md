# Storefront pricing, selection and page-state model

This project models, in Dafny, the logic inside the pages of a React
storefront (`saleso-customer-ts`) once the HTTP calls and rendering are set
aside:

- **Checkout** (`Checkout.dfy`): the payable total of each line under its one
  optional discount rule (`percentage`/`flash-sale`, `fixed`, `buy-x-get-y`),
  clamped at zero, and the order total. Choosing a discount for a product is
  also modelled. Two behaviours are kept as the page computes them: a
  buy-X-get-Y line drops the 20 shipping fee, and the order total adds 20 per
  line on top of line totals that already include it.
- **Cart** (`Cart.dfy`): line totals, the end total, the total of the ticked
  lines, ticking and unticking, the checkout hand-off of the ticked lines, and
  the rules that enable the quantity buttons.
- **Add-to-cart sidebar** (`Sidebar.dfy`, over the product record in
  `Catalog.dfy`): price and stock look-up with the attribute fallback, the
  quantity clamped to `[1, stock]`, the cyclic image carousel, the zoom kept
  within `[1, 3]` in half steps (stored as whole halves, 2 to 6), and the
  add-to-cart payload.
- **Product page** (`Product.dfy`): the advertised discount price, the
  crossed-out price, when the discount price is shown, and how many rating
  stars are lit.
- **Order history** (`Orders.dfy`): which orders each of the four tabs lists.
- **Small state machines**: the address list (`Addresses.dfy`), the
  wishlist (`Wishlist.dfy`), the cart sidebar's open flag and its
  `"open"`/`"closed"` local-storage encoding (`Layout.dfy`), and the account
  page (`Account.dfy`). The account page covers the age computed from a
  birthday, the values sent with a profile update, editing one field, and the
  flow from the verify dialog to the email, password and forgotten-password
  dialogs.

`Common.dfy` holds the shared pieces:

- an optional value, and JavaScript truthiness of an optional string;
- the order-preserving `filter` and the summing left-to-right `reduce` that
  the cart, checkout, order and wishlist pages build on, with their lemmas
  (subsequence, concatenation, permutation invariance of a sum, splitting a
  sum by a filter).

Money is `real` and quantities are `int`. Every HTTP call is either a
`serverOk` flag or an optional response (`None` for a failed call). The
current date is a parameter.

The model keeps the pages' error handling as the code has it:

- A discount of unknown kind keeps the undiscounted base total
  (`Checkout.UnknownKindIsNoDiscount`).
- The checkout page never rejects `buyQuantity <= 0` or a quantity above stock,
  and it has no error results, so neither does the model. Division by zero is
  excluded by the `ShapedDiscount` type. `quantity <= stock` is a precondition
  only of the lemma that bounds the free items.

## Model

| member | source | states |
|---|---|---|
| Cart.LineTotal | src/pages/CartPage.tsx:97 | a line total (price times quantity) is never negative for a non-negative price and quantity |
| Cart.SelectedItems | src/pages/CartPage.tsx:114-116 | the checkout lines are exactly the cart lines whose product id is selected, every copy of a repeated line kept, in cart order (a subsequence) |
| Cart.Toggled | src/pages/CartPage.tsx:89-95 | toggling flips the membership of the toggled id and leaves every other id's membership unchanged |
| Cart.StepDown | src/pages/CartPage.tsx:218-230 | "−" is disabled at quantity ≤ 1, so a step down keeps `1 ≤ quantity ≤ stock` and changes nothing else |
| Cart.StepUp | src/pages/CartPage.tsx:244-256 | "+" is disabled at quantity ≥ stock, so a step up keeps `1 ≤ quantity ≤ stock` and changes nothing else |
| Cart.EndTotal | src/pages/CartPage.tsx:99-101 | the sum of the line totals, left to right, and 0 while the cart is absent |
| Cart.SelectedTotal | src/pages/CartPage.tsx:103-106 | the sum of the line totals of the selected lines, and 0 while the cart is absent |
| Cart.DecrementEnabled | src/pages/CartPage.tsx:227 | "−" is enabled exactly when the quantity is above 1 |
| Cart.IncrementEnabled | src/pages/CartPage.tsx:253 | "+" is enabled exactly when the quantity is below the stock |
| Cart.SelectedTotalOfEmptySelection | src/pages/CartPage.tsx:103-106 | with nothing selected the selected total is 0 |
| Cart.SelectedTotalWhenAllSelected | src/pages/CartPage.tsx:99-106 | when every line is selected the selected total equals the end total |
| Cart.SelectedTotalAtMostEndTotal | src/pages/CartPage.tsx:99-106 | with non-negative prices and quantities, 0 ≤ selected total ≤ end total |
| Cart.ToggleTwiceRestores | src/pages/CartPage.tsx:89-95 | toggling an unselected id twice gives back the very same selection list, order included |
| Cart.CartPage.constructor | src/pages/CartPage.tsx:38-39 | the page starts with no cart and an empty selection |
| Cart.CartPage.FetchCartData | src/pages/CartPage.tsx:46-58 | a successful fetch replaces the cart; a failed one keeps it |
| Cart.CartPage.ToggleItemSelection | src/pages/CartPage.tsx:89-95 | the new selection is the toggled old one |
| Cart.CartPage.HandleCheckout | src/pages/CartPage.tsx:108-124 | refused exactly when the selection is empty; otherwise the items are `SelectedItems` of the cart (the selected lines, with their copies, in cart order), and missing exactly when the cart is |
| Checkout.LineTotal | src/pages/CheckoutPage.tsx:53-73 | every line total, under any discount rule, is ≥ 0 |
| Checkout.CalculateItemTotal | src/pages/CheckoutPage.tsx:53-73 | the page's running-total computation equals the line total under the discount applied to the line's product |
| Checkout.Discounted | src/pages/CheckoutPage.tsx:55-70 | the unclamped total under one discount rule: percentage kinds scale the base, `fixed` subtracts, buy-X-get-Y charges the bought and free items, any other kind keeps the base |
| Checkout.ItemTotal | src/pages/CheckoutPage.tsx:53-73 | the line total under the discount applied to the line's product, none when the product has no entry |
| Checkout.OrderTotal | src/pages/CheckoutPage.tsx:75-83 | the line totals summed in order, plus 20 per line |
| Checkout.UndiscountedLineTotal | src/pages/CheckoutPage.tsx:54-57 | with no discount applied, a line costs price × quantity + 20 |
| Checkout.PercentageKindsAgree | src/pages/CheckoutPage.tsx:58-59 | `percentage` and `flash-sale` give the same total, `max(base × (1 − value/100), 0)` |
| Checkout.ZeroPercentIsNoDiscount | src/pages/CheckoutPage.tsx:58-59 | a 0 percent discount leaves the line total undiscounted |
| Checkout.FullPercentIsFree | src/pages/CheckoutPage.tsx:58-72 | a percentage of 100 or more makes a line with a non-negative price cost 0 after the clamp |
| Checkout.FixedDiscountLineTotal | src/pages/CheckoutPage.tsx:60-72 | `fixed` subtracts its value from price × quantity + 20, clamped at 0 |
| Checkout.BuyGetLineTotal | src/pages/CheckoutPage.tsx:62-69 | buy-X-get-Y charges (quantity + free) × price with no shipping fee, and 0 ≤ free ≤ stock − quantity when quantity ≤ stock |
| Checkout.UnknownKindIsNoDiscount | src/pages/CheckoutPage.tsx:57-72 | a discount of any other kind leaves the undiscounted total |
| Checkout.OrderTotalOfNoItems | src/pages/CheckoutPage.tsx:75-83 | an empty order totals 0 |
| Checkout.OrderTotalAppend | src/pages/CheckoutPage.tsx:75-83 | one more line adds its line total plus another 20 |
| Checkout.OrderTotalAtLeastShipping | src/pages/CheckoutPage.tsx:75-83 | the order total is at least 20 per line |
| Checkout.OrderTotalPermutation | src/pages/CheckoutPage.tsx:77-80 | the order of the lines does not change the order total |
| Checkout.UndiscountedOrderTotal | src/pages/CheckoutPage.tsx:53-83 | with no discounts the order total is the cart's end total plus 2 × 20 per line (the shipping fee is charged twice) |
| Checkout.SelectingLeavesOtherLines | src/pages/CheckoutPage.tsx:98-102 | applying a discount to one product leaves every other product's line total unchanged |
| Checkout.CheckoutPage.constructor | src/pages/CheckoutPage.tsx:31-51 | the page opens on the stored checkout items (none when nothing is stored), no applied discount and a closed dialog |
| Checkout.CheckoutPage.HandleApplyDiscount | src/pages/CheckoutPage.tsx:85-96 | the product is remembered; a successful fetch lists the discounts and opens the dialog, and a failed one changes neither |
| Checkout.CheckoutPage.HandleSelectDiscount | src/pages/CheckoutPage.tsx:98-104 | only the current product's entry is set, every other applied discount is unchanged, and the dialog closes |
| Sidebar.FindAttribute | src/components/CartSidebar.tsx:101-103 | none exactly when no attribute has the value; otherwise the first attribute that has it |
| Sidebar.GetPrice | src/components/CartSidebar.tsx:97-107 | none without a product; the product price when present and non-zero; else the selected attribute's price; else none |
| Sidebar.GetStock | src/components/CartSidebar.tsx:109-119 | none without a product; the product stock whenever defined, 0 included; else the selected attribute's quantity; else none |
| Sidebar.ZeroPriceFallsBackZeroStockDoesNot | src/components/CartSidebar.tsx:97-119 | a zero price falls back to the attribute's price, while a zero stock is returned as it is |
| Sidebar.ClampQuantity | src/components/CartSidebar.tsx:124 | the result is ≤ stock, ≥ 1 when stock ≥ 1, and equal to the input when that is already in range |
| Sidebar.ClampIdempotent | src/components/CartSidebar.tsx:124 | clamping a clamped quantity returns it |
| Sidebar.NextIndex | src/components/CartSidebar.tsx:154-160 | with n > 0 images the next index is in [0, n), wrapping from the last to the first |
| Sidebar.PrevIndex | src/components/CartSidebar.tsx:162-169 | with n > 0 images the previous index is in [0, n), wrapping from the first to the last |
| Sidebar.PrevUndoesNext | src/components/CartSidebar.tsx:154-169 | previous undoes next, and next undoes previous |
| Sidebar.ZoomedIn | src/components/CartSidebar.tsx:171-173 | zooming in stays ≤ 3 and ≥ 1 from any level ≥ 1, one half step up below 3 |
| Sidebar.ZoomedOut | src/components/CartSidebar.tsx:175-177 | zooming out stays ≥ 1 and ≤ 3 from any level ≤ 3, one half step down above 1 |
| Sidebar.ZoomInThenOut | src/components/CartSidebar.tsx:171-177 | zooming in then out from any level ≤ 2.5 returns to it |
| Sidebar.CartSidebar.constructor | src/components/CartSidebar.tsx:52-60 | no product or attribute, quantity 1, first image, zoom 1 |
| Sidebar.CartSidebar.ProductLoaded | src/components/CartSidebar.tsx:69-72 | a loaded product with a non-empty attribute list selects its first attribute's value |
| Sidebar.CartSidebar.SelectAttribute | src/components/CartSidebar.tsx:291 | clicking an attribute selects its value |
| Sidebar.CartSidebar.HandleQuantityChange | src/components/CartSidebar.tsx:121-126 | with a known stock the quantity becomes the clamped value; with none it is unchanged |
| Sidebar.CartSidebar.NextImage | src/components/CartSidebar.tsx:154-160 | the index advances cyclically when a product is shown, and otherwise stays |
| Sidebar.CartSidebar.PrevImage | src/components/CartSidebar.tsx:162-169 | the index goes back cyclically when a product is shown, and otherwise stays |
| Sidebar.CartSidebar.HandleZoomIn | src/components/CartSidebar.tsx:171-173 | the zoom stays within [1, 3] |
| Sidebar.CartSidebar.HandleZoomOut | src/components/CartSidebar.tsx:175-177 | the zoom stays within [1, 3] |
| Sidebar.CartSidebar.HandleAddToCart | src/components/CartSidebar.tsx:128-138 | no payload without a product; otherwise product id and current quantity, with the attribute value exactly when the product has attributes and one is selected |
| Product.DiscountBase | src/pages/ProductPage.tsx:74-76 | the base is the product price when present and non-zero, otherwise the first attribute's price |
| Product.StruckPrice | src/pages/ProductPage.tsx:137-141 | the crossed-out price is the first attribute's price whenever attributes exist, otherwise the product price |
| Product.DiscountPrice | src/pages/ProductPage.tsx:74-76 | the base reduced by the maximum discount, `base × (1 − max_discount / 100)` |
| Product.ShowsDiscountPrice | src/pages/ProductPage.tsx:143 | the discount price is rendered when it is non-zero |
| Product.LitStars | src/pages/ProductPage.tsx:121-129 | the number of lit stars among the five drawn |
| Product.NoDiscountKeepsBase | src/pages/ProductPage.tsx:74-76 | a maximum discount of 0 gives the base |
| Product.FullDiscountIsZero | src/pages/ProductPage.tsx:74-76 | a maximum discount of 100 gives 0, which is then not shown |
| Product.DiscountPriceBounds | src/pages/ProductPage.tsx:74-76 | for a discount in [0, 100] and a non-negative base, 0 ≤ discount price ≤ base |
| Product.ShownExactly | src/pages/ProductPage.tsx:143 | the discount price is shown exactly when the base is non-zero and the discount is not 100 |
| Product.OppositePreferences | src/pages/ProductPage.tsx:137-141 | with both a non-zero price and attributes, the discount uses the price but the crossed-out value is the attribute's |
| Product.LitAmong | src/pages/ProductPage.tsx:121-129 | among stars 1..k at most k are lit |
| Product.LitAmongIsFloor | src/pages/ProductPage.tsx:121-129 | the lit stars among 1..k number the rating rounded down, kept within [0, k] |
| Product.LitStarsCount | src/pages/ProductPage.tsx:121-129 | star k is lit exactly when k ≤ the number of lit stars, which is the rating rounded down and kept within [0, 5] |
| Orders.InTab | src/pages/components/OrderContent.tsx:56-72 | the tab switch: each of the four tab names with its status rule, and no order for any other name |
| Orders.FilterOrders | src/pages/components/OrderContent.tsx:54-74 | a tab lists exactly the orders its rule accepts, each as many times as it occurs, as a subsequence in the original order |
| Orders.PendingTab | src/pages/components/OrderContent.tsx:57-58 | "Pending" lists exactly the pending orders |
| Orders.AcceptedSplitsByPayment | src/pages/components/OrderContent.tsx:59-67 | "In delivering" is accepted and unpaid, "Successful" is accepted and paid, and each accepted order is in exactly one of them |
| Orders.RefuseTab | src/pages/components/OrderContent.tsx:68-69 | "Refuse" lists the refused orders and every order with a non-empty return reason |
| Orders.RefuseOverlapsSuccessful | src/pages/components/OrderContent.tsx:64-69 | every paid accepted order with a non-empty return reason, in any list, is listed under both "Successful" and "Refuse" |
| Orders.UnknownTabIsEmpty | src/pages/components/OrderContent.tsx:70-71 | an unknown tab name lists nothing |
| Orders.EveryOrderListed | src/pages/components/OrderContent.tsx:54-74 | every order appears under at least one of the four tabs |
| Addresses.WithoutIndex | src/pages/components/AddressContent.tsx:36 | removing an in-range index shortens the list by one, keeps the earlier entries and shifts the later ones down; an out-of-range index changes nothing |
| Addresses.RemoveLastUndoesAdd | src/pages/components/AddressContent.tsx:26-37 | adding an address and removing the last index restores the list |
| Addresses.AddressContent.constructor | src/pages/components/AddressContent.tsx:23-24 | no addresses and an empty input |
| Addresses.AddressContent.SetNewAddress | src/pages/components/AddressContent.tsx:89 | typing sets the input |
| Addresses.AddressContent.HandleAddAddress | src/pages/components/AddressContent.tsx:26-33 | a non-empty input is appended and the input cleared; an empty input changes nothing |
| Addresses.AddressContent.HandleRemoveAddress | src/pages/components/AddressContent.tsx:35-40 | the list becomes the list without that index |
| Wishlist.WithoutProduct | src/pages/WishlistPage.tsx:60 | no item with the removed id remains, and every other item keeps all its copies and its relative order |
| Wishlist.RemovingAbsentIsNoop | src/pages/WishlistPage.tsx:60 | removing an id not on the list leaves it unchanged |
| Wishlist.RemovalIdempotent | src/pages/WishlistPage.tsx:60 | removing the same id twice is removing it once |
| Wishlist.WishlistPage.constructor | src/pages/WishlistPage.tsx:29 | the list starts empty |
| Wishlist.WishlistPage.FetchWishlist | src/pages/WishlistPage.tsx:36-48 | a successful fetch replaces the list; a failed one keeps it |
| Wishlist.WishlistPage.HandleRemoveFromWishlist | src/pages/WishlistPage.tsx:54-64 | after a successful delete the list is the list without the product; after a failed one it is unchanged |
| Wishlist.WishlistPage.HandleClearWishlist | src/pages/WishlistPage.tsx:66-76 | after a successful delete the list is empty; after a failed one it is unchanged |
| Layout.Encode | src/layout/defaultLayout.tsx:21 | the stored value is "open" or "closed" |
| Layout.Decode | src/layout/defaultLayout.tsx:15 | the flag is open exactly when the stored value is the string "open" |
| Layout.DecodeEncode | src/layout/defaultLayout.tsx:14-21 | reading back the value written for a flag gives that flag |
| Layout.OtherValuesDecodeClosed | src/layout/defaultLayout.tsx:15 | a missing value, and any value other than "open", reads as closed |
| Layout.DefaultLayout.constructor | src/layout/defaultLayout.tsx:13-22 | the flag is read from storage, no product is set, and storage holds the flag's encoding |
| Layout.DefaultLayout.OpenCart | src/layout/defaultLayout.tsx:24-27 | open with the given product id; storage says "open" and the sidebar is open exactly when a product is set |
| Layout.DefaultLayout.CloseCart | src/layout/defaultLayout.tsx:29-32 | closed with no product id whatever the state before (so closing twice is closing once); storage says "closed" |
| Account.CalculateAge | src/pages/components/AccountContent.tsx:86-95 | the age is the last anniversary of the birth date reached by today: that one is reached and the next is not |
| Account.AgeIsUnique | src/pages/components/AccountContent.tsx:86-95 | no other number has its anniversary reached while the next is not |
| Account.AgeBeforeBirthday | src/pages/components/AccountContent.tsx:89-93 | the age is the year difference minus one exactly when today's (month, day) is before the birthday's, and the year difference otherwise |
| Account.AgeOnBirthday | src/pages/components/AccountContent.tsx:91 | on the birthday itself the age is the year difference |
| Account.UpdateValues | src/pages/components/AccountContent.tsx:99-104 | one value per field in the same order: "age" becomes the computed age, every other field the record's value (undefined when absent) |
| Account.UpdateValuesConcat | src/pages/components/AccountContent.tsx:99-104 | the values for two field lists sent together are the values for each, concatenated |
| Account.AccountContent.constructor | src/pages/components/AccountContent.tsx:33-64 | the default user record, no purpose, every dialog closed |
| Account.AccountContent.FetchUserData | src/pages/components/AccountContent.tsx:70-80 | a successful fetch replaces the record; a failed one keeps it |
| Account.AccountContent.HandleInputChange | src/pages/components/AccountContent.tsx:82-84 | the named field takes the value and every other field keeps its own |
| Account.AccountContent.HandleOpenVerifyDialog | src/pages/components/AccountContent.tsx:217-220 | the purpose is recorded and the verify dialog opens |
| Account.AccountContent.HandleVerifyAccount | src/pages/components/AccountContent.tsx:126-149 | on success the verify dialog closes and exactly the dialog of the recorded purpose opens (none without a purpose); on failure no dialog changes |
| Account.AccountContent.HandleForgetPassword | src/pages/components/AccountContent.tsx:190-193 | the verify dialog closes and the forgotten-password dialog opens |
| Account.AccountContent.HandleEmailChange | src/pages/components/AccountContent.tsx:151-168 | the email dialog closes exactly when the server accepts |
| Account.AccountContent.HandlePasswordChange | src/pages/components/AccountContent.tsx:170-188 | the password dialog closes exactly when the server accepts |
| Account.AccountContent.HandleSendForgetPasswordEmail | src/pages/components/AccountContent.tsx:195-211 | the forgotten-password dialog closes exactly when the email was sent |

## Left out

- HTTP calls: each is a `serverOk` flag or an optional response. The server's handling of requests is not part of this model. That includes the cart quantity PATCH and clear-cart DELETE (`handleQuantityChange` and `handleClearCart` of the cart page). It also includes the add-to-cart POST, which the sidebar has commented out.
- Re-fetching after an update (`fetchUserData` after `handleUpdate` or `handleEmailChange`, `fetchCartData` after a quantity change) is not modelled, because the result is whatever the server returns.
- Local storage and JSON: only the `"open"`/`"closed"` encoding of the sidebar flag is modelled. The checkout data the cart page stores is its `CheckoutRequest` value. The checkout page receives the stored item list as its constructor parameter. There is no JSON step.
- The sidebar's listener for storage events from other tabs is not modelled, because it is an event source outside the page.
- Loading and error flags, alerts, console output, navigation, and all rendering and animation are not modelled.
- Rendering-only pages are not part of this model: the headers, the order-success page, the routes and the settings tab table. The register and login pages, which only move form fields to and from the server, are not part of it either.
- Avatar cropping and upload, `handleAvatarUpload` and the avatar dialog are not modelled, because the image utilities are not part of this model.
- Product.DiscountBase: the page throws a TypeError on a product with no non-zero price whose attribute list is missing or empty, because it reads `attributes[0]`. The `Priceable` precondition of `DiscountBase`, `DiscountPrice` and `ShowsDiscountPrice` excludes those products, so the crash is not modelled.
- Product.StruckPrice: the page throws a TypeError on a product whose attribute list is present but empty, because an empty array is truthy and `attributes[0]` is read. The precondition excludes that product, so the crash is not modelled.
- Checkout.CheckoutPage.constructor: the constructor receives the stored item list, or nothing when no checkout data is stored. A checkout made on the cart page before the cart loaded would store `{}` with no items. The checkout page then fails on `checkoutData.items`, and that failure is not modelled. The cart page only offers selection once the cart has loaded, so the case does not arise there.
- Cart.StepDown: the line after a press on "−" assumes that the server applies the PATCH of quantity − 1 and that the re-fetch returns that line. The server and the re-fetch are not modelled.
- Cart.StepUp: the same assumption as StepDown, for a PATCH of quantity + 1.
- Checkout.LineTotal: money is an exact `real`, so binary floating-point rounding and `toFixed` formatting are not captured.
- Checkout.LineTotal: discounts whose value does not fit their kind (which give NaN in the page) are excluded by the `ShapedDiscount` type, and so is a buy-X-get-Y discount with `buyQuantity <= 0`.
- Checkout.BuyGetLineTotal: the free-item bounds need `quantity <= stock`, which the page assumes but never checks.
- Sidebar.CartSidebar.NextImage: a shown product is required to have at least one image (with none the page computes NaN).
- Sidebar.CartSidebar.PrevImage: the same requirement as NextImage.
- Account.CalculateAge: the birthday string is not parsed and the clock is not read. Birth date and today are given as dates, so an empty or invalid birthday string (NaN age) and time zones are not captured.
- `parseInt` of typed quantities (NaN) is not modelled; quantities are integers.
- The cart line's `selected_attributes_value`, names and images are carried only where an operation uses them.
