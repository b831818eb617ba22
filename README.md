# Canteen cart and order placement, modelled in Dafny

This project models the logic of a canteen ordering web front end. A buyer builds a cart of
dishes and combo meals on the menu page and adjusts it on the cart page. Placing the order
asks the hosted database for an order number, encodes a payment QR code, inserts the order
and its items, and then empties the cart. The tracking page shows an order's status and
payment state and replaces its copy of the order on each change notification. The history
page lists orders with status and payment badges.

Layout, one module per file:

- `wrappers.dfy` (`Wrappers`): `Option`, `Result`, `Max`.
- `text.dfy` (`Text`): decimal rendering of an integer, as `${Date.now()}` does, with its
  parse-back round trip; ECMAScript `String.prototype.trim`.
- `records.dfy` (`Records`): the `CartItem` record shared by the two cart-holding pages, the
  cart invariant `ValidCart`, and the `orders` and `order_items` row shapes.
- `cart.dfy` (`Cart`): the cart page. It has the quantity change and removal as functions on
  the line sequence, the total, preparation time, ready time, order number, payment URL,
  stored notes and order-item rows, and `PlaceOrder`, the placement procedure as one function
  over the backend's answers. The class `CartPage` holds the page state. Its methods are proved
  equal to those functions.
- `menu.dfy` (`Menu`): the menu page's `addToCart` behind the sign-in gate, the header item
  count, and the class `MenuPage`.
- `badges.dfy` (`Badges`): the props of a rendered badge.
- `order_tracking.dfy` (`OrderTracking`): the status and payment mappings, when the QR card and
  ready time are shown, and the class `OrderTrackingPage`, whose notification handler replaces
  the cached order.
- `orders.dfy` (`Orders`): the history page's status lookup table, its payment badge and its
  pickup banner.

Modelling choices:

- Prices, quantities, preparation minutes and timestamps are unbounded integers. Prices are
  whole currency units.
- The backend is a parameter. This covers the `generate_order_number` result, both
  `Date.now()` readings, the page origin, the QR encoder as a function from URL to result, and
  the outcomes of the two inserts. `PlaceOrder` returns the outcome the buyer is told, the list
  of calls made in order, and the cart afterwards.
- `user!.id` with no signed-in user raises a `TypeError` inside the `try`. The model follows
  the code: that attempt fails after the order-number request and the QR encoding, and before
  any insert.
- `orderNumberData || ...` falls back to `ORD-<now>` when the generator returns `null` or the
  empty string.

Where one might expect more than the code does, the model follows the code:

- Change notifications are not checked for staleness. Each one replaces the cached order, so
  the statuses pending, preparing, confirmed end on confirmed (`OrderTracking.RegressiveUpdateIsShown`).
- If the order insert succeeds and the items insert fails, the order row is left in place.
  The buyer is shown the items insert's own error message, through the same `error.message ||
  'Failed to place order'` as every other failure (src/pages/Cart.tsx:139). There is no separate
  partial-order error.
- A quantity change never removes a line. It stops at 1.
- Order numbers are unique only if the database's generator makes them so. Two fallback
  numbers taken in the same millisecond are equal (`Cart.FallbackOrderNumbers`).

## Model

| member | source | states |
|---|---|---|
| `Text.NatToString` | src/pages/Cart.tsx:86 | the timestamp in the fallback number is a non-empty string of decimal digits with no leading zero |
| `Text.ParseNatToString` | src/pages/Cart.tsx:86 | reading the rendered digits back gives the same number (round trip) |
| `Text.NatToStringInjective` | src/pages/Cart.tsx:86 | different numbers render as different strings |
| `Text.Trim` | src/pages/Cart.tsx:105 | `trim()` gives a contiguous slice of the note with whitespace removed from both ends only, and the result neither starts nor ends with whitespace |
| `Text.TrimEmptyIff` | src/pages/Cart.tsx:105 | a note trims to empty exactly when it is all whitespace |
| `Cart.QuantityUpdated` | src/pages/Cart.tsx:49-53 | the updated cart has the same number of lines |
| `Cart.QuantityUpdatedAt` | src/pages/Cart.tsx:49-53 | a matching line gets quantity `max(1, q + delta)`, which is at least 1, and keeps its other fields; every other line is unchanged |
| `Cart.QuantityUpdatedValid` | src/pages/Cart.tsx:47-57 | a quantity change keeps identities unique and quantities at least 1 |
| `Cart.QuantityFloorExample` | src/pages/Cart.tsx:51 | delta -999 on a quantity-3 line gives quantity 1 |
| `Cart.ItemRemoved` | src/pages/Cart.tsx:61 | removal never lengthens the cart |
| `Cart.ItemRemovedMembers` | src/pages/Cart.tsx:61 | a line survives removal iff it was in the cart and does not match both id and type |
| `Cart.ItemRemovedConcat` | src/pages/Cart.tsx:61 | removal distributes over concatenation, so surviving lines keep their order |
| `Cart.ItemRemovedAbsent` | src/pages/Cart.tsx:61 | removing an identity that no line has changes nothing |
| `Cart.ItemRemovedUnique` | src/pages/Cart.tsx:59-64 | in a valid cart, removing line k's identity gives `cart[..k] + cart[k+1..]` |
| `Cart.ItemRemovedValid` | src/pages/Cart.tsx:61 | removal keeps identities unique and quantities at least 1 |
| `Cart.TotalAmountConcat` | src/pages/Cart.tsx:68 | the total of two carts laid end to end is the sum of their totals |
| `Cart.TotalAmountNonNegative` | src/pages/Cart.tsx:68 | a valid cart with non-negative prices has a non-negative total |
| `Cart.MaxPrepTime` | src/pages/Cart.tsx:69 | the preparation time is at least 15, at least every line's preparation time, and equal to 15 or to one of them |
| `Cart.MaxPrepTimeExamples` | src/pages/Cart.tsx:69 | [10, 20] gives 20, [5] gives 15, an empty cart gives 15 |
| `Cart.OrderNumber` | src/pages/Cart.tsx:85-86 | the number is the generator's result when it is non-empty, otherwise `ORD-` followed by the decimal timestamp; it is never empty |
| `Cart.FallbackOrderNumbers` | src/pages/Cart.tsx:86 | two fallback numbers are equal iff their timestamps are equal |
| `Cart.PaymentUrl` | src/pages/Cart.tsx:89 | the URL is the origin, then exactly `/payment/`, then the order number |
| `Cart.PaymentUrlInjective` | src/pages/Cart.tsx:89 | different order numbers give different payment URLs |
| `Cart.ReadyTimeBounds` | src/pages/Cart.tsx:93 | the ready time is at least 15 minutes after `now` and no earlier than the slowest line's preparation time |
| `Cart.StoredNotes` | src/pages/Cart.tsx:105 | the stored note is absent iff the typed note is all whitespace; a stored note is exactly the typed note with leading and trailing whitespace trimmed, so it is non-empty with non-whitespace ends |
| `Cart.OrderItems` | src/pages/Cart.tsx:113-120 | one row per cart line |
| `Cart.OrderItemsAt` | src/pages/Cart.tsx:113-120 | row k belongs to the order; `dish_id` is set iff the line is a dish and `combo_id` iff it is a combo; the identity read back is line k's; quantity, price and name are copied |
| `Cart.OrderItemsTotal` | src/pages/Cart.tsx:113-120 | the rows' price-times-quantity sum equals the cart total |
| `Cart.ErrorDescription` | src/pages/Cart.tsx:139 | the error text is the error's message, or exactly `Failed to place order` when the message is empty |
| `Cart.EmptyCartRejected` | src/pages/Cart.tsx:72-79 | an empty cart gives the empty-cart outcome, with no backend call and the cart unchanged |
| `Cart.PlacementClearsOnlyOnSuccess` | src/pages/Cart.tsx:83-141 | placement succeeds iff the cart is non-empty, the QR encoding succeeds, a user is signed in and both inserts succeed; the cart is emptied exactly then and otherwise unchanged; failures carry a non-empty description |
| `Cart.PlacementRequestOrder` | src/pages/Cart.tsx:85-124 | calls follow the fixed order: number, QR code of the payment URL, order insert, items insert; the order insert is made iff the cart is non-empty, the QR code was produced and a user is signed in; the items insert is made iff, in addition, the order insert returned an id; no call is made iff the cart is empty |
| `Cart.PlacedOrderConsistent` | src/pages/Cart.tsx:96-124 | on success the header carries the chosen order number, the user, the cart total (equal to the rows' sum), the preparation time (at least 15), the ready time `now + prep * 60000`, the QR code of the payment URL and the trimmed notes or none; the rows are exactly the cart's lines mapped to rows of the new order |
| `Cart.PlacementScenario` | src/pages/Cart.tsx:68-69 | a dish at 60 twice with 10 minutes and a combo at 80 once with 20 minutes give a total of 200 and 20 minutes |
| `Cart.CartPage.constructor` | src/pages/Cart.tsx:25-45 | the page starts with the stored cart and an empty note |
| `Cart.CartPage.UpdateQuantity` | src/pages/Cart.tsx:47-57 | the new cart is `QuantityUpdated` of the old one and stays valid; the note is unchanged |
| `Cart.CartPage.RemoveItem` | src/pages/Cart.tsx:59-66 | the new cart is `ItemRemoved` of the old one and stays valid; the note is unchanged |
| `Cart.CartPage.SetNotes` | src/pages/Cart.tsx:216 | the note is replaced and the cart is unchanged |
| `Cart.CartPage.HandlePlaceOrder` | src/pages/Cart.tsx:71-145 | the step-by-step placement returns the outcome and call list of `PlaceOrder` and leaves the cart `PlaceOrder` prescribes |
| `Menu.FindLine` | src/pages/Menu.tsx:81 | the line found is the first line matching id and type; none is found only when no line matches |
| `Menu.QuantityIncremented` | src/pages/Menu.tsx:84-88 | incrementing keeps the number of lines |
| `Menu.QuantityIncrementedAt` | src/pages/Menu.tsx:84-88 | a matching line's quantity goes up by one; every other line is unchanged |
| `Menu.ItemAddedNeedsUser` | src/pages/Menu.tsx:71-79 | without a signed-in user the cart is unchanged |
| `Menu.ItemAddedExisting` | src/pages/Menu.tsx:81-88 | when line k has the identity, its quantity rises by exactly one; the length and all other lines are unchanged |
| `Menu.ItemAddedNew` | src/pages/Menu.tsx:89-100 | when no line has the identity, one line of quantity 1 copying id, name, price and preparation time is appended after the unchanged earlier lines |
| `Menu.ItemAddedValid` | src/pages/Menu.tsx:81-101 | adding keeps identities unique and quantities at least 1 |
| `Menu.AddTwiceMerges` | src/pages/Menu.tsx:81-101 | adding the same item twice to an empty cart gives one line of quantity 2 |
| `Menu.DishAndComboAreDistinct` | src/pages/Menu.tsx:81-101 | the same id added as a dish and as a combo gives two lines |
| `Menu.ItemCountConcat` | src/pages/Menu.tsx:202 | the count of two carts laid end to end is the sum of their counts |
| `Menu.ItemCountAtLeastLines` | src/pages/Menu.tsx:202 | when every quantity is at least 1, the count is at least the number of lines |
| `Menu.QuantityIncrementedAbsent` | src/pages/Menu.tsx:84-88 | when no line has the identity, incrementing leaves the cart unchanged |
| `Menu.ItemCountIncremented` | src/pages/Menu.tsx:84-88 | in a valid cart, incrementing raises the count by one if some line matches and by zero otherwise |
| `Menu.ItemAddedCount` | src/pages/Menu.tsx:70-101 | for a signed-in user each add raises the header count by exactly one |
| `Menu.MenuPage.constructor` | src/pages/Menu.tsx:40-45 | the page starts with the stored cart |
| `Menu.MenuPage.AddToCart` | src/pages/Menu.tsx:70-107 | the new cart is `ItemAdded` of the old one; it is unchanged without a user, stays valid, and its count rises by one for a signed-in user |
| `OrderTracking.StatusLabels` | src/pages/OrderTracking.tsx:74-91 | the six statuses map to Order Received, Confirmed, Being Prepared, Ready for Pickup, Completed and Cancelled; the label is "Processing" iff the status is not one of them |
| `OrderTracking.StatusLabelsDistinct` | src/pages/OrderTracking.tsx:75-89 | two statuses with the same label are equal or both unknown |
| `OrderTracking.PaymentBadgeTexts` | src/pages/OrderTracking.tsx:93-104 | success gives "Paid", pending gives "Payment Pending", failed gives "Payment Failed", and any other value shows its raw text; the success style is used iff the status is success |
| `OrderTracking.PaymentQrVisibility` | src/pages/OrderTracking.tsx:206 | the QR card shows iff payment is pending and a non-empty QR code is stored; never once payment succeeded or failed |
| `OrderTracking.EstimatedReadyDisplay` | src/pages/OrderTracking.tsx:181-183 | "Calculating..." shows iff the ready time is absent or empty; otherwise the stored time is shown |
| `OrderTracking.DisplayedSubtotals` | src/pages/OrderTracking.tsx:231-237 | one amount per item row |
| `OrderTracking.DisplayedSubtotalsAddUp` | src/pages/OrderTracking.tsx:237 | each shown amount is price times quantity, and the amounts add up to the rows' total |
| `OrderTracking.PageView` | src/pages/OrderTracking.tsx:106-132 | the loading notice while loading, "Order Not Found" when loading has ended with no order, and otherwise the cached order |
| `OrderTracking.LastWriterWins` | src/pages/OrderTracking.tsx:37-39 | after a non-empty series of notifications the cached order is the last one delivered; with none it is unchanged |
| `OrderTracking.RegressiveUpdateIsShown` | src/pages/OrderTracking.tsx:37-39 | statuses pending, preparing, confirmed leave the page on confirmed |
| `OrderTracking.OrderTrackingPage.constructor` | src/pages/OrderTracking.tsx:13-15 | no order, no items, loading |
| `OrderTracking.OrderTrackingPage.FetchOrder` | src/pages/OrderTracking.tsx:48-72 | the order and items (empty when null) are stored only when both reads succeed; otherwise nothing is stored; loading ends either way |
| `OrderTracking.OrderTrackingPage.OnUpdate` | src/pages/OrderTracking.tsx:37-39 | the cached order becomes the delivered snapshot and nothing else changes |
| `Orders.AsWrittenMissesFallback` | src/pages/Orders.tsx:52 | as written, the status "toString" gets an empty badge instead of the "Pending" fallback |
| `Orders.StatusBadge` | src/pages/Orders.tsx:42-59 | the badge is always one of the six table entries |
| `Orders.StatusBadgeTexts` | src/pages/Orders.tsx:43-52 | the six statuses read Pending, Confirmed, Preparing, Ready, Completed and Cancelled; any other string gets the `pending` configuration; the as-written lookup agrees except on inherited property names |
| `Orders.StatusTablesAgree` | src/pages/Orders.tsx:43-50 | the history table knows exactly the statuses the tracking page knows, and its text is never empty |
| `Orders.PaymentBadge` | src/pages/Orders.tsx:107-108 | the badge reads "Paid" iff the payment status is success, and "Pending" otherwise |
| `Orders.FailedPaymentShownDifferently` | src/pages/Orders.tsx:107-108 | a failed payment reads "Pending" here and "Payment Failed" on the tracking page |
| `Orders.ReadyBannerAgrees` | src/pages/Orders.tsx:113 | the pickup banner shows iff the status is exactly `ready`, which is also iff the badge reads "Ready" and iff the tracking label is "Ready for Pickup" |

## Left out

- Browser storage: `localStorage` reads and writes and the JSON round trip of the cart. The
  pages' constructors take the stored cart as a parameter.
- The hosted database and its realtime channel. Query results, insert results and
  notifications are parameters. Opening and removing the channel are not modelled.
  `fetchOrders` on the history page is a plain read with newest-first ordering done by the
  database.
- Asynchrony. Each handler runs as one atomic step. The model does not cover cart changes made
  while a placement is waiting on the backend, which the final `setCart([])` would discard. It
  also does not cover a notification arriving before the initial fetch completes.
- QR image generation. The encoder is a parameter from URL to result.
- Clocks and formatting: `Date.now()` values are parameters. ISO and locale date formatting are
  not modelled. The model shows the stored ready timestamp as is, where the page formats it with
  `toLocaleTimeString`.
- `parseFloat` of a menu price and floating-point arithmetic in general. Prices are integers,
  so `toFixed(2)` rounding is not modelled.
- UI plumbing: toasts, navigation, loading flags on the cart and history pages, icons beyond
  the status icon names, and the cart page header's line count.
- A decoder for QR payloads. The model stops at the payment URL, and `Cart.PaymentUrlInjective`
  shows that the URL determines the order number.
- Order-number uniqueness, rejection of stale notifications, and an atomic order-plus-items
  write. The code implements none of these, so none is claimed.
- The landing page, the admin dashboard and the shared header component. They hold only static
  content and links.

## Findings

| source | as written | input that shows it | evidently intended | confidence | as-written member | corrected member |
|---|---|---|---|---|---|---|
| src/pages/Orders.tsx:52 | `variants[status] \|\| variants.pending` also finds properties inherited from `Object.prototype`. These are truthy, so they are used as the badge config, and having no `text` they render an empty badge | status `"toString"` (or `"constructor"`, `"__proto__"`, ...) | any status outside the six table keys reads "Pending" | low (the database may never store such a status); not executed | `Orders.AsWrittenStatusBadge`, shown by `Orders.AsWrittenMissesFallback` | `Orders.StatusBadge`, proved by `Orders.StatusBadgeTexts` |
