/** The record shapes the pages exchange: the `CartItem` interface (declared identically
    in the cart and menu pages), the row sent to the `orders` table and the rows of the
    `order_items` table. Prices are whole currency units (integers). */
module Records {
  import opened Wrappers

  /** `type: 'dish' | 'combo'`. */
  datatype ItemType = Dish | Combo

  /** One cart line; its identity is the pair (`id`, `itemType`). */
  datatype CartItem = CartItem(
    id: string,
    name: string,
    price: int,
    quantity: int,
    itemType: ItemType,
    preparationTime: int)

  /** The test both `map` and `filter` callbacks use: `item.id === id && item.type === type`. */
  predicate Matches(item: CartItem, id: string, t: ItemType)
  {
    item.id == id && item.itemType == t
  }

  predicate SameIdentity(a: CartItem, b: CartItem)
  {
    Matches(b, a.id, a.itemType)
  }

  /** The cart invariant: no two lines share an identity and no line holds fewer than one unit. */
  predicate ValidCart(cart: seq<CartItem>)
  {
    && (forall i :: 0 <= i < |cart| ==> cart[i].quantity >= 1)
    && (forall i, j :: 0 <= i < j < |cart| ==> !SameIdentity(cart[i], cart[j]))
  }

  /** A line of the price-times-quantity sum. */
  function Subtotal(item: CartItem): int
  {
    item.price * item.quantity
  }

  /** One row of the `order_items` table: exactly one of `dishId`, `comboId` is set. */
  datatype OrderItemRow = OrderItemRow(
    orderId: string,
    dishId: Option<string>,
    comboId: Option<string>,
    quantity: int,
    price: int,
    itemName: string)

  /** The amount a row contributes, `item.price * item.quantity` as the tracking page shows it. */
  function RowSubtotal(row: OrderItemRow): int
  {
    row.price * row.quantity
  }

  /** The sum of the row subtotals, taken first to last. */
  function RowsTotal(rows: seq<OrderItemRow>): int
  {
    if rows == [] then 0 else RowSubtotal(rows[0]) + RowsTotal(rows[1..])
  }

  /** The object inserted into the `orders` table (`estimatedReadyTime` in epoch milliseconds,
      `notes` absent when blank). */
  datatype OrderHeader = OrderHeader(
    orderNumber: string,
    userId: string,
    totalAmount: int,
    preparationTime: int,
    estimatedReadyTime: int,
    paymentQrCode: string,
    notes: Option<string>)

  /** A row of the `orders` table as the tracking and history pages read it. The fields the
      pages test for truthiness are optional strings. */
  datatype OrderRecord = OrderRecord(
    id: string,
    orderNumber: string,
    status: string,
    paymentStatus: string,
    paymentQrCode: Option<string>,
    estimatedReadyTime: Option<string>,
    preparationTime: int,
    totalAmount: int,
    notes: Option<string>)

  /** JavaScript truthiness of a possibly-null string: present and not empty. */
  predicate Truthy(s: Option<string>)
  {
    s.Some? && s.value != ""
  }
}
