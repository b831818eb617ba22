/** The cart page: changing a line's quantity, removing a line, the derived total and
    preparation time, and placing the order over abstract backend results. */
module Cart {
  import opened Wrappers
  import opened Text
  import opened Records

  // ---------------------------------------------------------------- cart lines

  /** `updateQuantity`'s `map`: every line matching (`id`, `t`) gets `max(1, quantity + delta)`. */
  function QuantityUpdated(cart: seq<CartItem>, id: string, t: ItemType, delta: int): (r: seq<CartItem>)
    ensures |r| == |cart|
  {
    if cart == [] then []
    else
      var head := if Matches(cart[0], id, t)
                  then cart[0].(quantity := Max(1, cart[0].quantity + delta))
                  else cart[0];
      [head] + QuantityUpdated(cart[1..], id, t, delta)
  }

  /** Line by line: a matching line keeps everything but its quantity, which becomes
      `max(1, q + delta)`; every other line is untouched. */
  lemma {:induction false} QuantityUpdatedAt(cart: seq<CartItem>, id: string, t: ItemType, delta: int, k: nat)
    requires k < |cart|
    ensures var r := QuantityUpdated(cart, id, t, delta);
            if Matches(cart[k], id, t)
            then r[k] == cart[k].(quantity := Max(1, cart[k].quantity + delta)) && r[k].quantity >= 1
            else r[k] == cart[k]
  {
    if k > 0 {
      QuantityUpdatedAt(cart[1..], id, t, delta, k - 1);
    }
  }

  /** Changing a quantity keeps the cart invariant: identities stay unique and no quantity
      falls below one, whatever the delta. */
  lemma QuantityUpdatedValid(cart: seq<CartItem>, id: string, t: ItemType, delta: int)
    requires ValidCart(cart)
    ensures ValidCart(QuantityUpdated(cart, id, t, delta))
  {
    var r := QuantityUpdated(cart, id, t, delta);
    forall k | 0 <= k < |cart|
      ensures r[k].quantity >= 1 && r[k].id == cart[k].id && r[k].itemType == cart[k].itemType
    {
      QuantityUpdatedAt(cart, id, t, delta, k);
    }
  }

  /** A large negative delta stops at one: -999 on a quantity-3 line leaves quantity 1. */
  lemma QuantityFloorExample(item: CartItem)
    requires item.quantity == 3
    ensures QuantityUpdated([item], item.id, item.itemType, -999) == [item.(quantity := 1)]
  {
  }

  /** `removeItem`'s `filter`: keeps exactly the lines not matching (`id`, `t`), in order. */
  function ItemRemoved(cart: seq<CartItem>, id: string, t: ItemType): (r: seq<CartItem>)
    ensures |r| <= |cart|
  {
    if cart == [] then []
    else if Matches(cart[0], id, t) then ItemRemoved(cart[1..], id, t)
    else [cart[0]] + ItemRemoved(cart[1..], id, t)
  }

  /** A line survives removal if and only if it was in the cart and does not match. */
  lemma {:induction false} ItemRemovedMembers(cart: seq<CartItem>, id: string, t: ItemType)
    ensures forall x :: x in ItemRemoved(cart, id, t) <==> x in cart && !Matches(x, id, t)
  {
    if cart != [] {
      ItemRemovedMembers(cart[1..], id, t);
      assert cart == [cart[0]] + cart[1..];
    }
  }

  /** Removing works segment by segment, so the surviving lines keep their relative order. */
  lemma {:induction false} ItemRemovedConcat(a: seq<CartItem>, b: seq<CartItem>, id: string, t: ItemType)
    ensures ItemRemoved(a + b, id, t) == ItemRemoved(a, id, t) + ItemRemoved(b, id, t)
  {
    if a != [] {
      assert (a + b)[1..] == a[1..] + b;
      ItemRemovedConcat(a[1..], b, id, t);
    } else {
      assert a + b == b;
    }
  }

  /** Removing an identity no line has changes nothing. */
  lemma {:induction false} ItemRemovedAbsent(cart: seq<CartItem>, id: string, t: ItemType)
    requires forall i :: 0 <= i < |cart| ==> !Matches(cart[i], id, t)
    ensures ItemRemoved(cart, id, t) == cart
  {
    if cart != [] {
      ItemRemovedAbsent(cart[1..], id, t);
    }
  }

  /** In a valid cart no line other than `k` carries line `k`'s identity. */
  lemma OnlyLineMatches(cart: seq<CartItem>, k: nat)
    requires ValidCart(cart) && k < |cart|
    ensures forall i :: 0 <= i < |cart| && i != k ==> !Matches(cart[i], cart[k].id, cart[k].itemType)
  {
  }

  /** Removing from `pre + [x] + post`, when only `x` matches, leaves `pre + post`. */
  lemma ItemRemovedSplit(pre: seq<CartItem>, x: CartItem, post: seq<CartItem>, id: string, t: ItemType)
    requires Matches(x, id, t)
    requires forall i :: 0 <= i < |pre| ==> !Matches(pre[i], id, t)
    requires forall i :: 0 <= i < |post| ==> !Matches(post[i], id, t)
    ensures ItemRemoved(pre + [x] + post, id, t) == pre + post
  {
    var front := pre + [x];
    ItemRemovedConcat(front, post, id, t);
    ItemRemovedConcat(pre, [x], id, t);
    assert ItemRemoved([x], id, t) == [] by {
      assert [x][1..] == [];
    }
    ItemRemovedAbsent(pre, id, t);
    ItemRemovedAbsent(post, id, t);
    assert ItemRemoved(front, id, t) == pre;
  }

  /** In a valid cart, removing the identity of line `k` deletes exactly that line. */
  lemma ItemRemovedUnique(cart: seq<CartItem>, k: nat)
    requires ValidCart(cart) && k < |cart|
    ensures ItemRemoved(cart, cart[k].id, cart[k].itemType) == cart[..k] + cart[k + 1..]
  {
    var id, t := cart[k].id, cart[k].itemType;
    var pre, post := cart[..k], cart[k + 1..];
    OnlyLineMatches(cart, k);
    assert forall i :: 0 <= i < |pre| ==> pre[i] == cart[i];
    assert forall i :: 0 <= i < |post| ==> post[i] == cart[k + 1 + i];
    assert cart == pre + [cart[k]] + post;
    ItemRemovedSplit(pre, cart[k], post, id, t);
  }

  /** Removing keeps the cart invariant. */
  lemma {:induction false} ItemRemovedValid(cart: seq<CartItem>, id: string, t: ItemType)
    requires ValidCart(cart)
    ensures ValidCart(ItemRemoved(cart, id, t))
  {
    if cart != [] {
      var rest := cart[1..];
      assert ValidCart(rest) by {
        forall i, j | 0 <= i < j < |rest| ensures !SameIdentity(rest[i], rest[j]) {
          assert rest[i] == cart[i + 1] && rest[j] == cart[j + 1];
        }
      }
      ItemRemovedValid(rest, id, t);
      ItemRemovedMembers(rest, id, t);
      if !Matches(cart[0], id, t) {
        var r' := ItemRemoved(rest, id, t);
        var r := [cart[0]] + r';
        forall j | 0 <= j < |r'| ensures !SameIdentity(cart[0], r'[j]) && r'[j].quantity >= 1 {
          assert r'[j] in rest;
          var m :| 0 <= m < |rest| && rest[m] == r'[j];
          assert rest[m] == cart[m + 1];
        }
        assert forall i :: 1 <= i < |r| ==> r[i] == r'[i - 1];
      }
    }
  }

  // ---------------------------------------------------------------- derived totals

  /** `cart.reduce((sum, item) => sum + item.price * item.quantity, 0)`, folded left to right. */
  function TotalAmount(cart: seq<CartItem>): int
  {
    if cart == [] then 0 else TotalAmount(cart[..|cart| - 1]) + Subtotal(cart[|cart| - 1])
  }

  /** The total of two carts laid end to end is the sum of their totals. */
  lemma {:induction false} TotalAmountConcat(a: seq<CartItem>, b: seq<CartItem>)
    ensures TotalAmount(a + b) == TotalAmount(a) + TotalAmount(b)
    decreases |b|
  {
    if b != [] {
      var b' := b[..|b| - 1];
      assert (a + b)[..|a + b| - 1] == a + b';
      TotalAmountConcat(a, b');
    } else {
      assert a + b == a;
    }
  }

  /** With non-negative prices, the total of a valid cart is never negative. */
  lemma {:induction false} TotalAmountNonNegative(cart: seq<CartItem>)
    requires ValidCart(cart)
    requires forall i :: 0 <= i < |cart| ==> cart[i].price >= 0
    ensures TotalAmount(cart) >= 0
  {
    if cart != [] {
      var front := cart[..|cart| - 1];
      assert ValidCart(front) by {
        forall i, j | 0 <= i < j < |front| ensures !SameIdentity(front[i], front[j]) {
          assert front[i] == cart[i] && front[j] == cart[j];
        }
      }
      TotalAmountNonNegative(front);
    }
  }

  /** `Math.max(...cart.map((item) => item.preparation_time), 15)`: at least 15, at least every
      line's preparation time, and equal to 15 or to one of them. */
  function MaxPrepTime(cart: seq<CartItem>): (m: int)
    ensures m >= 15
    ensures forall i :: 0 <= i < |cart| ==> m >= cart[i].preparationTime
    ensures m == 15 || exists i :: 0 <= i < |cart| && m == cart[i].preparationTime
  {
    if cart == [] then 15
    else
      var front := cart[..|cart| - 1];
      var m' := MaxPrepTime(front);
      assert forall i :: 0 <= i < |front| ==> front[i] == cart[i];
      Max(m', cart[|cart| - 1].preparationTime)
  }

  /** The worked examples: preparation times [10, 20] give 20, [5] gives 15, no lines give 15. */
  lemma MaxPrepTimeExamples(a: CartItem, b: CartItem)
    requires a.preparationTime == 10 && b.preparationTime == 20
    ensures MaxPrepTime([a, b]) == 20
    ensures MaxPrepTime([a.(preparationTime := 5)]) == 15
    ensures MaxPrepTime([]) == 15
  {
  }

  // ---------------------------------------------------------------- order derivation

  /** `orderNumberData || \`ORD-${Date.now()}\``: the generated number unless it is null or empty. */
  function OrderNumber(generated: Option<string>, now: nat): (n: string)
    ensures n != []
    ensures Truthy(generated) ==> n == generated.value
    ensures !Truthy(generated) ==> |n| > 4 && n[..4] == "ORD-" && n[4..] == NatToString(now)
  {
    if Truthy(generated) then generated.value else "ORD-" + NatToString(now)
  }

  /** Fallback numbers taken at different instants differ; two taken in the same millisecond
      coincide, so the fallback gives no uniqueness guarantee. */
  lemma FallbackOrderNumbers(now1: nat, now2: nat)
    ensures OrderNumber(None, now1) == OrderNumber(None, now2) <==> now1 == now2
  {
    if now1 != now2 {
      NatToStringInjective(now1, now2);
      assert OrderNumber(None, now1)[4..] != OrderNumber(None, now2)[4..];
    }
  }

  /** `${window.location.origin}/payment/${orderNumber}`. */
  function PaymentUrl(origin: string, orderNumber: string): (url: string)
    ensures |url| == |origin| + 9 + |orderNumber|
    ensures url[..|origin|] == origin && url[|origin| + 9..] == orderNumber
    ensures url[|origin|..|origin| + 9] == "/payment/"
  {
    origin + "/payment/" + orderNumber
  }

  /** The payment URL pins down the order number: different numbers give different URLs. */
  lemma PaymentUrlInjective(origin: string, n1: string, n2: string)
    requires n1 != n2
    ensures PaymentUrl(origin, n1) != PaymentUrl(origin, n2)
  {
  }

  /** `Date.now() + maxPrepTime * 60000`, in epoch milliseconds. */
  function ReadyTime(now: int, prepMinutes: int): int
  {
    now + prepMinutes * 60000
  }

  /** The estimated ready time of any cart lies at least 15 minutes in the future, and no
      earlier than the slowest line. */
  lemma ReadyTimeBounds(now: int, cart: seq<CartItem>)
    ensures ReadyTime(now, MaxPrepTime(cart)) >= now + 15 * 60000
    ensures forall i :: 0 <= i < |cart| ==>
              ReadyTime(now, MaxPrepTime(cart)) >= now + cart[i].preparationTime * 60000
  {
  }

  /** `notes.trim() || null`: the trimmed note, absent when it is blank. */
  function StoredNotes(notes: string): (n: Option<string>)
    ensures n.None? <==> forall k :: 0 <= k < |notes| ==> IsJsWhitespace(notes[k])
    ensures n.Some? ==> n.value != [] && !IsJsWhitespace(n.value[0])
                        && !IsJsWhitespace(n.value[|n.value| - 1])
    ensures n.Some? ==> n.value == Trim(notes)
  {
    TrimEmptyIff(notes);
    var t := Trim(notes);
    if t == "" then None else Some(t)
  }

  /** `cart.map(...)` building the `order_items` rows of order `orderId`. */
  function OrderItems(cart: seq<CartItem>, orderId: string): (rows: seq<OrderItemRow>)
    ensures |rows| == |cart|
  {
    if cart == [] then []
    else
      var item := cart[0];
      [OrderItemRow(orderId,
                    if item.itemType == Dish then Some(item.id) else None,
                    if item.itemType == Combo then Some(item.id) else None,
                    item.quantity, item.price, item.name)]
      + OrderItems(cart[1..], orderId)
  }

  /** Reads a row's item identity back: the dish or combo reference, whichever is the only one set. */
  function RowIdentity(row: OrderItemRow): Option<(string, ItemType)>
  {
    match (row.dishId, row.comboId)
    case (Some(d), None) => Some((d, Dish))
    case (None, Some(c)) => Some((c, Combo))
    case _ => None
  }

  /** Row `k` belongs to the order, references line `k`'s item through exactly the column its
      type calls for, and copies its quantity, price and name. */
  lemma {:induction false} OrderItemsAt(cart: seq<CartItem>, orderId: string, k: nat)
    requires k < |cart|
    ensures var row := OrderItems(cart, orderId)[k];
            && row.orderId == orderId
            && (row.dishId.Some? <==> cart[k].itemType == Dish)
            && (row.comboId.Some? <==> cart[k].itemType == Combo)
            && RowIdentity(row) == Some((cart[k].id, cart[k].itemType))
            && row.quantity == cart[k].quantity && row.price == cart[k].price
            && row.itemName == cart[k].name
  {
    if k > 0 {
      OrderItemsAt(cart[1..], orderId, k - 1);
    }
  }

  /** The rows add up to the cart total: the order's `total_amount` agrees with its items. */
  lemma {:induction false} OrderItemsTotal(cart: seq<CartItem>, orderId: string)
    ensures RowsTotal(OrderItems(cart, orderId)) == TotalAmount(cart)
  {
    if cart != [] {
      OrderItemsTotal(cart[1..], orderId);
      TotalAmountConcat([cart[0]], cart[1..]);
      assert [cart[0]] + cart[1..] == cart;
    }
  }

  // ---------------------------------------------------------------- placing the order

  /** What the backend answers during one placement. `numberClock` and `etaClock` are the two
      separate `Date.now()` readings; `toDataUrl` is the QR encoder. */
  datatype Backend = Backend(
    generatedNumber: Option<string>,
    numberClock: nat,
    origin: string,
    toDataUrl: string -> Result<string>,
    etaClock: int,
    orderInsert: Result<string>,
    itemsInsert: Result<()>)

  /** The calls placement makes, in the order it makes them. */
  datatype Request =
    | GenerateOrderNumber
    | EncodeQr(url: string)
    | InsertOrder(header: OrderHeader)
    | InsertItems(rows: seq<OrderItemRow>)

  datatype Outcome =
    | EmptyCart
    | Placed(orderId: string, orderNumber: string)
    | Failed(description: string)

  /** The effect of one placement: what the buyer is told, the calls made, the cart afterwards. */
  datatype Placement = Placement(outcome: Outcome, requests: seq<Request>, cartAfter: seq<CartItem>)

  /** The message of the `TypeError` that `user!.id` raises when there is no signed-in user. The
      wording is the V8 engine's and differs between engines; the model relies only on it being
      non-empty, so that the buyer is shown this message rather than the fallback text. */
  const NoUserMessage: string := "Cannot read properties of null (reading 'id')"

  /** `error.message || 'Failed to place order'`. */
  function ErrorDescription(message: string): (d: string)
    ensures d != []
    ensures message != [] ==> d == message
    ensures message == [] ==> d == "Failed to place order"
  {
    if message == "" then "Failed to place order" else message
  }

  /** The header sent to the `orders` table for this cart. */
  function Header(cart: seq<CartItem>, notes: string, userId: string, orderNumber: string,
                  etaClock: int, qr: string): OrderHeader
  {
    OrderHeader(orderNumber, userId, TotalAmount(cart), MaxPrepTime(cart),
                ReadyTime(etaClock, MaxPrepTime(cart)), qr, StoredNotes(notes))
  }

  /** `handlePlaceOrder` as one step-by-step computation over the backend's answers. */
  function PlaceOrder(cart: seq<CartItem>, notes: string, user: Option<string>, env: Backend): Placement
  {
    if cart == [] then Placement(EmptyCart, [], cart)
    else
      var orderNumber := OrderNumber(env.generatedNumber, env.numberClock);
      var url := PaymentUrl(env.origin, orderNumber);
      var asked := [GenerateOrderNumber, EncodeQr(url)];
      match env.toDataUrl(url)
      case Err(m) => Placement(Failed(ErrorDescription(m)), asked, cart)
      case Ok(qr) =>
        match user
        case None => Placement(Failed(ErrorDescription(NoUserMessage)), asked, cart)
        case Some(userId) =>
          var header := Header(cart, notes, userId, orderNumber, env.etaClock, qr);
          match env.orderInsert
          case Err(m) => Placement(Failed(ErrorDescription(m)), asked + [InsertOrder(header)], cart)
          case Ok(orderId) =>
            var rows := OrderItems(cart, orderId);
            var all := asked + [InsertOrder(header), InsertItems(rows)];
            match env.itemsInsert
            case Err(m) => Placement(Failed(ErrorDescription(m)), all, cart)
            case Ok(_) => Placement(Placed(orderId, orderNumber), all, [])
  }

  /** An empty cart is turned away before anything is asked of the backend, and stays as it is. */
  lemma EmptyCartRejected(notes: string, user: Option<string>, env: Backend)
    ensures PlaceOrder([], notes, user, env) == Placement(EmptyCart, [], [])
  {
  }

  /** The cart is emptied exactly when placement succeeds, which needs a non-empty cart, a QR code,
      a signed-in user and both inserts to succeed; any failure leaves the cart as it was. */
  lemma PlacementClearsOnlyOnSuccess(cart: seq<CartItem>, notes: string, user: Option<string>, env: Backend)
    ensures var p := PlaceOrder(cart, notes, user, env);
            var url := PaymentUrl(env.origin, OrderNumber(env.generatedNumber, env.numberClock));
            && (p.outcome.Placed? <==> cart != [] && env.toDataUrl(url).Ok? && user.Some?
                                       && env.orderInsert.Ok? && env.itemsInsert.Ok?)
            && p.cartAfter == (if p.outcome.Placed? then [] else cart)
            && (p.outcome.Failed? ==> p.outcome.description != [])
  {
  }

  /** Every call placement makes is a prefix of the fixed script: order number, QR code, order
      insert, items insert. The items are only sent after the order insert answered with an id. */
  lemma PlacementRequestOrder(cart: seq<CartItem>, notes: string, user: Option<string>, env: Backend)
    ensures var p := PlaceOrder(cart, notes, user, env);
            var url := PaymentUrl(env.origin, OrderNumber(env.generatedNumber, env.numberClock));
            && |p.requests| <= 4
            && (|p.requests| >= 1 ==> p.requests[0] == GenerateOrderNumber && p.requests[1] == EncodeQr(url))
            && (|p.requests| >= 3 ==> p.requests[2].InsertOrder?)
            && (|p.requests| >= 3 <==> cart != [] && env.toDataUrl(url).Ok? && user.Some?)
            && (|p.requests| == 4 ==> p.requests[3].InsertItems?)
            && (|p.requests| == 4 <==> (cart != [] && env.toDataUrl(url).Ok? && user.Some?
                                        && env.orderInsert.Ok?))
            && (cart == [] <==> p.requests == [])
  {
  }

  /** What a successful placement wrote: a header whose total, preparation time and ready time
      are derived from the cart and whose total equals the sum of its rows, one row per line. */
  lemma PlacedOrderConsistent(cart: seq<CartItem>, notes: string, user: Option<string>, env: Backend)
    requires PlaceOrder(cart, notes, user, env).outcome.Placed?
    ensures var p := PlaceOrder(cart, notes, user, env);
            && |p.requests| == 4 && p.requests[2].InsertOrder? && p.requests[3].InsertItems?
            && var h := p.requests[2].header;
               var rows := p.requests[3].rows;
               && h.orderNumber == p.outcome.orderNumber
               && h.orderNumber == OrderNumber(env.generatedNumber, env.numberClock)
               && h.userId == user.value
               && h.totalAmount == TotalAmount(cart) == RowsTotal(rows)
               && h.preparationTime == MaxPrepTime(cart) >= 15
               && h.estimatedReadyTime == env.etaClock + h.preparationTime * 60000
               && env.toDataUrl(PaymentUrl(env.origin, h.orderNumber)) == Ok(h.paymentQrCode)
               && h.notes == StoredNotes(notes)
               && rows == OrderItems(cart, p.outcome.orderId)
               && |rows| == |cart|
               && (forall i :: 0 <= i < |rows| ==> rows[i].orderId == p.outcome.orderId)
  {
    var orderId := env.orderInsert.value;
    OrderItemsTotal(cart, orderId);
    forall i | 0 <= i < |cart| ensures OrderItems(cart, orderId)[i].orderId == orderId {
      OrderItemsAt(cart, orderId, i);
    }
  }

  /** The worked scenario: a dish at 60 twice (10 minutes) and a combo at 80 once (20 minutes)
      give a total of 200 and 20 minutes of preparation. */
  lemma PlacementScenario(a: CartItem, b: CartItem)
    requires a == CartItem("A", "Dish A", 60, 2, Dish, 10)
    requires b == CartItem("B", "Combo B", 80, 1, Combo, 20)
    ensures TotalAmount([a, b]) == 200 && MaxPrepTime([a, b]) == 20
  {
    assert [a, b][..1] == [a] && [a][..0] == [];
    assert TotalAmount([a]) == 120;
    assert MaxPrepTime([a]) == 15;
  }

  // ---------------------------------------------------------------- the page's state

  /** The cart page's state: the cart and the note being typed. */
  class CartPage {
    var cart: seq<CartItem>
    var notes: string

    constructor (stored: seq<CartItem>)
      ensures cart == stored && notes == ""
    {
      cart := stored;
      notes := "";
    }

    /** The +/- buttons. */
    method UpdateQuantity(id: string, t: ItemType, delta: int)
      modifies this
      ensures cart == QuantityUpdated(old(cart), id, t, delta)
      ensures ValidCart(old(cart)) ==> ValidCart(cart)
      ensures notes == old(notes)
    {
      if ValidCart(cart) {
        QuantityUpdatedValid(cart, id, t, delta);
      }
      cart := QuantityUpdated(cart, id, t, delta);
    }

    /** The bin button. */
    method RemoveItem(id: string, t: ItemType)
      modifies this
      ensures cart == ItemRemoved(old(cart), id, t)
      ensures ValidCart(old(cart)) ==> ValidCart(cart)
      ensures notes == old(notes)
    {
      if ValidCart(cart) {
        ItemRemovedValid(cart, id, t);
      }
      cart := ItemRemoved(cart, id, t);
    }

    method SetNotes(text: string)
      modifies this
      ensures notes == text && cart == old(cart)
    {
      notes := text;
    }

    /** `handlePlaceOrder`: an early return on an empty cart, then each backend step in turn, a
        failed step ending the attempt with the cart intact, and `setCart([])` only at the end. */
    method HandlePlaceOrder(user: Option<string>, env: Backend) returns (outcome: Outcome, requests: seq<Request>)
      modifies this
      ensures var p := PlaceOrder(old(cart), old(notes), user, env);
              outcome == p.outcome && requests == p.requests && cart == p.cartAfter
      ensures notes == old(notes)
    {
      requests := [];
      if |cart| == 0 {
        outcome := EmptyCart;
        return;
      }
      // generate_order_number, then the QR code of the payment URL
      var orderNumber := OrderNumber(env.generatedNumber, env.numberClock);
      var url := PaymentUrl(env.origin, orderNumber);
      requests := [GenerateOrderNumber, EncodeQr(url)];
      var qr := env.toDataUrl(url);
      if qr.Err? {
        outcome := Failed(ErrorDescription(qr.message));
        return;
      }
      // `user!.id` throws when nobody is signed in
      if user.None? {
        outcome := Failed(ErrorDescription(NoUserMessage));
        return;
      }
      var header := Header(cart, notes, user.value, orderNumber, env.etaClock, qr.value);
      var order := env.orderInsert;
      if order.Err? {
        requests := requests + [InsertOrder(header)];
        outcome := Failed(ErrorDescription(order.message));
        return;
      }
      var rows := OrderItems(cart, order.value);
      requests := requests + [InsertOrder(header), InsertItems(rows)];
      var items := env.itemsInsert;
      if items.Err? {
        outcome := Failed(ErrorDescription(items.message));
        return;
      }
      cart := [];
      outcome := Placed(order.value, orderNumber);
    }
  }
}
