/** The menu page: adding a dish or combo to the cart, and the cart count in its header. */
module Menu {
  import opened Wrappers
  import opened Records

  /** The fields `addToCart` reads from a dish or combo row (its price already a number). */
  datatype MenuItem = MenuItem(id: string, name: string, price: int, preparationTime: int)

  /** `cart.find((i) => i.id === id && i.type === type)`: the first matching line, if any. */
  function FindLine(cart: seq<CartItem>, id: string, t: ItemType): (r: Option<CartItem>)
    ensures r.Some? ==> Matches(r.value, id, t) && r.value in cart
    ensures r.Some? ==> exists k :: 0 <= k < |cart| && cart[k] == r.value
                                    && forall i :: 0 <= i < k ==> !Matches(cart[i], id, t)
    ensures r.None? ==> forall i :: 0 <= i < |cart| ==> !Matches(cart[i], id, t)
  {
    if cart == [] then None
    else if Matches(cart[0], id, t) then Some(cart[0])
    else
      var r := FindLine(cart[1..], id, t);
      assert forall i :: 1 <= i < |cart| ==> cart[i] == cart[1..][i - 1];
      r
  }

  /** The `map` that bumps every line matching (`id`, `t`) by one. */
  function QuantityIncremented(cart: seq<CartItem>, id: string, t: ItemType): (r: seq<CartItem>)
    ensures |r| == |cart|
  {
    if cart == [] then []
    else
      var head := if Matches(cart[0], id, t) then cart[0].(quantity := cart[0].quantity + 1) else cart[0];
      [head] + QuantityIncremented(cart[1..], id, t)
  }

  lemma {:induction false} QuantityIncrementedAt(cart: seq<CartItem>, id: string, t: ItemType, k: nat)
    requires k < |cart|
    ensures var r := QuantityIncremented(cart, id, t);
            if Matches(cart[k], id, t) then r[k] == cart[k].(quantity := cart[k].quantity + 1)
            else r[k] == cart[k]
  {
    if k > 0 {
      QuantityIncrementedAt(cart[1..], id, t, k - 1);
    }
  }

  /** The line `addToCart` appends for an item not yet in the cart. */
  function NewLine(item: MenuItem, t: ItemType): CartItem
  {
    CartItem(item.id, item.name, item.price, 1, t, item.preparationTime)
  }

  /** `addToCart(item, type)`: nothing without a signed-in user; otherwise bump the line with the
      same (id, type), or append a fresh line when there is none. */
  function ItemAdded(cart: seq<CartItem>, user: Option<string>, item: MenuItem, t: ItemType): seq<CartItem>
  {
    if user.None? then cart
    else if FindLine(cart, item.id, t).Some? then QuantityIncremented(cart, item.id, t)
    else cart + [NewLine(item, t)]
  }

  /** Without a signed-in user the cart does not change. */
  lemma ItemAddedNeedsUser(cart: seq<CartItem>, item: MenuItem, t: ItemType)
    ensures ItemAdded(cart, None, item, t) == cart
  {
  }

  /** When line `k` carries the item's identity, adding it bumps that line's quantity by exactly one;
      the length and every other line stay as they were. */
  lemma ItemAddedExisting(cart: seq<CartItem>, user: Option<string>, item: MenuItem, t: ItemType, k: nat)
    requires ValidCart(cart) && user.Some?
    requires k < |cart| && Matches(cart[k], item.id, t)
    ensures var r := ItemAdded(cart, user, item, t);
            && |r| == |cart|
            && r[k] == cart[k].(quantity := cart[k].quantity + 1)
            && forall i :: 0 <= i < |cart| && i != k ==> r[i] == cart[i]
  {
    assert FindLine(cart, item.id, t).Some?;
    var r := QuantityIncremented(cart, item.id, t);
    QuantityIncrementedAt(cart, item.id, t, k);
    forall i | 0 <= i < |cart| && i != k ensures r[i] == cart[i] {
      QuantityIncrementedAt(cart, item.id, t, i);
      if i < k {
        assert !SameIdentity(cart[i], cart[k]);
      } else {
        assert !SameIdentity(cart[k], cart[i]);
      }
    }
  }

  /** When no line carries the item's identity, adding it appends one line of quantity 1 that
      copies the item's id, name, price and preparation time. */
  lemma ItemAddedNew(cart: seq<CartItem>, user: Option<string>, item: MenuItem, t: ItemType)
    requires user.Some?
    requires forall i :: 0 <= i < |cart| ==> !Matches(cart[i], item.id, t)
    ensures ItemAdded(cart, user, item, t) == cart + [CartItem(item.id, item.name, item.price, 1, t, item.preparationTime)]
  {
  }

  /** Adding keeps the cart invariant: identities stay unique and quantities at least one. */
  lemma ItemAddedValid(cart: seq<CartItem>, user: Option<string>, item: MenuItem, t: ItemType)
    requires ValidCart(cart)
    ensures ValidCart(ItemAdded(cart, user, item, t))
  {
    var r := ItemAdded(cart, user, item, t);
    if user.Some? && FindLine(cart, item.id, t).Some? {
      forall i | 0 <= i < |cart|
        ensures r[i].quantity >= 1 && r[i].id == cart[i].id && r[i].itemType == cart[i].itemType
      {
        QuantityIncrementedAt(cart, item.id, t, i);
      }
    }
  }

  /** Adding the same item twice to an empty cart gives one line of quantity 2. */
  lemma AddTwiceMerges(user: Option<string>, item: MenuItem, t: ItemType)
    requires user.Some?
    ensures ItemAdded(ItemAdded([], user, item, t), user, item, t) == [NewLine(item, t).(quantity := 2)]
  {
    var once := ItemAdded([], user, item, t);
    assert once == [NewLine(item, t)];
    assert FindLine(once, item.id, t).Some?;
  }

  /** The same id as a dish and as a combo makes two separate lines. */
  lemma DishAndComboAreDistinct(user: Option<string>, item: MenuItem)
    requires user.Some?
    ensures ItemAdded(ItemAdded([], user, item, Dish), user, item, Combo)
            == [NewLine(item, Dish), NewLine(item, Combo)]
  {
    var once := ItemAdded([], user, item, Dish);
    assert once == [NewLine(item, Dish)];
    assert FindLine(once, item.id, Combo).None?;
  }

  /** `cart.reduce((sum, item) => sum + item.quantity, 0)`: the count in the header badge. */
  function ItemCount(cart: seq<CartItem>): int
  {
    if cart == [] then 0 else ItemCount(cart[..|cart| - 1]) + cart[|cart| - 1].quantity
  }

  lemma {:induction false} ItemCountConcat(a: seq<CartItem>, b: seq<CartItem>)
    ensures ItemCount(a + b) == ItemCount(a) + ItemCount(b)
    decreases |b|
  {
    if b != [] {
      var b' := b[..|b| - 1];
      assert (a + b)[..|a + b| - 1] == a + b';
      ItemCountConcat(a, b');
    } else {
      assert a + b == a;
    }
  }

  /** In a valid cart every line holds at least one unit, so the count is at least the number of lines. */
  lemma {:induction false} ItemCountAtLeastLines(cart: seq<CartItem>)
    requires forall i :: 0 <= i < |cart| ==> cart[i].quantity >= 1
    ensures ItemCount(cart) >= |cart|
  {
    if cart != [] {
      ItemCountAtLeastLines(cart[..|cart| - 1]);
    }
  }

  /** Replacing one line changes the count by the difference of the two quantities. */
  lemma ItemCountReplace(cart: seq<CartItem>, k: nat, x: CartItem)
    requires k < |cart|
    ensures ItemCount(cart[k := x]) == ItemCount(cart) - cart[k].quantity + x.quantity
  {
    var pre, post := cart[..k], cart[k + 1..];
    assert cart == pre + [cart[k]] + post;
    assert cart[k := x] == pre + [x] + post;
    ItemCountConcat(pre + [cart[k]], post);
    ItemCountConcat(pre, [cart[k]]);
    ItemCountConcat(pre + [x], post);
    ItemCountConcat(pre, [x]);
    assert [x][..0] == [] && [cart[k]][..0] == [];
  }

  /** Incrementing an identity no line has changes nothing. */
  lemma {:induction false} QuantityIncrementedAbsent(cart: seq<CartItem>, id: string, t: ItemType)
    requires forall i :: 0 <= i < |cart| ==> !Matches(cart[i], id, t)
    ensures QuantityIncremented(cart, id, t) == cart
  {
    if cart != [] {
      QuantityIncrementedAbsent(cart[1..], id, t);
    }
  }

  /** In a valid cart, incrementing raises the count by one when some line matches and leaves it
      unchanged otherwise. */
  lemma ItemCountIncremented(cart: seq<CartItem>, id: string, t: ItemType)
    requires ValidCart(cart)
    ensures ItemCount(QuantityIncremented(cart, id, t))
            == ItemCount(cart) + (if exists i :: 0 <= i < |cart| && Matches(cart[i], id, t) then 1 else 0)
  {
    if k :| 0 <= k < |cart| && Matches(cart[k], id, t) {
      var r := QuantityIncremented(cart, id, t);
      var bumped := cart[k].(quantity := cart[k].quantity + 1);
      forall i | 0 <= i < |cart| ensures r[i] == cart[k := bumped][i] {
        QuantityIncrementedAt(cart, id, t, i);
        if i < k {
          assert !SameIdentity(cart[i], cart[k]);
        } else if i > k {
          assert !SameIdentity(cart[k], cart[i]);
        }
      }
      assert r == cart[k := bumped];
      ItemCountReplace(cart, k, bumped);
    } else {
      QuantityIncrementedAbsent(cart, id, t);
    }
  }

  /** With a signed-in user, each add raises the header count by exactly one. */
  lemma ItemAddedCount(cart: seq<CartItem>, user: Option<string>, item: MenuItem, t: ItemType)
    requires ValidCart(cart) && user.Some?
    ensures ItemCount(ItemAdded(cart, user, item, t)) == ItemCount(cart) + 1
  {
    var found := FindLine(cart, item.id, t);
    if found.Some? {
      var k :| 0 <= k < |cart| && cart[k] == found.value;
      ItemCountIncremented(cart, item.id, t);
    } else {
      ItemCountConcat(cart, [NewLine(item, t)]);
      assert [NewLine(item, t)][..0] == [];
    }
  }

  /** The menu page's own copy of the cart. */
  class MenuPage {
    var cart: seq<CartItem>

    constructor (stored: seq<CartItem>)
      ensures cart == stored
    {
      cart := stored;
    }

    /** The "Add to Cart" button of a dish or combo card. */
    method AddToCart(user: Option<string>, item: MenuItem, t: ItemType)
      modifies this
      ensures cart == ItemAdded(old(cart), user, item, t)
      ensures user.None? ==> cart == old(cart)
      ensures ValidCart(old(cart)) ==> ValidCart(cart)
      ensures ValidCart(old(cart)) && user.Some? ==> ItemCount(cart) == ItemCount(old(cart)) + 1
    {
      if user.None? {
        return;
      }
      if ValidCart(cart) {
        ItemAddedValid(cart, user, item, t);
        ItemAddedCount(cart, user, item, t);
      }
      var existing := FindLine(cart, item.id, t);
      if existing.Some? {
        cart := QuantityIncremented(cart, item.id, t);
      } else {
        cart := cart + [NewLine(item, t)];
      }
    }
  }
}
