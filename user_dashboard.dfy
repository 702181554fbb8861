/**
 * frontend/js/user-dashboard.js: the mock-backed cart (`Cart`), the per-product quantity
 * selectors and order placement (`UserDashboard.updateProductQuantity`, `addToCart`,
 * `placeOrder`). Rendering, localStorage and the toast messages' display are not modelled;
 * the cart's lines and the order list are.
 */
module UserDashboard {
  import opened Wrappers
  import opened Seqs
  import opened Text
  import opened MockData
  import Config

  /** The line with `quantity` more units (`existingItem.quantity += quantity`). */
  function Merged(l: CartLine, quantity: int): CartLine { l.(quantity := l.quantity + quantity) }

  /** The line with its quantity set (`item.quantity = quantity`). */
  function WithQuantity(l: CartLine, quantity: int): CartLine { l.(quantity := quantity) }

  /** The lines after `Cart.addItem(product, quantity)`. */
  function CartAdd(items: seq<CartLine>, product: MockProduct, quantity: int): seq<CartLine>
  {
    AddAt(items, KeyIndex(items, LineId, product.id), product, quantity)
  }

  /** CartAdd once the position of the product's line (|items| for none) is known. */
  function AddAt(items: seq<CartLine>, i: nat, product: MockProduct, quantity: int): seq<CartLine>
    requires i <= |items|
  {
    if i < |items| then items[i := Merged(items[i], quantity)]
    else items + [CartLine(product.id, product.name, product.price, quantity)]
  }

  /** The lines after `Cart.updateQuantity(productId, quantity)`. */
  function CartSetQuantity(items: seq<CartLine>, productId: int, quantity: int): seq<CartLine>
  {
    SetAt(items, KeyIndex(items, LineId, productId), productId, quantity)
  }

  /** CartSetQuantity once the position of the product's line (|items| for none) is known. */
  function SetAt(items: seq<CartLine>, i: nat, productId: int, quantity: int): seq<CartLine>
    requires i <= |items|
  {
    if i == |items| then items
    else if quantity <= 0 then WithoutKey(items, LineId, productId)
    else items[i := WithQuantity(items[i], quantity)]
  }

  /**
   * Adding to an id already in the cart adds no line: the first line with that id gets
   * `quantity` more units and keeps its id, name and price; every other line is unchanged.
   */
  lemma CartAddMerges(items: seq<CartLine>, product: MockProduct, quantity: int, i: nat)
    requires i == KeyIndex(items, LineId, product.id) && i < |items|
    ensures var r := CartAdd(items, product, quantity);
      && |r| == |items|
      && r[i].id == items[i].id == product.id && r[i].name == items[i].name && r[i].price == items[i].price
      && r[i].quantity == items[i].quantity + quantity
      && forall k :: 0 <= k < |items| && k != i ==> r[k] == items[k]
  {
  }

  /** Adding an id not in the cart appends exactly one line carrying the product's current price. */
  lemma CartAddAppends(items: seq<CartLine>, product: MockProduct, quantity: int)
    requires !HasKey(items, LineId, product.id)
    ensures CartAdd(items, product, quantity) == items + [CartLine(product.id, product.name, product.price, quantity)]
  {
    KeyIndexFinds(items, LineId, product.id);
  }

  /** Adding keeps at most one line per product id. */
  lemma CartAddKeepsUnique(items: seq<CartLine>, product: MockProduct, quantity: int)
    requires UniqueKeys(items, LineId)
    ensures UniqueKeys(CartAdd(items, product, quantity), LineId)
  {
    var i := KeyIndex(items, LineId, product.id);
    KeyIndexFinds(items, LineId, product.id);
    if i < |items| {
      UpdateSameKeyKeepsUnique(items, i, Merged(items[i], quantity), LineId);
    } else {
      AppendFreshKeepsUnique(items, CartLine(product.id, product.name, product.price, quantity), LineId);
    }
  }

  /** Adding `quantity` units raises the item count by `quantity`. */
  lemma CartAddCount(items: seq<CartLine>, product: MockProduct, quantity: int)
    ensures Sum(CartAdd(items, product, quantity), LineQuantity) == Sum(items, LineQuantity) + quantity
  {
    var i := KeyIndex(items, LineId, product.id);
    if i < |items| {
      SumUpdate(items, i, Merged(items[i], quantity), LineQuantity);
    } else {
      SumAppend(items, [CartLine(product.id, product.name, product.price, quantity)], LineQuantity);
    }
  }

  /**
   * Adding `quantity` units raises the total by `quantity` times the line's price: the price
   * snapshot of the existing line when there is one, the product's current price otherwise.
   */
  lemma CartAddTotal(items: seq<CartLine>, product: MockProduct, quantity: int, i: nat)
    requires i == KeyIndex(items, LineId, product.id)
    ensures i < |items| ==>
      Sum(CartAdd(items, product, quantity), LinePrice) == Sum(items, LinePrice) + items[i].price * quantity
    ensures i == |items| ==>
      Sum(CartAdd(items, product, quantity), LinePrice) == Sum(items, LinePrice) + product.price * quantity
  {
    if i < |items| {
      MergedLineTotal(items, i, quantity);
    } else {
      AppendedLineTotal(items, CartLine(product.id, product.name, product.price, quantity));
    }
  }

  lemma MergedLineTotal(items: seq<CartLine>, i: nat, quantity: int)
    requires i < |items|
    ensures Sum(items[i := Merged(items[i], quantity)], LinePrice)
      == Sum(items, LinePrice) + items[i].price * quantity
  {
    var line := items[i];
    SumUpdate(items, i, Merged(line, quantity), LinePrice);
    assert line.price * (line.quantity + quantity) == line.price * line.quantity + line.price * quantity;
  }

  lemma AppendedLineTotal(items: seq<CartLine>, line: CartLine)
    ensures Sum(items + [line], LinePrice) == Sum(items, LinePrice) + line.price * line.quantity
  {
    SumAppend(items, [line], LinePrice);
    assert [line][1..] == [];
  }

  /** Setting the quantity of an id not in the cart changes nothing. */
  lemma CartSetQuantityAbsent(items: seq<CartLine>, productId: int, quantity: int)
    requires !HasKey(items, LineId, productId)
    ensures CartSetQuantity(items, productId, quantity) == items
  {
    KeyIndexFinds(items, LineId, productId);
  }

  /** A quantity <= 0 for a present id removes the product, as `removeItem` does. */
  lemma CartSetQuantityRemoves(items: seq<CartLine>, productId: int, quantity: int)
    requires HasKey(items, LineId, productId) && quantity <= 0
    ensures CartSetQuantity(items, productId, quantity) == WithoutKey(items, LineId, productId)
  {
    KeyIndexFinds(items, LineId, productId);
  }

  /** A positive quantity for a present id replaces that line's quantity; nothing else changes. */
  lemma CartSetQuantitySets(items: seq<CartLine>, productId: int, quantity: int, i: nat)
    requires i == KeyIndex(items, LineId, productId) && i < |items| && quantity > 0
    ensures var r := CartSetQuantity(items, productId, quantity);
      && |r| == |items|
      && r[i].id == items[i].id && r[i].name == items[i].name && r[i].price == items[i].price
      && r[i].quantity == quantity
      && forall k :: 0 <= k < |items| && k != i ==> r[k] == items[k]
  {
  }

  /** Setting a quantity keeps at most one line per product id. */
  lemma CartSetQuantityKeepsUnique(items: seq<CartLine>, productId: int, quantity: int)
    requires UniqueKeys(items, LineId)
    ensures UniqueKeys(CartSetQuantity(items, productId, quantity), LineId)
  {
    var i := KeyIndex(items, LineId, productId);
    if i < |items| {
      if quantity <= 0 {
        WithoutKeyKeepsUnique(items, LineId, productId);
      } else {
        UpdateSameKeyKeepsUnique(items, i, WithQuantity(items[i], quantity), LineId);
      }
    }
  }

  /**
   * On a cart with unique ids, setting the quantity of a present line replaces its
   * contribution to the item count (a quantity <= 0 removes it): the update is not additive.
   */
  lemma CartSetQuantityCount(items: seq<CartLine>, productId: int, quantity: int, i: nat)
    requires UniqueKeys(items, LineId)
    requires i == KeyIndex(items, LineId, productId) && i < |items|
    ensures Sum(CartSetQuantity(items, productId, quantity), LineQuantity)
      == Sum(items, LineQuantity) - items[i].quantity + (if quantity <= 0 then 0 else quantity)
  {
    if quantity <= 0 {
      SumWithoutUniqueKey(items, LineId, productId, LineQuantity);
    } else {
      SumUpdate(items, i, WithQuantity(items[i], quantity), LineQuantity);
    }
  }

  /** The same for the total: the line now contributes its price times the new quantity, or nothing. */
  lemma CartSetQuantityTotal(items: seq<CartLine>, productId: int, quantity: int, i: nat)
    requires UniqueKeys(items, LineId)
    requires i == KeyIndex(items, LineId, productId) && i < |items|
    ensures Sum(CartSetQuantity(items, productId, quantity), LinePrice)
      == Sum(items, LinePrice) - LinePrice(items[i]) + (if quantity <= 0 then 0 else items[i].price * quantity)
  {
    if quantity <= 0 {
      SumWithoutUniqueKey(items, LineId, productId, LinePrice);
    } else {
      SumUpdate(items, i, WithQuantity(items[i], quantity), LinePrice);
    }
  }

  /** On a cart with unique ids, removing a present id drops its one line and keeps the rest in order. */
  lemma CartRemoveInOrder(items: seq<CartLine>, productId: int, i: nat)
    requires UniqueKeys(items, LineId)
    requires i == KeyIndex(items, LineId, productId) && i < |items|
    ensures WithoutKey(items, LineId, productId) == items[..i] + items[i + 1..]
  {
    WithoutUniqueKey(items, LineId, productId);
  }

  /** Removing an id not in the cart changes nothing. */
  lemma {:induction false} CartRemoveAbsent(items: seq<CartLine>, productId: int)
    requires !HasKey(items, LineId, productId)
    ensures WithoutKey(items, LineId, productId) == items
  {
    if items != [] {
      assert !HasKey(items[1..], LineId, productId) by {
        forall k | 0 <= k < |items[1..]| ensures items[1..][k].id != productId {
          assert items[1..][k] == items[k + 1];
        }
      }
      CartRemoveAbsent(items[1..], productId);
    }
  }

  /** Every line holds at least one unit. */
  ghost predicate PositiveQuantities(items: seq<CartLine>)
  {
    forall k :: 0 <= k < |items| ==> items[k].quantity >= 1
  }

  /** Removing lines keeps every remaining line at one unit or more. */
  lemma CartRemoveKeepsPositive(items: seq<CartLine>, productId: int)
    requires PositiveQuantities(items)
    ensures PositiveQuantities(WithoutKey(items, LineId, productId))
  {
    var r := WithoutKey(items, LineId, productId);
    forall k | 0 <= k < |r| ensures r[k].quantity >= 1 {
      var j :| 0 <= j < |items| && items[j] == r[k];
    }
  }

  /** Adding one unit or more keeps every line at one unit or more. */
  lemma CartAddKeepsPositive(items: seq<CartLine>, product: MockProduct, quantity: int)
    requires PositiveQuantities(items) && quantity >= 1
    ensures PositiveQuantities(CartAdd(items, product, quantity))
  {
  }

  /** updateQuantity never leaves a line below one unit: a quantity <= 0 removes the line. */
  lemma CartSetQuantityKeepsPositive(items: seq<CartLine>, productId: int, quantity: int)
    requires PositiveQuantities(items)
    ensures PositiveQuantities(CartSetQuantity(items, productId, quantity))
  {
    if quantity <= 0 {
      CartRemoveKeepsPositive(items, productId);
    }
  }

  /** The mock cart: a list of lines with at most one line per product id. */
  class Cart {
    var items: seq<CartLine>

    ghost predicate Valid()
      reads this
    {
      UniqueKeys(items, LineId)
    }

    constructor ()
      ensures items == [] && Valid()
    {
      items := [];
    }

    /** Cart.addItem: `+=` on the line with the product's id, or a push of a new line. */
    method AddItem(product: MockProduct, quantity: int)
      modifies this
      ensures items == CartAdd(old(items), product, quantity)
      ensures old(Valid()) ==> Valid()
      ensures old(PositiveQuantities(items)) && quantity >= 1 ==> PositiveQuantities(items)
    {
      ghost var before := items;
      var i := KeyIndex(items, LineId, product.id);
      if i < |items| {
        items := items[i := Merged(items[i], quantity)];
      } else {
        items := items + [CartLine(product.id, product.name, product.price, quantity)];
      }
      if UniqueKeys(before, LineId) {
        CartAddKeepsUnique(before, product, quantity);
      }
      if PositiveQuantities(before) && quantity >= 1 {
        CartAddKeepsPositive(before, product, quantity);
      }
    }

    /** Cart.removeItem: keep the lines whose id differs. */
    method RemoveItem(productId: int)
      modifies this
      ensures items == WithoutKey(old(items), LineId, productId)
      ensures old(Valid()) ==> Valid()
      ensures old(PositiveQuantities(items)) ==> PositiveQuantities(items)
    {
      if Valid() {
        WithoutKeyKeepsUnique(items, LineId, productId);
      }
      if PositiveQuantities(items) {
        CartRemoveKeepsPositive(items, productId);
      }
      items := WithoutKey(items, LineId, productId);
    }

    /** Cart.updateQuantity: nothing for an absent id, removal at <= 0, otherwise an exact set. */
    method UpdateQuantity(productId: int, quantity: int)
      modifies this
      ensures items == CartSetQuantity(old(items), productId, quantity)
      ensures old(Valid()) ==> Valid()
      ensures old(PositiveQuantities(items)) ==> PositiveQuantities(items)
    {
      if Valid() {
        CartSetQuantityKeepsUnique(items, productId, quantity);
      }
      if PositiveQuantities(items) {
        CartSetQuantityKeepsPositive(items, productId, quantity);
      }
      var i := KeyIndex(items, LineId, productId);
      if i < |items| {
        if quantity <= 0 {
          RemoveItem(productId);
        } else {
          items := items[i := WithQuantity(items[i], quantity)];
        }
      }
    }

    /** Cart.getTotal: the sum of price * quantity over the lines. */
    function GetTotal(): (total: int)
      reads this
      ensures items == [] ==> total == 0
    {
      Sum(items, LinePrice)
    }

    /** Cart.getItemCount: the sum of the quantities. */
    function GetItemCount(): (count: int)
      reads this
      ensures items == [] ==> count == 0
    {
      Sum(items, LineQuantity)
    }

    method Clear()
      modifies this
      ensures items == [] && Valid()
      ensures GetTotal() == 0 && GetItemCount() == 0
    {
      items := [];
    }
  }

  /** The selector's new value: `Math.max(1, current + change)`. */
  function NextSelectorQuantity(current: int, change: int): (n: int)
    ensures n >= 1 && n >= current + change
    ensures current + change >= 1 ==> n == current + change
    ensures current + change < 1 ==> n == 1
  {
    if current + change > 1 then current + change else 1
  }

  const EMPTY_CART: string := "Your cart is empty"
  const ORDER_FAILED: string := "Failed to place order. Please try again."
  const NO_INSTRUCTIONS: string := "No special instructions"

  /** The stored instructions: the trimmed field, or the default text when that is empty. */
  function OrderInstructions(field: string): (r: string)
    ensures r != []
    ensures AllWhitespace(field) ==> r == NO_INSTRUCTIONS
    ensures !AllWhitespace(field) ==> r == TrimJs(field)
  {
    var t := TrimJs(field);
    if t == [] then NO_INSTRUCTIONS else t
  }

  /**
   * The user dashboard's state: its cart, the order list it pushes to (MOCK_ORDERS), the
   * catalog (MOCK_PRODUCTS) and the value each product's quantity selector shows.
   */
  class Dashboard {
    const cart: Cart
    const catalog: seq<MockProduct>
    var orders: seq<MockOrder>
    var selector: map<int, int>

    ghost predicate Valid()
      reads this, cart
    {
      && cart.Valid() && PositiveQuantities(cart.items) && SequentialIds(orders)
      && forall id :: id in selector ==> selector[id] >= 1
    }

    /** Every catalog product is rendered with its selector showing 1. */
    constructor ()
      ensures fresh(cart) && cart.items == [] && catalog == MOCK_PRODUCTS && orders == []
      ensures selector == map p | p in MOCK_PRODUCTS :: p.id := 1
      ensures Valid()
    {
      cart := new Cart();
      catalog := MOCK_PRODUCTS;
      orders := [];
      selector := map p | p in MOCK_PRODUCTS :: p.id := 1;
    }

    /** UserDashboard.updateProductQuantity: only a rendered selector changes. */
    method UpdateProductQuantity(productId: int, change: int)
      requires Valid()
      modifies this`selector
      ensures Valid()
      ensures productId in old(selector) ==>
        selector == old(selector)[productId := NextSelectorQuantity(old(selector)[productId], change)]
      ensures productId !in old(selector) ==> selector == old(selector)
    {
      if productId in selector {
        var current := selector[productId];
        selector := selector[productId := NextSelectorQuantity(current, change)];
      }
    }

    /**
     * UserDashboard.addToCart: the catalog product with that id goes into the cart in the
     * selector's quantity (1 when it has no selector), and the selector is reset to 1.
     * Availability is not checked here; only the rendered button is disabled.
     */
    method AddToCart(productId: int)
      requires Valid()
      modifies this`selector, cart
      ensures Valid() && orders == old(orders)
      ensures var i := KeyIndex(catalog, ProductId, productId);
        if i < |catalog| then
          && cart.items == CartAdd(old(cart.items), catalog[i],
                                   if productId in old(selector) then old(selector)[productId] else 1)
          && selector == if productId in old(selector) then old(selector)[productId := 1] else old(selector)
        else cart.items == old(cart.items) && selector == old(selector)
    {
      var i := KeyIndex(catalog, ProductId, productId);
      var quantity := if productId in selector then selector[productId] else 1;
      if i < |catalog| {
        cart.AddItem(catalog[i], quantity);
        if productId in selector {
          selector := selector[productId := 1];
        }
      }
    }

    /**
     * UserDashboard.placeOrder, order construction only. An empty cart is refused. A missing
     * current user makes reading its id throw, which the handler reports as a failure with
     * nothing changed. Otherwise one PENDING order with id |orders| + 1, a copy of the lines and
     * their total is pushed, and the cart is cleared. The two timestamps are the two readings
     * of the clock the source takes.
     */
    method PlaceOrder(currentUser: Option<int>, instructionsField: string, createdAt: string, updatedAt: string)
      returns (outcome: Result<int, string>)
      requires Valid()
      modifies this`orders, cart
      ensures Valid()
      ensures old(cart.items) == [] ==>
        outcome == Failure(EMPTY_CART) && orders == old(orders) && cart.items == old(cart.items)
      ensures old(cart.items) != [] && currentUser.None? ==>
        outcome == Failure(ORDER_FAILED) && orders == old(orders) && cart.items == old(cart.items)
      ensures old(cart.items) != [] && currentUser.Some? ==>
        && outcome == Success(|old(orders)| + 1)
        && orders == old(orders) + [MockOrder(|old(orders)| + 1, currentUser.value, old(cart.items),
                                              Sum(old(cart.items), LinePrice),
                                              OrderInstructions(instructionsField),
                                              Config.PENDING, createdAt, updatedAt)]
        && cart.items == []
    {
      if cart.items == [] {
        return Failure(EMPTY_CART);
      }
      var instructions := TrimJs(instructionsField);
      if currentUser.None? {
        return Failure(ORDER_FAILED);
      }
      var order := MockOrder(|orders| + 1, currentUser.value, cart.items, cart.GetTotal(),
                             if instructions == [] then NO_INSTRUCTIONS else instructions,
                             Config.PENDING, createdAt, updatedAt);
      orders := orders + [order];
      cart.Clear();
      outcome := Success(order.id);
    }
  }
}
