/**
 * frontend/js/app.js: the storefront of the food-order backend. Its global state is the
 * cart (lines holding the food record itself and a quantity), the food list loaded from
 * the API, the current user and the auth token. Rendering, fetch calls and localStorage are
 * not modelled; a server reply enters as a success flag.
 */
module App {
  import opened Wrappers
  import opened Seqs
  import opened FoodOrderModel
  import FoodOrderOrders

  const API_BASE_URL: string := "http://localhost:8080/api"

  /** One cart line: `{ food, quantity }`. */
  datatype CartEntry = CartEntry(food: Food, quantity: int)

  function EntryFoodId(e: CartEntry): int { e.food.id }

  function EntrySubtotal(e: CartEntry): int { e.food.price * e.quantity }

  function EntryQuantity(e: CartEntry): int { e.quantity }

  /** The line with one more unit (`existingItem.quantity += 1`). */
  function OneMore(e: CartEntry): CartEntry { e.(quantity := e.quantity + 1) }

  /** The line with its quantity set (`item.quantity = newQuantity`). */
  function WithQuantity(e: CartEntry, quantity: int): CartEntry { e.(quantity := quantity) }

  /** The cart after `addToCart` of a known food. */
  function AddEntry(cart: seq<CartEntry>, food: Food): seq<CartEntry>
  {
    AddEntryAt(cart, KeyIndex(cart, EntryFoodId, food.id), food)
  }

  function AddEntryAt(cart: seq<CartEntry>, i: nat, food: Food): seq<CartEntry>
    requires i <= |cart|
  {
    if i < |cart| then cart[i := OneMore(cart[i])]
    else cart + [CartEntry(food, 1)]
  }

  /** The cart after `updateCartQuantity(foodId, newQuantity)`. */
  function SetEntryQuantity(cart: seq<CartEntry>, foodId: int, newQuantity: int): seq<CartEntry>
  {
    if newQuantity <= 0 then WithoutKey(cart, EntryFoodId, foodId)
    else SetEntryAt(cart, KeyIndex(cart, EntryFoodId, foodId), newQuantity)
  }

  function SetEntryAt(cart: seq<CartEntry>, i: nat, newQuantity: int): seq<CartEntry>
    requires i <= |cart|
  {
    if i < |cart| then cart[i := WithQuantity(cart[i], newQuantity)] else cart
  }

  /** The `items` of the checkout body: `{ foodId, quantity }` per cart line, in cart order. */
  function CheckoutItems(cart: seq<CartEntry>): (r: seq<OrderItemRequest>)
    ensures |r| == |cart|
    ensures forall k :: 0 <= k < |cart| ==> r[k] == OrderItemRequest(cart[k].food.id, cart[k].quantity)
  {
    seq(|cart|, k requires 0 <= k < |cart| => OrderItemRequest(cart[k].food.id, cart[k].quantity))
  }

  /** A food already in the cart gets exactly one more unit; no line is added and the rest is unchanged. */
  lemma AddEntryMerges(cart: seq<CartEntry>, food: Food, i: nat)
    requires i == KeyIndex(cart, EntryFoodId, food.id) && i < |cart|
    ensures var r := AddEntry(cart, food);
      && |r| == |cart| && r[i].food == cart[i].food && r[i].quantity == cart[i].quantity + 1
      && forall k :: 0 <= k < |cart| && k != i ==> r[k] == cart[k]
  {
  }

  /** A food not in the cart is appended as `{ food, quantity: 1 }`. */
  lemma AddEntryAppends(cart: seq<CartEntry>, food: Food)
    requires !HasKey(cart, EntryFoodId, food.id)
    ensures AddEntry(cart, food) == cart + [CartEntry(food, 1)]
  {
    KeyIndexFinds(cart, EntryFoodId, food.id);
  }

  lemma AddEntryKeepsUnique(cart: seq<CartEntry>, food: Food)
    requires UniqueKeys(cart, EntryFoodId)
    ensures UniqueKeys(AddEntry(cart, food), EntryFoodId)
  {
    var i := KeyIndex(cart, EntryFoodId, food.id);
    KeyIndexFinds(cart, EntryFoodId, food.id);
    if i < |cart| {
      UpdateSameKeyKeepsUnique(cart, i, OneMore(cart[i]), EntryFoodId);
    } else {
      AppendFreshKeepsUnique(cart, CartEntry(food, 1), EntryFoodId);
    }
  }

  /** Adding a food raises the item count by one. */
  lemma AddEntryCount(cart: seq<CartEntry>, food: Food)
    ensures Sum(AddEntry(cart, food), EntryQuantity) == Sum(cart, EntryQuantity) + 1
  {
    var i := KeyIndex(cart, EntryFoodId, food.id);
    if i < |cart| {
      SumUpdate(cart, i, OneMore(cart[i]), EntryQuantity);
    } else {
      SumAppend(cart, [CartEntry(food, 1)], EntryQuantity);
    }
  }

  /** Adding a food raises the total by the price of the food record in its line. */
  lemma AddEntryTotal(cart: seq<CartEntry>, food: Food, i: nat)
    requires i == KeyIndex(cart, EntryFoodId, food.id)
    ensures i < |cart| ==> Sum(AddEntry(cart, food), EntrySubtotal) == Sum(cart, EntrySubtotal) + cart[i].food.price
    ensures i == |cart| ==> Sum(AddEntry(cart, food), EntrySubtotal) == Sum(cart, EntrySubtotal) + food.price
  {
    if i < |cart| {
      OneMoreUnitTotal(cart, i);
    } else {
      var added := CartEntry(food, 1);
      SumAppend(cart, [added], EntrySubtotal);
      assert [added][1..] == [];
    }
  }

  lemma OneMoreUnitTotal(cart: seq<CartEntry>, i: nat)
    requires i < |cart|
    ensures Sum(cart[i := OneMore(cart[i])], EntrySubtotal)
      == Sum(cart, EntrySubtotal) + cart[i].food.price
  {
    var e := cart[i];
    SumUpdate(cart, i, OneMore(e), EntrySubtotal);
    assert e.food.price * (e.quantity + 1) == e.food.price * e.quantity + e.food.price;
  }

  /** A positive quantity for a food in the cart replaces that line's quantity; nothing else changes. */
  lemma SetEntryQuantitySets(cart: seq<CartEntry>, foodId: int, newQuantity: int, i: nat)
    requires i == KeyIndex(cart, EntryFoodId, foodId) && i < |cart| && newQuantity > 0
    ensures var r := SetEntryQuantity(cart, foodId, newQuantity);
      && |r| == |cart| && r[i].food == cart[i].food && r[i].quantity == newQuantity
      && forall k :: 0 <= k < |cart| && k != i ==> r[k] == cart[k]
  {
  }

  /** A positive quantity for a food not in the cart changes nothing. */
  lemma SetEntryQuantityAbsent(cart: seq<CartEntry>, foodId: int, newQuantity: int)
    requires !HasKey(cart, EntryFoodId, foodId) && newQuantity > 0
    ensures SetEntryQuantity(cart, foodId, newQuantity) == cart
  {
    KeyIndexFinds(cart, EntryFoodId, foodId);
  }

  lemma SetEntryQuantityKeepsUnique(cart: seq<CartEntry>, foodId: int, newQuantity: int)
    requires UniqueKeys(cart, EntryFoodId)
    ensures UniqueKeys(SetEntryQuantity(cart, foodId, newQuantity), EntryFoodId)
  {
    var i := KeyIndex(cart, EntryFoodId, foodId);
    if newQuantity <= 0 {
      WithoutKeyKeepsUnique(cart, EntryFoodId, foodId);
    } else if i < |cart| {
      UpdateSameKeyKeepsUnique(cart, i, WithQuantity(cart[i], newQuantity), EntryFoodId);
    }
  }

  /** Every line holds at least one unit. */
  ghost predicate PositiveEntries(cart: seq<CartEntry>)
  {
    forall k :: 0 <= k < |cart| ==> cart[k].quantity >= 1
  }

  /** addToCart starts a line at one unit and only ever adds one. */
  lemma AddEntryKeepsPositive(cart: seq<CartEntry>, food: Food)
    requires PositiveEntries(cart)
    ensures PositiveEntries(AddEntry(cart, food))
  {
  }

  /** Removing lines keeps every remaining line at one unit or more. */
  lemma RemoveEntryKeepsPositive(cart: seq<CartEntry>, foodId: int)
    requires PositiveEntries(cart)
    ensures PositiveEntries(WithoutKey(cart, EntryFoodId, foodId))
  {
    var r := WithoutKey(cart, EntryFoodId, foodId);
    forall k | 0 <= k < |r| ensures r[k].quantity >= 1 {
      var j :| 0 <= j < |cart| && cart[j] == r[k];
    }
  }

  /** updateCartQuantity never leaves a line below one unit: a quantity <= 0 removes the line. */
  lemma SetEntryQuantityKeepsPositive(cart: seq<CartEntry>, foodId: int, newQuantity: int)
    requires PositiveEntries(cart)
    ensures PositiveEntries(SetEntryQuantity(cart, foodId, newQuantity))
  {
    if newQuantity <= 0 {
      RemoveEntryKeepsPositive(cart, foodId);
    }
  }

  /**
   * The checkout body agrees with the backend: when every cart line holds the backend's
   * current, available record for its food, the backend builds the order and its total is
   * the cart total the storefront shows.
   */
  lemma CheckoutTotalMatchesBackend(cart: seq<CartEntry>, foods: map<int, Food>)
    requires forall k :: 0 <= k < |cart| ==>
      cart[k].food.id in foods && foods[cart[k].food.id] == cart[k].food && cart[k].food.available
    ensures FoodOrderOrders.BuildItems(foods, CheckoutItems(cart)).Success?
    ensures Sum(FoodOrderOrders.BuildItems(foods, CheckoutItems(cart)).value, Subtotal) == Sum(cart, EntrySubtotal)
  {
    var requests := CheckoutItems(cart);
    FoodOrderOrders.BuildItemsSucceeds(foods, requests);
    var items := FoodOrderOrders.BuildItems(foods, requests).value;
    FoodOrderOrders.BuildItemsSnapshot(foods, requests, items);
    SumPointwise(items, Subtotal, cart, EntrySubtotal);
  }

  /** The storefront's globals. */
  class Storefront {
    var cart: seq<CartEntry>
    var allFoods: seq<Food>
    var currentUser: Option<User>
    var authToken: Option<string>

    ghost predicate Valid()
      reads this
    {
      UniqueKeys(cart, EntryFoodId) && PositiveEntries(cart)
    }

    constructor ()
      ensures cart == [] && allFoods == [] && currentUser == None && authToken == None && Valid()
    {
      cart := [];
      allFoods := [];
      currentUser := None;
      authToken := None;
    }

    /** addToCart: an id not in `allFoods` is ignored; otherwise `+= 1` on its line or a push. */
    method AddToCart(foodId: int)
      modifies this`cart
      ensures KeyIndex(allFoods, FoodId, foodId) == |allFoods| ==> cart == old(cart)
      ensures KeyIndex(allFoods, FoodId, foodId) < |allFoods| ==>
        cart == AddEntry(old(cart), allFoods[KeyIndex(allFoods, FoodId, foodId)])
      ensures old(Valid()) ==> Valid()
    {
      var f := KeyIndex(allFoods, FoodId, foodId);
      if f == |allFoods| {
        return;
      }
      var food := allFoods[f];
      if Valid() {
        AddEntryKeepsUnique(cart, food);
        AddEntryKeepsPositive(cart, food);
      }
      var i := KeyIndex(cart, EntryFoodId, foodId);
      if i < |cart| {
        cart := cart[i := OneMore(cart[i])];
      } else {
        cart := cart + [CartEntry(food, 1)];
      }
    }

    /** removeFromCart: keep the lines of other foods, in order. */
    method RemoveFromCart(foodId: int)
      modifies this`cart
      ensures cart == WithoutKey(old(cart), EntryFoodId, foodId)
      ensures old(Valid()) ==> Valid()
    {
      if Valid() {
        WithoutKeyKeepsUnique(cart, EntryFoodId, foodId);
        RemoveEntryKeepsPositive(cart, foodId);
      }
      cart := WithoutKey(cart, EntryFoodId, foodId);
    }

    /** updateCartQuantity: `<= 0` is removeFromCart; otherwise an exact set on a present line. */
    method UpdateCartQuantity(foodId: int, newQuantity: int)
      modifies this`cart
      ensures cart == SetEntryQuantity(old(cart), foodId, newQuantity)
      ensures newQuantity <= 0 ==> cart == WithoutKey(old(cart), EntryFoodId, foodId)
      ensures old(Valid()) ==> Valid()
    {
      if Valid() {
        SetEntryQuantityKeepsUnique(cart, foodId, newQuantity);
        SetEntryQuantityKeepsPositive(cart, foodId, newQuantity);
      }
      if newQuantity <= 0 {
        RemoveFromCart(foodId);
        return;
      }
      var i := KeyIndex(cart, EntryFoodId, foodId);
      if i < |cart| {
        cart := cart[i := WithQuantity(cart[i], newQuantity)];
      }
    }

    /**
     * The total updateCartDisplay writes: nothing when the cart is empty (the section is
     * hidden), otherwise the running sum of price * quantity over the lines.
     */
    method CartDisplayTotal() returns (shown: Option<int>)
      ensures cart == [] ==> shown == None
      ensures cart != [] ==> shown == Some(Sum(cart, EntrySubtotal))
    {
      if |cart| == 0 {
        return None;
      }
      var total := 0;
      for i := 0 to |cart|
        invariant total == Sum(cart[..i], EntrySubtotal)
      {
        var subtotal := cart[i].food.price * cart[i].quantity;
        SumPrefixStep(cart, i, EntrySubtotal);
        total := total + subtotal;
      }
      assert cart[..|cart|] == cart;
      shown := Some(total);
    }

    /** The total updateOrderSummary writes: the same running sum, for any cart. */
    method OrderSummaryTotal() returns (total: int)
      ensures total == Sum(cart, EntrySubtotal)
    {
      total := 0;
      for i := 0 to |cart|
        invariant total == Sum(cart[..i], EntrySubtotal)
      {
        var subtotal := cart[i].food.price * cart[i].quantity;
        SumPrefixStep(cart, i, EntrySubtotal);
        total := total + subtotal;
      }
      assert cart[..|cart|] == cart;
    }

    /** showCheckout: refused on an empty cart; otherwise the checkout opens with its summary total. */
    method ShowCheckout() returns (summary: Option<int>)
      ensures summary.None? <==> cart == []
      ensures summary.Some? ==> summary.value == Sum(cart, EntrySubtotal)
    {
      if |cart| == 0 {
        return None;
      }
      var total := OrderSummaryTotal();
      summary := Some(total);
    }

    /** The body handleCheckout posts. */
    function CheckoutPayload(deliveryAddress: string): (r: OrderRequest)
      reads this
      ensures r.deliveryAddress == deliveryAddress && |r.items| == |cart|
      ensures forall k :: 0 <= k < |cart| ==>
        r.items[k].foodId == cart[k].food.id && r.items[k].quantity == cart[k].quantity
    {
      OrderRequest(deliveryAddress, CheckoutItems(cart))
    }

    /** handleCheckout after the reply: the cart is emptied only when the response is ok. */
    method FinishCheckout(responseOk: bool)
      modifies this`cart
      ensures cart == if responseOk then [] else old(cart)
      ensures Valid()
      requires Valid()
    {
      if responseOk {
        cart := [];
      }
    }

    /** logout: token, user and cart are reset; the loaded food list stays. */
    method Logout()
      modifies this
      ensures authToken == None && currentUser == None && cart == []
      ensures allFoods == old(allFoods)
      ensures Valid()
    {
      authToken := None;
      currentUser := None;
      cart := [];
    }
  }
}
