/**
 * backend/src/main/java/com/foodorder/service/OrderService.java: order creation with
 * per-item price snapshots, status updates and cancellation by the owner. The food and
 * order repositories are maps from id to record, the generated order id comes from a
 * counter, and the user lookup goes through FoodOrderUsers.UserService.
 */
module FoodOrderOrders {
  import opened Wrappers
  import opened Seqs
  import opened FoodOrderModel
  import opened FoodOrderUsers

  const FOOD_NOT_FOUND: string := "Food not found"
  const ORDER_NOT_FOUND: string := "Order not found"
  const NOT_OWNER: string := "You can only cancel your own orders"
  const CANNOT_CANCEL: string := "Cannot cancel this order"

  function NotAvailable(name: string): string
  {
    "Food item " + name + " is not available"
  }

  /** A request line can be ordered: its food exists and is available. */
  predicate Orderable(foods: map<int, Food>, request: OrderItemRequest)
  {
    request.foodId in foods && foods[request.foodId].available
  }

  /** The loop body for one request line: the item with the food's current price, or the error it throws. */
  function ItemFor(foods: map<int, Food>, request: OrderItemRequest): Result<OrderItem, string>
  {
    if request.foodId !in foods then Failure(FOOD_NOT_FOUND)
    else
      var food := foods[request.foodId];
      if !food.available then Failure(NotAvailable(food.name))
      else Success(OrderItem(request.foodId, request.quantity, food.price, food.price * request.quantity))
  }

  /** The items the loop builds for a list of request lines, in order, or the first error. */
  function BuildItems(foods: map<int, Food>, requests: seq<OrderItemRequest>): Result<seq<OrderItem>, string>
  {
    if requests == [] then Success([])
    else
      match BuildItems(foods, requests[..|requests| - 1])
      case Failure(e) => Failure(e)
      case Success(items) =>
        match ItemFor(foods, requests[|requests| - 1])
        case Failure(e) => Failure(e)
        case Success(item) => Success(items + [item])
  }

  /** The order is built exactly when every line's food exists and is available. */
  lemma {:induction false} BuildItemsSucceeds(foods: map<int, Food>, requests: seq<OrderItemRequest>)
    ensures BuildItems(foods, requests).Success?
      <==> forall k :: 0 <= k < |requests| ==> Orderable(foods, requests[k])
  {
    if requests != [] {
      var front := requests[..|requests| - 1];
      BuildItemsSucceeds(foods, front);
      assert forall k :: 0 <= k < |front| ==> front[k] == requests[k];
    }
  }

  /**
   * A built order has one item per request line, in request order, each with the food's
   * price at this moment and subtotal = price * quantity.
   */
  lemma {:induction false} BuildItemsSnapshot(foods: map<int, Food>, requests: seq<OrderItemRequest>, items: seq<OrderItem>)
    requires BuildItems(foods, requests) == Success(items)
    ensures |items| == |requests|
    ensures forall k :: 0 <= k < |items| ==>
      && requests[k].foodId in foods
      && items[k].foodId == requests[k].foodId
      && items[k].quantity == requests[k].quantity
      && items[k].price == foods[requests[k].foodId].price
      && items[k].subtotal == items[k].price * items[k].quantity
  {
    if requests != [] {
      var front := requests[..|requests| - 1];
      var frontItems := BuildItems(foods, front).value;
      BuildItemsSnapshot(foods, front, frontItems);
      assert items == frontItems + [ItemFor(foods, requests[|requests| - 1]).value];
      forall k | 0 <= k < |items|
        ensures requests[k].foodId in foods && items[k].foodId == requests[k].foodId
      {
        if k < |front| {
          assert front[k] == requests[k];
        }
      }
    }
  }

  /** The error of a failed build is the error of the first line that cannot be ordered. */
  lemma {:induction false} BuildItemsFirstError(foods: map<int, Food>, requests: seq<OrderItemRequest>, k: nat)
    requires k < |requests| && !Orderable(foods, requests[k])
    requires forall j :: 0 <= j < k ==> Orderable(foods, requests[j])
    ensures ItemFor(foods, requests[k]).Failure?
    ensures BuildItems(foods, requests) == Failure(ItemFor(foods, requests[k]).error)
  {
    var prefix := requests[..k];
    assert forall j :: 0 <= j < |prefix| ==> Orderable(foods, prefix[j]);
    BuildItemsSucceeds(foods, prefix);
    assert requests[..k + 1][..k] == prefix;
    PrefixFailure(foods, requests, k + 1);
  }

  /** Once a prefix of the lines fails, the whole build fails with the same error. */
  lemma {:induction false} PrefixFailure(foods: map<int, Food>, requests: seq<OrderItemRequest>, j: nat)
    requires j <= |requests| && BuildItems(foods, requests[..j]).Failure?
    ensures BuildItems(foods, requests) == BuildItems(foods, requests[..j])
    decreases |requests| - j
  {
    if j < |requests| {
      assert requests[..j + 1][..j] == requests[..j];
      PrefixFailure(foods, requests, j + 1);
    } else {
      assert requests[..j] == requests;
    }
  }

  /** The build step for one more line, as the loop takes it. */
  lemma BuildItemsStep(foods: map<int, Food>, requests: seq<OrderItemRequest>, i: nat, items: seq<OrderItem>)
    requires i < |requests| && BuildItems(foods, requests[..i]) == Success(items)
    ensures BuildItems(foods, requests[..i + 1])
      == match ItemFor(foods, requests[i])
         case Failure(e) => Failure(e)
         case Success(item) => Success(items + [item])
  {
    assert requests[..i + 1][..i] == requests[..i];
  }

  /** cancelOrder's status rule: only DELIVERED and CANCELLED orders are refused. */
  predicate CanCancel(status: FoodOrderStatus)
  {
    status != Delivered && status != Cancelled
  }

  /** The outcome of cancelOrder, in the order the checks are made. */
  function CancelOutcome(orders: map<int, Order>, users: UserService, orderId: int, username: string)
    : (r: Result<Order, string>)
    reads users
    ensures orderId !in orders ==> r == Failure(ORDER_NOT_FOUND)
    ensures orderId in orders && users.FindByUsername(username).Failure? ==> r == Failure(USER_NOT_FOUND)
    ensures (orderId in orders && users.FindByUsername(username).Success?
             && orders[orderId].userId != users.FindByUsername(username).value.id)
      ==> r == Failure(NOT_OWNER)
    ensures (orderId in orders && users.FindByUsername(username).Success?
             && orders[orderId].userId == users.FindByUsername(username).value.id
             && orders[orderId].status in {Delivered, Cancelled})
      ==> r == Failure(CANNOT_CANCEL)
    ensures r.Failure? ==> r.error in {ORDER_NOT_FOUND, USER_NOT_FOUND, NOT_OWNER, CANNOT_CANCEL}
    ensures r.Success? ==> orderId in orders && r.value == orders[orderId].(status := Cancelled)
  {
    if orderId !in orders then Failure(ORDER_NOT_FOUND)
    else
      var found := users.FindByUsername(username);
      if found.Failure? then Failure(found.error)
      else if orders[orderId].userId != found.value.id then Failure(NOT_OWNER)
      else if !CanCancel(orders[orderId].status) then Failure(CANNOT_CANCEL)
      else Success(orders[orderId].(status := Cancelled))
  }

  /** Cancellation succeeds exactly for an existing order of the caller that is neither delivered nor cancelled. */
  lemma CancelOutcomeIff(orders: map<int, Order>, users: UserService, orderId: int, username: string)
    ensures CancelOutcome(orders, users, orderId, username).Success?
      <==> && orderId in orders
           && (exists k :: 0 <= k < |users.users| && users.users[k].username == username)
           && orders[orderId].userId == users.FindByUsername(username).value.id
           && orders[orderId].status in {Pending, Confirmed, Preparing, Ready}
    ensures CancelOutcome(orders, users, orderId, username).Success? ==>
      CancelOutcome(orders, users, orderId, username).value.status == Cancelled
  {
  }

  /** A cancelled order cannot be cancelled a second time. */
  lemma CancelTwiceRefused(orders: map<int, Order>, users: UserService, orderId: int, username: string)
    requires CancelOutcome(orders, users, orderId, username).Success?
    ensures var after := orders[orderId := CancelOutcome(orders, users, orderId, username).value];
      CancelOutcome(after, users, orderId, username) == Failure(CANNOT_CANCEL)
  {
  }

  class OrderService {
    const userService: UserService
    var foods: map<int, Food>
    var orders: map<int, Order>
    var nextId: int

    ghost predicate Valid()
      reads this, userService
    {
      && userService.Valid()
      && (forall id :: id in foods ==> foods[id].id == id)
      && (forall id :: id in orders ==> orders[id].id == id && id < nextId)
    }

    constructor (users: UserService, catalog: map<int, Food>)
      requires users.Valid()
      requires forall id :: id in catalog ==> catalog[id].id == id
      ensures userService == users && foods == catalog && orders == map[] && nextId == 1
      ensures Valid()
    {
      userService := users;
      foods := catalog;
      orders := map[];
      nextId := 1;
    }

    /** getOrderById. */
    function GetOrderById(id: int): (r: Result<Order, string>)
      reads this
      ensures r.Success? <==> id in orders
      ensures r.Success? ==> r.value == orders[id]
      ensures r.Failure? ==> r.error == ORDER_NOT_FOUND
    {
      if id in orders then Success(orders[id]) else Failure(ORDER_NOT_FOUND)
    }

    /**
     * createOrder: the caller's user, then one item per request line with the food's current
     * price, accumulating the total. A missing user, a missing food or an unavailable food
     * aborts with its message and nothing is saved; otherwise a PENDING order is saved.
     */
    method CreateOrder(request: OrderRequest, username: string) returns (r: Result<Order, string>)
      requires Valid()
      modifies this`orders, this`nextId
      ensures Valid()
      ensures userService.FindByUsername(username).Failure? ==>
        r == Failure(USER_NOT_FOUND) && orders == old(orders) && nextId == old(nextId)
      ensures userService.FindByUsername(username).Success? && BuildItems(foods, request.items).Failure? ==>
        r == Failure(BuildItems(foods, request.items).error) && orders == old(orders) && nextId == old(nextId)
      ensures userService.FindByUsername(username).Success? && BuildItems(foods, request.items).Success? ==>
        && r == Success(Order(old(nextId), userService.FindByUsername(username).value.id, request.deliveryAddress,
                              Pending, BuildItems(foods, request.items).value,
                              Sum(BuildItems(foods, request.items).value, Subtotal)))
        && orders == old(orders)[old(nextId) := r.value]
        && nextId == old(nextId) + 1
    {
      var found := userService.FindByUsername(username);
      if found.Failure? {
        return Failure(found.error);
      }
      var user := found.value;
      var total := 0;
      var items: seq<OrderItem> := [];
      for i := 0 to |request.items|
        invariant BuildItems(foods, request.items[..i]) == Success(items)
        invariant total == Sum(items, Subtotal)
        invariant orders == old(orders) && nextId == old(nextId)
      {
        var line := request.items[i];
        BuildItemsStep(foods, request.items, i, items);
        if line.foodId !in foods {
          assert BuildItems(foods, request.items[..i + 1]) == Failure(FOOD_NOT_FOUND);
          PrefixFailure(foods, request.items, i + 1);
          return Failure(FOOD_NOT_FOUND);
        }
        var food := foods[line.foodId];
        if !food.available {
          assert BuildItems(foods, request.items[..i + 1]) == Failure(NotAvailable(food.name));
          PrefixFailure(foods, request.items, i + 1);
          return Failure(NotAvailable(food.name));
        }
        var item := OrderItem(food.id, line.quantity, food.price, food.price * line.quantity);
        SumAppend(items, [item], Subtotal);
        assert Sum([item], Subtotal) == item.subtotal;
        items := items + [item];
        total := total + item.subtotal;
      }
      assert request.items[..|request.items|] == request.items;
      var order := Order(nextId, user.id, request.deliveryAddress, Pending, items, total);
      orders := orders[nextId := order];
      nextId := nextId + 1;
      r := Success(order);
    }

    /** updateOrderStatus: any status is set on an existing order, with no transition check. */
    method UpdateOrderStatus(orderId: int, status: FoodOrderStatus) returns (r: Result<Order, string>)
      requires Valid()
      modifies this`orders
      ensures Valid()
      ensures orderId !in old(orders) ==> r == Failure(ORDER_NOT_FOUND) && orders == old(orders)
      ensures orderId in old(orders) ==>
        && r == Success(old(orders)[orderId].(status := status))
        && orders == old(orders)[orderId := r.value]
    {
      var found := GetOrderById(orderId);
      if found.Failure? {
        return found;
      }
      var order := found.value.(status := status);
      orders := orders[orderId := order];
      r := Success(order);
    }

    /** cancelOrder: the order, then the caller, then ownership, then the status rule. */
    method CancelOrder(orderId: int, username: string) returns (r: Result<(), string>)
      requires Valid()
      modifies this`orders
      ensures Valid()
      ensures CancelOutcome(old(orders), userService, orderId, username).Failure? ==>
        r == Failure(CancelOutcome(old(orders), userService, orderId, username).error) && orders == old(orders)
      ensures CancelOutcome(old(orders), userService, orderId, username).Success? ==>
        r == Success(()) && orders == old(orders)[orderId := CancelOutcome(old(orders), userService, orderId, username).value]
    {
      var found := GetOrderById(orderId);
      if found.Failure? {
        return Failure(found.error);
      }
      var order := found.value;
      var user := userService.FindByUsername(username);
      if user.Failure? {
        return Failure(user.error);
      }
      if order.userId != user.value.id {
        return Failure(NOT_OWNER);
      }
      if order.status == Delivered || order.status == Cancelled {
        return Failure(CANNOT_CANCEL);
      }
      orders := orders[orderId := order.(status := Cancelled)];
      r := Success(());
    }
  }
}
