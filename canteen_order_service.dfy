/**
 * canteen/service/OrderService.java: order creation with per-line price snapshots, status
 * updates with the order-ready SMS trigger, cancellation by the owner, and the day's revenue
 * and order count. The user, product and order repositories are maps from id to record and
 * the generated order id comes from a counter. The SMS itself is returned as a request for
 * the caller to send; its success or failure never affects the update.
 */
module CanteenOrders {
  import opened Wrappers
  import opened Seqs
  import opened Text
  import opened CanteenModel

  function UserNotFound(id: int): string { "User not found with id: " + IntToString(id) }

  function ProductNotFound(id: int): string { "Product not found with id: " + IntToString(id) }

  function ProductUnavailable(name: string): string { "Product is not available: " + name }

  function OrderNotFound(id: int): string { "Order not found with id: " + IntToString(id) }

  const NOT_OWNER: string := "You can only cancel your own orders"
  const CANNOT_CANCEL: string := "Cannot cancel order. Order is already being prepared or completed."

  /** The text of the order-ready notification. */
  function ReadyMessage(orderId: int): string
  {
    "Your order #" + IntToString(orderId) + " is ready for pickup! Please collect it from the canteen."
  }

  /** A message to send by SMS, and the number to send it to. */
  datatype SmsRequest = SmsRequest(phone: string, message: string)

  /** A request line can be ordered: its product exists and is available. */
  predicate Orderable(products: map<int, Product>, request: OrderRequest)
  {
    request.productId in products && products[request.productId].available
  }

  /** The loop body for one request line: the line with the product's current price, or the error it throws. */
  function ItemFor(products: map<int, Product>, request: OrderRequest): Result<ItemRecord, string>
  {
    if request.productId !in products then Failure(ProductNotFound(request.productId))
    else
      var product := products[request.productId];
      if !product.available then Failure(ProductUnavailable(product.name))
      else Success(ItemRecord(request.productId, request.quantity, product.price))
  }

  /** The lines the loop builds for a list of requests, in order, or the first error. */
  function BuildItems(products: map<int, Product>, requests: seq<OrderRequest>): Result<seq<ItemRecord>, string>
  {
    if requests == [] then Success([])
    else
      match BuildItems(products, requests[..|requests| - 1])
      case Failure(e) => Failure(e)
      case Success(items) =>
        match ItemFor(products, requests[|requests| - 1])
        case Failure(e) => Failure(e)
        case Success(item) => Success(items + [item])
  }

  /** The order is built exactly when every requested product exists and is available. */
  lemma {:induction false} BuildItemsSucceeds(products: map<int, Product>, requests: seq<OrderRequest>)
    ensures BuildItems(products, requests).Success?
      <==> forall k :: 0 <= k < |requests| ==> Orderable(products, requests[k])
  {
    if requests != [] {
      var front := requests[..|requests| - 1];
      BuildItemsSucceeds(products, front);
      assert forall k :: 0 <= k < |front| ==> front[k] == requests[k];
    }
  }

  /** A built order has one line per request, in request order, with the product's price at this moment. */
  lemma {:induction false} BuildItemsSnapshot(products: map<int, Product>, requests: seq<OrderRequest>, items: seq<ItemRecord>)
    requires BuildItems(products, requests) == Success(items)
    ensures |items| == |requests|
    ensures forall k :: 0 <= k < |items| ==>
      && requests[k].productId in products
      && items[k].productId == requests[k].productId
      && items[k].quantity == requests[k].quantity
      && items[k].price == products[requests[k].productId].price
  {
    if requests != [] {
      var front := requests[..|requests| - 1];
      var frontItems := BuildItems(products, front).value;
      BuildItemsSnapshot(products, front, frontItems);
      assert items == frontItems + [ItemFor(products, requests[|requests| - 1]).value];
      forall k | 0 <= k < |items|
        ensures requests[k].productId in products && items[k].productId == requests[k].productId
      {
        if k < |front| {
          assert front[k] == requests[k];
        }
      }
    }
  }

  /** What one request line costs at current prices; a missing product costs nothing. */
  function RequestCost(products: map<int, Product>, request: OrderRequest): int
  {
    if request.productId in products then products[request.productId].price * request.quantity else 0
  }

  /** The total of a built order is the sum over the requests of current price times quantity. */
  lemma OrderTotalIsPriceTimesQuantity(products: map<int, Product>, requests: seq<OrderRequest>, items: seq<ItemRecord>)
    requires BuildItems(products, requests) == Success(items)
    ensures Sum(items, ItemTotal) == Sum(requests, r => RequestCost(products, r))
  {
    BuildItemsSnapshot(products, requests, items);
    SumPointwise(items, ItemTotal, requests, r => RequestCost(products, r));
  }

  /** The error of a failed build is the error of the first line that cannot be ordered. */
  lemma {:induction false} BuildItemsFirstError(products: map<int, Product>, requests: seq<OrderRequest>, k: nat)
    requires k < |requests| && !Orderable(products, requests[k])
    requires forall j :: 0 <= j < k ==> Orderable(products, requests[j])
    ensures ItemFor(products, requests[k]).Failure?
    ensures BuildItems(products, requests) == Failure(ItemFor(products, requests[k]).error)
  {
    var prefix := requests[..k];
    assert forall j :: 0 <= j < |prefix| ==> Orderable(products, prefix[j]);
    BuildItemsSucceeds(products, prefix);
    assert requests[..k + 1][..k] == prefix;
    PrefixFailure(products, requests, k + 1);
  }

  /** Once a prefix of the lines fails, the whole build fails with the same error. */
  lemma {:induction false} PrefixFailure(products: map<int, Product>, requests: seq<OrderRequest>, j: nat)
    requires j <= |requests| && BuildItems(products, requests[..j]).Failure?
    ensures BuildItems(products, requests) == BuildItems(products, requests[..j])
    decreases |requests| - j
  {
    if j < |requests| {
      assert requests[..j + 1][..j] == requests[..j];
      PrefixFailure(products, requests, j + 1);
    } else {
      assert requests[..j] == requests;
    }
  }

  /** The build step for one more line, as the loop takes it. */
  lemma BuildItemsStep(products: map<int, Product>, requests: seq<OrderRequest>, i: nat, items: seq<ItemRecord>)
    requires i < |requests| && BuildItems(products, requests[..i]) == Success(items)
    ensures BuildItems(products, requests[..i + 1])
      == match ItemFor(products, requests[i])
         case Failure(e) => Failure(e)
         case Success(item) => Success(items + [item])
  {
    assert requests[..i + 1][..i] == requests[..i];
  }

  /** The SMS updateOrderStatus attempts: only on entering READY from another status. */
  function ReadyNotification(order: OrderRecord, newStatus: OrderStatus): (r: Option<SmsRequest>)
    ensures r.Some? <==> newStatus == READY && order.status != READY
    ensures r.Some? ==> r.value.phone == order.user.phone && r.value.message == ReadyMessage(order.id)
  {
    if newStatus == READY && order.status != READY then Some(SmsRequest(order.user.phone, ReadyMessage(order.id)))
    else None
  }

  /** cancelOrder's status rule: orders being prepared, ready or completed are refused. */
  predicate CanCancel(status: OrderStatus)
  {
    status != PREPARING && status != READY && status != COMPLETED
  }

  /** The outcome of cancelOrder, in the order the checks are made: order, owner, status. */
  function CancelOutcome(orders: map<int, OrderRecord>, orderId: int, userId: int): (r: Result<OrderRecord, string>)
    ensures orderId !in orders ==> r == Failure(OrderNotFound(orderId))
    ensures orderId in orders && orders[orderId].user.id != userId ==> r == Failure(NOT_OWNER)
    ensures (orderId in orders && orders[orderId].user.id == userId
             && orders[orderId].status in {PREPARING, READY, COMPLETED})
      ==> r == Failure(CANNOT_CANCEL)
    ensures r.Success? ==> orderId in orders && r.value == orders[orderId].(status := CANCELLED)
  {
    if orderId !in orders then Failure(OrderNotFound(orderId))
    else if orders[orderId].user.id != userId then Failure(NOT_OWNER)
    else if !CanCancel(orders[orderId].status) then Failure(CANNOT_CANCEL)
    else Success(orders[orderId].(status := CANCELLED))
  }

  /**
   * Cancellation succeeds exactly for an existing order of the caller that is PENDING,
   * CONFIRMED or already CANCELLED.
   */
  lemma CancelOutcomeIff(orders: map<int, OrderRecord>, orderId: int, userId: int)
    ensures CancelOutcome(orders, orderId, userId).Success?
      <==> && orderId in orders && orders[orderId].user.id == userId
           && orders[orderId].status in {PENDING, CONFIRMED, CANCELLED}
  {
  }

  /** Unlike the food-order backend, cancelling an already cancelled order succeeds again and changes nothing. */
  lemma CancelTwiceAllowed(orders: map<int, OrderRecord>, orderId: int, userId: int)
    requires CancelOutcome(orders, orderId, userId).Success?
    ensures CancelOutcome(orders[orderId := CancelOutcome(orders, orderId, userId).value], orderId, userId)
      == CancelOutcome(orders, orderId, userId)
  {
  }

  /** The orders with status COMPLETED, in list order (the stream's filter). */
  function Completed(orders: seq<OrderRecord>): (r: seq<OrderRecord>)
    ensures |r| <= |orders|
    ensures forall k :: 0 <= k < |r| ==> r[k] in orders && r[k].status == COMPLETED
    ensures forall k :: 0 <= k < |orders| && orders[k].status == COMPLETED ==> orders[k] in r
  {
    if orders == [] then []
    else if orders[0].status == COMPLETED then [orders[0]] + Completed(orders[1..])
    else Completed(orders[1..])
  }

  /** What one order adds to the day's revenue: its total when it is completed, nothing otherwise. */
  function RevenueShare(o: OrderRecord): int
  {
    if o.status == COMPLETED then o.totalAmount else 0
  }

  /**
   * getTodaysRevenue over the day's orders: the sum of the totals of the completed ones,
   * which is the sum over every order of its share.
   */
  function Revenue(todays: seq<OrderRecord>): (r: int)
    ensures r == Sum(todays, RevenueShare)
  {
    CompletedSumIsShares(todays);
    Sum(Completed(todays), TotalAmount)
  }

  lemma {:induction false} CompletedSumIsShares(todays: seq<OrderRecord>)
    ensures Sum(Completed(todays), TotalAmount) == Sum(todays, RevenueShare)
  {
    if todays != [] {
      CompletedSumIsShares(todays[1..]);
      if todays[0].status == COMPLETED {
        var rest := Completed(todays[1..]);
        assert ([todays[0]] + rest)[0] == todays[0] && ([todays[0]] + rest)[1..] == rest;
      }
    }
  }

  /** Orders that are not completed add nothing to the revenue, wherever they are in the list. */
  lemma {:induction false} RevenueAppend(a: seq<OrderRecord>, b: seq<OrderRecord>)
    ensures Revenue(a + b) == Revenue(a) + Revenue(b)
  {
    CompletedAppend(a, b);
    SumAppend(Completed(a), Completed(b), TotalAmount);
  }

  lemma {:induction false} CompletedAppend(a: seq<OrderRecord>, b: seq<OrderRecord>)
    ensures Completed(a + b) == Completed(a) + Completed(b)
  {
    if a == [] {
      assert a + b == b;
    } else {
      assert (a + b)[1..] == a[1..] + b;
      CompletedAppend(a[1..], b);
    }
  }

  /** With non-negative totals the revenue lies between 0 and the total of all the day's orders. */
  lemma {:induction false} RevenueBounds(todays: seq<OrderRecord>)
    requires forall k :: 0 <= k < |todays| ==> todays[k].totalAmount >= 0
    ensures 0 <= Revenue(todays) <= Sum(todays, TotalAmount)
  {
    if todays != [] {
      assert forall k :: 0 <= k < |todays[1..]| ==> todays[1..][k] == todays[k + 1];
      RevenueBounds(todays[1..]);
      assert todays == [todays[0]] + todays[1..];
      RevenueAppend([todays[0]], todays[1..]);
    }
  }

  /** A day without completed orders has no revenue. */
  lemma {:induction false} RevenueWithoutCompleted(todays: seq<OrderRecord>)
    requires forall k :: 0 <= k < |todays| ==> todays[k].status != COMPLETED
    ensures Completed(todays) == [] && Revenue(todays) == 0
  {
    if todays != [] {
      assert forall k :: 0 <= k < |todays[1..]| ==> todays[1..][k] == todays[k + 1];
      RevenueWithoutCompleted(todays[1..]);
    }
  }

  /** getTodaysOrderCount: how many orders the day has. */
  function OrderCount(todays: seq<OrderRecord>): (n: nat)
    ensures n == |todays|
    ensures n >= |Completed(todays)|
  {
    |todays|
  }

  class OrderService {
    var users: map<int, CanteenUser>
    var products: map<int, Product>
    var orders: map<int, OrderRecord>
    var nextId: int

    /** Records are stored under their own ids, and every order id is below the counter. */
    ghost predicate Valid()
      reads this
    {
      && (forall id :: id in users ==> users[id].id == id)
      && (forall id :: id in products ==> products[id].id == id)
      && (forall id :: id in orders ==> orders[id].id == id && id < nextId)
    }

    constructor (users: map<int, CanteenUser>, products: map<int, Product>)
      requires forall id :: id in users ==> users[id].id == id
      requires forall id :: id in products ==> products[id].id == id
      ensures this.users == users && this.products == products && orders == map[] && nextId == 1
      ensures Valid()
    {
      this.users := users;
      this.products := products;
      orders := map[];
      nextId := 1;
    }

    /**
     * createOrder: the user, then one line per request with the product's current price,
     * accumulating price * quantity. A missing user, a missing product or an unavailable
     * product aborts with its message and nothing is saved; otherwise a PENDING order is saved.
     */
    method CreateOrder(userId: int, requests: seq<OrderRequest>, specialInstructions: Option<string>)
      returns (r: Result<OrderRecord, string>)
      requires Valid()
      modifies this`orders, this`nextId
      ensures Valid()
      ensures userId !in users ==> r == Failure(UserNotFound(userId)) && orders == old(orders) && nextId == old(nextId)
      ensures userId in users && BuildItems(products, requests).Failure? ==>
        r == Failure(BuildItems(products, requests).error) && orders == old(orders) && nextId == old(nextId)
      ensures userId in users && BuildItems(products, requests).Success? ==>
        && r == Success(OrderRecord(old(nextId), users[userId], BuildItems(products, requests).value,
                                    Sum(BuildItems(products, requests).value, ItemTotal), PENDING,
                                    specialInstructions))
        && orders == old(orders)[old(nextId) := r.value]
        && nextId == old(nextId) + 1
    {
      if userId !in users {
        return Failure(UserNotFound(userId));
      }
      var user := users[userId];
      var totalAmount := 0;
      var items: seq<ItemRecord> := [];
      for i := 0 to |requests|
        invariant BuildItems(products, requests[..i]) == Success(items)
        invariant totalAmount == Sum(items, ItemTotal)
        invariant orders == old(orders) && nextId == old(nextId)
      {
        var request := requests[i];
        BuildItemsStep(products, requests, i, items);
        if request.productId !in products {
          assert BuildItems(products, requests[..i + 1]) == Failure(ProductNotFound(request.productId));
          PrefixFailure(products, requests, i + 1);
          return Failure(ProductNotFound(request.productId));
        }
        var product := products[request.productId];
        if !product.available {
          assert BuildItems(products, requests[..i + 1]) == Failure(ProductUnavailable(product.name));
          PrefixFailure(products, requests, i + 1);
          return Failure(ProductUnavailable(product.name));
        }
        var item := ItemRecord(request.productId, request.quantity, product.price);
        SumAppend(items, [item], ItemTotal);
        assert Sum([item], ItemTotal) == ItemTotal(item);
        totalAmount := totalAmount + product.price * request.quantity;
        items := items + [item];
      }
      assert requests[..|requests|] == requests;
      var order := OrderRecord(nextId, user, items, totalAmount, PENDING, specialInstructions);
      orders := orders[nextId := order];
      nextId := nextId + 1;
      r := Success(order);
    }

    /**
     * updateOrderStatus: any status is set on an existing order, with no transition check;
     * entering READY from another status also yields the SMS to attempt.
     */
    method UpdateOrderStatus(orderId: int, newStatus: OrderStatus)
      returns (r: Result<OrderRecord, string>, sms: Option<SmsRequest>)
      requires Valid()
      modifies this`orders
      ensures Valid()
      ensures orderId !in old(orders) ==>
        r == Failure(OrderNotFound(orderId)) && sms.None? && orders == old(orders)
      ensures orderId in old(orders) ==>
        && r == Success(old(orders)[orderId].(status := newStatus))
        && orders == old(orders)[orderId := r.value]
        && sms == ReadyNotification(old(orders)[orderId], newStatus)
    {
      if orderId !in orders {
        return Failure(OrderNotFound(orderId)), None;
      }
      var order := orders[orderId];
      var previousStatus := order.status;
      var saved := order.(status := newStatus);
      orders := orders[orderId := saved];
      sms := None;
      if newStatus == READY && previousStatus != READY {
        sms := Some(SmsRequest(order.user.phone, ReadyMessage(orderId)));
      }
      r := Success(saved);
    }

    /** cancelOrder: the order, then ownership, then the status rule; success sets CANCELLED. */
    method CancelOrder(orderId: int, userId: int) returns (r: Result<(), string>)
      requires Valid()
      modifies this`orders
      ensures Valid()
      ensures CancelOutcome(old(orders), orderId, userId).Failure? ==>
        r == Failure(CancelOutcome(old(orders), orderId, userId).error) && orders == old(orders)
      ensures CancelOutcome(old(orders), orderId, userId).Success? ==>
        r == Success(()) && orders == old(orders)[orderId := CancelOutcome(old(orders), orderId, userId).value]
    {
      if orderId !in orders {
        return Failure(OrderNotFound(orderId));
      }
      var order := orders[orderId];
      if order.user.id != userId {
        return Failure(NOT_OWNER);
      }
      if order.status == PREPARING || order.status == READY || order.status == COMPLETED {
        return Failure(CANNOT_CANCEL);
      }
      orders := orders[orderId := order.(status := CANCELLED)];
      r := Success(());
    }
  }
}
