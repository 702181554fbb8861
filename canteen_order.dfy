/**
 * canteen/entity/Order.java: the JPA order entity with its list of items. Adding and
 * removing an item keeps the item's back-reference to its order in step with the list.
 * The OrderItem entity is not part of this model beyond its back-reference and line data;
 * `id`, `user`, `totalAmount`, the instructions and the timestamps may be null (None).
 */
module CanteenOrderEntity {
  import opened Wrappers
  import opened Seqs
  import opened CanteenModel

  /** An order line with the back-reference `order` that addOrderItem and removeOrderItem set. */
  class OrderItem {
    var order: Order?
    var productId: int
    var quantity: int
    var price: int

    constructor (productId: int, quantity: int, price: int)
      ensures order == null
      ensures this.productId == productId && this.quantity == quantity && this.price == price
    {
      order := null;
      this.productId := productId;
      this.quantity := quantity;
      this.price := price;
    }
  }

  class Order {
    var id: Option<int>
    var user: Option<CanteenUser>
    var totalAmount: Option<int>
    var status: OrderStatus
    var specialInstructions: Option<string>
    var createdAt: Option<int>
    var updatedAt: Option<int>
    var orderItems: seq<OrderItem>

    /** Every listed item points back at this order. */
    ghost predicate Linked()
      reads this, orderItems
    {
      forall k :: 0 <= k < |orderItems| ==> orderItems[k].order == this
    }

    /** `new Order()`: status PENDING, no items, every other field null. */
    constructor ()
      ensures status == PENDING && orderItems == []
      ensures id.None? && user.None? && totalAmount.None? && specialInstructions.None?
      ensures createdAt.None? && updatedAt.None?
      ensures Linked()
    {
      id, user, totalAmount, specialInstructions := None, None, None, None;
      createdAt, updatedAt := None, None;
      status := PENDING;
      orderItems := [];
    }

    /** `new Order(user, totalAmount)`: those two fields set, the rest as the default constructor leaves them. */
    constructor WithTotal(user: CanteenUser, totalAmount: int)
      ensures this.user == Some(user) && this.totalAmount == Some(totalAmount)
      ensures status == PENDING && orderItems == []
      ensures id.None? && specialInstructions.None? && createdAt.None? && updatedAt.None?
      ensures Linked()
    {
      id, specialInstructions := None, None;
      createdAt, updatedAt := None, None;
      this.user := Some(user);
      this.totalAmount := Some(totalAmount);
      status := PENDING;
      orderItems := [];
    }

    /** `new Order(user, totalAmount, specialInstructions)`. */
    constructor WithInstructions(user: CanteenUser, totalAmount: int, specialInstructions: string)
      ensures this.user == Some(user) && this.totalAmount == Some(totalAmount)
      ensures this.specialInstructions == Some(specialInstructions)
      ensures status == PENDING && orderItems == []
      ensures id.None? && createdAt.None? && updatedAt.None?
      ensures Linked()
    {
      id := None;
      createdAt, updatedAt := None, None;
      this.user := Some(user);
      this.totalAmount := Some(totalAmount);
      this.specialInstructions := Some(specialInstructions);
      status := PENDING;
      orderItems := [];
    }

    /** addOrderItem: the item goes to the end of the list and points back at this order. */
    method AddOrderItem(item: OrderItem)
      modifies this`orderItems, item`order
      ensures orderItems == old(orderItems) + [item]
      ensures item.order == this
      ensures old(Linked()) ==> Linked()
    {
      orderItems := orderItems + [item];
      item.order := this;
    }

    /**
     * removeOrderItem: the first occurrence of the item leaves the list, the others keep
     * their order, and the item's back-reference becomes null. When the item was listed at
     * most once, no copy of it is left and every remaining item still points here.
     */
    method RemoveOrderItem(item: OrderItem)
      modifies this`orderItems, item`order
      ensures IndexOf(old(orderItems), item) < |old(orderItems)| ==>
        orderItems == old(orderItems)[..IndexOf(old(orderItems), item)]
          + old(orderItems)[IndexOf(old(orderItems), item) + 1..]
      ensures item !in old(orderItems) ==> orderItems == old(orderItems)
      ensures item.order == null
      ensures old(Linked()) && multiset(old(orderItems))[item] <= 1 ==> Linked() && item !in orderItems
    {
      var i := IndexOf(orderItems, item);
      if i < |orderItems| {
        if multiset(orderItems)[item] <= 1 {
          assert orderItems[i] in multiset(orderItems);
          RemoveOnlyOccurrence(orderItems, i);
        }
        orderItems := orderItems[..i] + orderItems[i + 1..];
      }
      item.order := null;
    }

    method SetId(id: Option<int>)
      modifies this`id
      ensures this.id == id
    {
      this.id := id;
    }

    method SetUser(user: Option<CanteenUser>)
      modifies this`user
      ensures this.user == user
    {
      this.user := user;
    }

    method SetTotalAmount(totalAmount: Option<int>)
      modifies this`totalAmount
      ensures this.totalAmount == totalAmount
    {
      this.totalAmount := totalAmount;
    }

    /** setStatus: the status changes and the user, items, total and timestamps do not. */
    method SetStatus(status: OrderStatus)
      modifies this`status
      ensures this.status == status
      ensures user == old(user) && orderItems == old(orderItems) && totalAmount == old(totalAmount)
      ensures createdAt == old(createdAt) && updatedAt == old(updatedAt)
    {
      this.status := status;
    }

    method SetSpecialInstructions(specialInstructions: Option<string>)
      modifies this`specialInstructions
      ensures this.specialInstructions == specialInstructions
    {
      this.specialInstructions := specialInstructions;
    }

    method SetCreatedAt(createdAt: Option<int>)
      modifies this`createdAt
      ensures this.createdAt == createdAt
    {
      this.createdAt := createdAt;
    }

    method SetUpdatedAt(updatedAt: Option<int>)
      modifies this`updatedAt
      ensures this.updatedAt == updatedAt
    {
      this.updatedAt := updatedAt;
    }

    /** setOrderItems replaces the list and leaves the items' back-references as they were. */
    method SetOrderItems(orderItems: seq<OrderItem>)
      modifies this`orderItems
      ensures this.orderItems == orderItems
      ensures forall k :: 0 <= k < |orderItems| ==> orderItems[k].order == old(orderItems[k].order)
    {
      this.orderItems := orderItems;
    }
  }
}
