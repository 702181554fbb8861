/**
 * The records of the canteen backend (canteen/) as its services use them. The Product and
 * User entity classes are not part of this model: their fields here are the ones the
 * services read and write. Money is in whole currency units.
 */
module CanteenModel {
  import opened Wrappers

  /** canteen/entity/OrderStatus.java; the canteen has COMPLETED where the food-order backend has DELIVERED. */
  datatype OrderStatus = PENDING | CONFIRMED | PREPARING | READY | COMPLETED | CANCELLED

  /** canteen/entity/Role.java */
  datatype Role = USER | ADMIN

  datatype Product = Product(
    id: int, name: string, description: string, price: int, category: string,
    imageUrl: string, available: bool)

  datatype CanteenUser = CanteenUser(id: int, username: string, phone: string, role: Role)

  /** One order line as the service builds it: the product, the quantity and the unit price paid. */
  datatype ItemRecord = ItemRecord(productId: int, quantity: int, price: int)

  /** A saved order: its user (the entity reference), lines, total, status and instructions. */
  datatype OrderRecord = OrderRecord(
    id: int, user: CanteenUser, items: seq<ItemRecord>, totalAmount: int,
    status: OrderStatus, specialInstructions: Option<string>)

  /** OrderService.OrderRequest: a product id and a quantity. */
  datatype OrderRequest = OrderRequest(productId: int, quantity: int)

  /** price * quantity, what the service adds to the total for one line. */
  function ItemTotal(item: ItemRecord): int { item.price * item.quantity }

  function TotalAmount(order: OrderRecord): int { order.totalAmount }
}
