/**
 * The entities of the food-order backend (backend/src/main/java/com/foodorder) as the
 * services use them: foods, users, orders with their items, and the request bodies.
 * The entity classes themselves are not part of this model; their fields are the ones the
 * services read and write. Prices are whole currency units.
 */
module FoodOrderModel {

  /** OrderStatus of the food-order backend; it has DELIVERED where the canteen has COMPLETED. */
  datatype FoodOrderStatus = Pending | Confirmed | Preparing | Ready | Delivered | Cancelled

  datatype Role = User | Admin

  datatype Food = Food(
    id: int, name: string, description: string, price: int, category: string,
    imageUrl: string, available: bool)

  datatype User = UserRecord(
    id: int, username: string, email: string, password: string, fullName: string,
    address: string, phoneNumber: string, role: Role)

  /** One line of an order: the food, the quantity, the price paid per unit and the line's subtotal. */
  datatype OrderItem = OrderItem(foodId: int, quantity: int, price: int, subtotal: int)

  datatype Order = Order(
    id: int, userId: int, deliveryAddress: string, status: FoodOrderStatus,
    items: seq<OrderItem>, totalAmount: int)

  datatype OrderItemRequest = OrderItemRequest(foodId: int, quantity: int)

  datatype OrderRequest = OrderRequest(deliveryAddress: string, items: seq<OrderItemRequest>)

  datatype RegisterRequest = RegisterRequest(
    username: string, email: string, password: string, fullName: string,
    address: string, phoneNumber: string)

  function FoodId(f: Food): int { f.id }

  function UserId(u: User): int { u.id }

  function Subtotal(item: OrderItem): int { item.subtotal }
}
