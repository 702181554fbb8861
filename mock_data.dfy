/**
 * The records the mock frontend keeps in its in-memory lists (frontend/js/user-dashboard.js,
 * frontend/js/admin-dashboard.js, frontend/js/auth.js): catalog products, cart lines with a
 * price snapshot, placed orders and registered users. Order statuses are the CONFIG.ORDER_STATUS strings.
 */
module MockData {
  import opened Seqs

  datatype MockProduct = MockProduct(
    id: int, name: string, description: string, price: int, category: string, available: bool)

  /** A cart line: the product's id, name and price at the time it was added, and a quantity. */
  datatype CartLine = CartLine(id: int, name: string, price: int, quantity: int)

  datatype MockOrder = MockOrder(
    id: int, userId: int, items: seq<CartLine>, total: int, instructions: string,
    status: string, createdAt: string, updatedAt: string)

  /** A MOCK_USERS entry; role is "USER" or "ADMIN". */
  datatype MockUser = MockUser(
    id: int, username: string, email: string, password: string, role: string, phone: string)

  function ProductId(p: MockProduct): int { p.id }

  function LineId(l: CartLine): int { l.id }

  function OrderId(o: MockOrder): int { o.id }

  function LinePrice(l: CartLine): int { l.price * l.quantity }

  function LineQuantity(l: CartLine): int { l.quantity }

  /** MOCK_PRODUCTS, the catalog the user dashboard starts with. */
  const MOCK_PRODUCTS: seq<MockProduct> := [
    MockProduct(1, "Chicken Biryani", "Aromatic basmati rice with tender chicken pieces", 180, "Main Course", true),
    MockProduct(2, "Paneer Butter Masala", "Creamy tomato-based curry with paneer cubes", 160, "Curry", true),
    MockProduct(3, "Butter Naan", "Soft and fluffy Indian bread with butter", 45, "Bread", true),
    MockProduct(4, "Samosa", "Crispy triangular pastry with spiced potato filling", 25, "Snacks", true),
    MockProduct(5, "Masala Chai", "Traditional Indian spiced tea", 20, "Beverages", true),
    MockProduct(6, "Gulab Jamun", "Sweet milk dumplings in sugar syrup", 40, "Desserts", true),
    MockProduct(7, "Dal Tadka", "Yellow lentils tempered with spices", 120, "Curry", true),
    MockProduct(8, "Roti", "Whole wheat flatbread", 15, "Bread", true),
    MockProduct(9, "Vada Pav", "Mumbai street food - spiced potato fritter in bread", 35, "Snacks", true),
    MockProduct(10, "Fresh Lime Soda", "Refreshing lime drink with soda", 30, "Beverages", true)
  ]

  /** MOCK_USERS, the two accounts the mock login and the admin dashboard start with. */
  const MOCK_USERS: seq<MockUser> := [
    MockUser(1, "admin", "admin@canteen.com", "admin123", "ADMIN", "9876543210"),
    MockUser(2, "user", "user@canteen.com", "user123", "USER", "9876543211")
  ]

  function UserId(u: MockUser): int { u.id }

  /** Order ids 1, 2, 3, ... in list order: what assigning `length + 1` on every push produces. */
  ghost predicate SequentialIds(orders: seq<MockOrder>)
  {
    forall k :: 0 <= k < |orders| ==> orders[k].id == k + 1
  }

  /** The catalog's ids are 1..10 in order, so they are unique. */
  lemma CatalogIdsUnique()
    ensures UniqueKeys(MOCK_PRODUCTS, ProductId)
  {
    assert forall k :: 0 <= k < |MOCK_PRODUCTS| ==> MOCK_PRODUCTS[k].id == k + 1;
  }

  /** Sequential ids are unique, and the next id, |orders| + 1, is fresh. */
  lemma SequentialIdsFresh(orders: seq<MockOrder>)
    requires SequentialIds(orders)
    ensures UniqueKeys(orders, OrderId)
    ensures !HasKey(orders, OrderId, |orders| + 1)
  {
  }
}
