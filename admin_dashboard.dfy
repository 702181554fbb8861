/**
 * frontend/js/admin-dashboard.js: the admin's view of the shared mock catalog, orders and
 * users. The offered status transitions and the list selections (filter, statistics,
 * recent orders) are functions; the catalog and order edits change the Admin object's
 * lists in place.
 */
module AdminDashboard {
  import opened Wrappers
  import opened Seqs
  import opened MockData
  import Config

  /** A button getStatusButtons renders for an order: its caption and the status its click sets. */
  datatype StatusButton = StatusButton(caption: string, target: string)

  /** Position along the forward path PENDING, CONFIRMED, PREPARING, READY, COMPLETED; -1 off it. */
  function Stage(status: string): (n: int)
    ensures -1 <= n <= 4
    ensures n == 0 <==> status == Config.PENDING
    ensures n == 4 <==> status == Config.COMPLETED
  {
    if status == Config.PENDING then 0
    else if status == Config.CONFIRMED then 1
    else if status == Config.PREPARING then 2
    else if status == Config.READY then 3
    else if status == Config.COMPLETED then 4
    else -1
  }

  /**
   * getStatusButtons: the transitions offered for an order in `status`. Every offered
   * target is either the next stage or CANCELLED, and CANCELLED is offered only while
   * PENDING; COMPLETED, CANCELLED and any unknown status offer nothing.
   */
  function StatusButtons(status: string): (r: seq<StatusButton>)
    ensures forall k :: 0 <= k < |r| ==>
      r[k].target == Config.CANCELLED || Stage(r[k].target) == Stage(status) + 1
    ensures forall k :: 0 <= k < |r| && r[k].target == Config.CANCELLED ==> status == Config.PENDING
    ensures r == [] <==> !(0 <= Stage(status) < 4)
  {
    if status == Config.PENDING then
      [StatusButton("Confirm", Config.CONFIRMED), StatusButton("Cancel", Config.CANCELLED)]
    else if status == Config.CONFIRMED then
      [StatusButton("Start Preparing", Config.PREPARING)]
    else if status == Config.PREPARING then
      [StatusButton("Mark Ready", Config.READY)]
    else if status == Config.READY then
      [StatusButton("Complete", Config.COMPLETED)]
    else
      []
  }

  function Target(b: StatusButton): string { b.target }

  /** The targets offered from each status, in the order the buttons appear. */
  lemma OfferedTargets()
    ensures Map(StatusButtons(Config.PENDING), Target) == [Config.CONFIRMED, Config.CANCELLED]
    ensures Map(StatusButtons(Config.CONFIRMED), Target) == [Config.PREPARING]
    ensures Map(StatusButtons(Config.PREPARING), Target) == [Config.READY]
    ensures Map(StatusButtons(Config.READY), Target) == [Config.COMPLETED]
    ensures StatusButtons(Config.COMPLETED) == [] && StatusButtons(Config.CANCELLED) == []
  {
    assert Map(StatusButtons(Config.PENDING), Target)
      == [Target(StatusButtons(Config.PENDING)[0]), Target(StatusButtons(Config.PENDING)[1])];
  }

  function Map<A, B>(s: seq<A>, f: A -> B): (r: seq<B>)
    ensures |r| == |s| && forall k :: 0 <= k < |s| ==> r[k] == f(s[k])
  {
    seq(|s|, k requires 0 <= k < |s| => f(s[k]))
  }

  /** Some button offered in `from` moves the order to `to`. */
  ghost predicate Offered(from: string, to: string)
  {
    exists k :: 0 <= k < |StatusButtons(from)| && StatusButtons(from)[k].target == to
  }

  /** How many more offered transitions a status can take at most. */
  function Remaining(status: string): nat
  {
    if Stage(status) >= 0 then 4 - Stage(status) else 0
  }

  /** Every offered transition strictly lowers Remaining, so nothing is ever offered backwards. */
  lemma OfferedMovesForward(from: string, to: string)
    requires Offered(from, to)
    ensures Remaining(to) < Remaining(from)
    ensures to != Config.CANCELLED ==> Stage(to) == Stage(from) + 1
  {
  }

  /** A run of statuses each offered from the one before. */
  ghost predicate OfferedPath(p: seq<string>)
  {
    forall k :: 0 <= k < |p| - 1 ==> Offered(p[k], p[k + 1])
  }

  /** Clicking offered buttons only, an order passes through at most five statuses. */
  lemma {:induction false} OfferedPathsEnd(p: seq<string>)
    requires p != [] && OfferedPath(p)
    ensures |p| <= Remaining(p[0]) + 1 <= 5
  {
    if |p| > 1 {
      assert OfferedPath(p[1..]) by {
        forall k | 0 <= k < |p[1..]| - 1 ensures Offered(p[1..][k], p[1..][k + 1]) {
          assert Offered(p[k + 1], p[k + 2]);
        }
      }
      OfferedPathsEnd(p[1..]);
      assert Offered(p[0], p[1]);
      OfferedMovesForward(p[0], p[1]);
    }
  }

  /** The status of each order, in list order. */
  function StatusList(orders: seq<MockOrder>): (r: seq<string>)
    ensures |r| == |orders| && forall k :: 0 <= k < |orders| ==> r[k] == orders[k].status
  {
    seq(|orders|, k requires 0 <= k < |orders| => orders[k].status)
  }

  /** The orders whose status equals `status`, in their original order. */
  function OrdersWithStatus(orders: seq<MockOrder>, status: string): (r: seq<MockOrder>)
    ensures |r| <= |orders|
    ensures forall k :: 0 <= k < |r| ==> r[k] in orders && r[k].status == status
    ensures forall k :: 0 <= k < |orders| && orders[k].status == status ==> orders[k] in r
  {
    if orders == [] then []
    else if orders[0].status == status then [orders[0]] + OrdersWithStatus(orders[1..], status)
    else OrdersWithStatus(orders[1..], status)
  }

  /** There are as many orders with `status` as times `status` occurs among the orders' statuses. */
  lemma {:induction false} OrdersWithStatusCount(orders: seq<MockOrder>, status: string)
    ensures |OrdersWithStatus(orders, status)| == multiset(StatusList(orders))[status]
  {
    if orders != [] {
      assert StatusList(orders) == [orders[0].status] + StatusList(orders[1..]);
      OrdersWithStatusCount(orders[1..], status);
    }
  }

  /** Selecting by status distributes over concatenation, so the selection keeps list order. */
  lemma {:induction false} OrdersWithStatusAppend(a: seq<MockOrder>, b: seq<MockOrder>, status: string)
    ensures OrdersWithStatus(a + b, status) == OrdersWithStatus(a, status) + OrdersWithStatus(b, status)
  {
    if a == [] {
      assert a + b == b;
    } else {
      assert (a + b)[1..] == a[1..] + b;
      OrdersWithStatusAppend(a[1..], b, status);
    }
  }

  /** The order-status filter of loadOrders: 'all' shows every order, any other value one status. */
  function FilterOrders(orders: seq<MockOrder>, filter: string): (r: seq<MockOrder>)
    ensures filter == "all" ==> r == orders
    ensures filter != "all" ==> forall k :: 0 <= k < |r| ==> r[k] in orders && r[k].status == filter
    ensures filter != "all" ==>
      forall k :: 0 <= k < |orders| && orders[k].status == filter ==> orders[k] in r
  {
    if filter == "all" then orders else OrdersWithStatus(orders, filter)
  }

  /** Each status's filter shows its orders in list order, one block per part of the list. */
  lemma FilterOrdersAppend(a: seq<MockOrder>, b: seq<MockOrder>, filter: string)
    ensures FilterOrders(a + b, filter) == FilterOrders(a, filter) + FilterOrders(b, filter)
  {
    if filter != "all" {
      OrdersWithStatusAppend(a, b, filter);
    }
  }

  /** The role of each user, in list order. */
  function RoleList(users: seq<MockUser>): (r: seq<string>)
    ensures |r| == |users| && forall k :: 0 <= k < |users| ==> r[k] == users[k].role
  {
    seq(|users|, k requires 0 <= k < |users| => users[k].role)
  }

  /** How many users have the given role: the number of times it occurs among their roles. */
  function CountRole(users: seq<MockUser>, role: string): (n: nat)
    ensures n <= |users|
    ensures n == multiset(RoleList(users))[role]
    ensures n == 0 <==> forall k :: 0 <= k < |users| ==> users[k].role != role
  {
    if users == [] then 0
    else
      assert RoleList(users) == [users[0].role] + RoleList(users[1..]);
      (if users[0].role == role then 1 else 0) + CountRole(users[1..], role)
  }

  /** The four figures of loadDashboardStats. */
  datatype Stats = Stats(totalOrders: nat, pendingOrders: nat, totalProducts: nat, totalUsers: nat)

  function DashboardStats(orders: seq<MockOrder>, users: seq<MockUser>, products: seq<MockProduct>): (s: Stats)
    ensures s.totalOrders == |orders| && s.totalProducts == |products|
    ensures s.pendingOrders == multiset(StatusList(orders))[Config.PENDING] <= s.totalOrders
    ensures s.totalUsers == multiset(RoleList(users))[Config.ROLE_USER]
    ensures s.pendingOrders == 0 <==> forall k :: 0 <= k < |orders| ==> orders[k].status != Config.PENDING
    ensures s.totalUsers <= |users|
    ensures s.totalUsers == 0 <==> forall k :: 0 <= k < |users| ==> users[k].role != Config.ROLE_USER
  {
    var pending := OrdersWithStatus(orders, Config.PENDING);
    OrdersWithStatusCount(orders, Config.PENDING);
    assert pending != [] ==> pending[0] in orders;
    Stats(|orders|, |pending|, |products|, CountRole(users, Config.ROLE_USER))
  }

  /** loadRecentOrders: `slice(-5).reverse()`, the last five orders, newest first. */
  function RecentOrders(orders: seq<MockOrder>): (r: seq<MockOrder>)
    ensures |r| == if |orders| < 5 then |orders| else 5
    ensures forall k :: 0 <= k < |r| ==> r[k] == orders[|orders| - 1 - k]
  {
    var n := if |orders| < 5 then |orders| else 5;
    Reverse(orders[|orders| - n..])
  }

  /** With ids assigned 1, 2, 3, ..., the recent list starts at the newest id and counts down. */
  lemma RecentOrdersNewestFirst(orders: seq<MockOrder>)
    requires SequentialIds(orders)
    ensures orders != [] ==> RecentOrders(orders)[0].id == |orders|
    ensures forall i, j :: 0 <= i < j < |RecentOrders(orders)| ==>
      RecentOrders(orders)[i].id > RecentOrders(orders)[j].id
  {
  }

  /** The product form: the price is None when parseFloat yields NaN. */
  datatype ProductForm = ProductForm(
    name: string, description: string, price: Option<int>, category: string, available: bool)

  /** The validation of handleProductSubmit: `!name || !category || !price` rejects the form. */
  predicate FormComplete(form: ProductForm)
  {
    form.name != "" && form.category != "" && form.price.Some? && form.price.value != 0
  }

  const FILL_REQUIRED: string := "Please fill in all required fields"

  /** What a submission did: refused the form, edited a product, found no product to edit, or added one. */
  datatype SubmitOutcome = Invalid(message: string) | Updated | NoSuchProduct | Added(id: int)

  /** `{...product, ...productData}`: the form's fields over the product, keeping its id. */
  function Edited(p: MockProduct, form: ProductForm, price: int): (r: MockProduct)
    ensures r.id == p.id
    ensures r.name == form.name && r.description == form.description && r.price == price
    ensures r.category == form.category && r.available == form.available
  {
    MockProduct(p.id, form.name, form.description, price, form.category, form.available)
  }

  /** `Math.max(...ids, 0)`: the largest id, or 0 when there is none larger. */
  function MaxId(products: seq<MockProduct>): (m: int)
    ensures m >= 0
    ensures forall k :: 0 <= k < |products| ==> products[k].id <= m
    ensures m == 0 || exists k :: 0 <= k < |products| && products[k].id == m
  {
    if products == [] then 0
    else
      var rest := MaxId(products[1..]);
      if products[0].id > rest then products[0].id
      else
        assert rest == 0 || products[1..][KeyIndex(products[1..], ProductId, rest)].id == rest by {
          if rest != 0 {
            KeyIndexFinds(products[1..], ProductId, rest);
          }
        }
        rest
  }

  /** The next product id, `max + 1`, belongs to no product. */
  lemma NextIdFresh(products: seq<MockProduct>)
    ensures !HasKey(products, ProductId, MaxId(products) + 1)
  {
  }

  /** An available flag flipped and everything else kept. */
  function Toggled(p: MockProduct): (r: MockProduct)
    ensures r.available == !p.available
    ensures r.id == p.id && r.name == p.name && r.description == p.description
    ensures r.price == p.price && r.category == p.category
  {
    p.(available := !p.available)
  }

  lemma ToggledTwice(p: MockProduct)
    ensures Toggled(Toggled(p)) == p
  {
  }

  /** An order moved to a status at a time, with nothing else changed. */
  function WithStatus(o: MockOrder, status: string, now: string): (r: MockOrder)
    ensures r.status == status && r.updatedAt == now
    ensures r.id == o.id && r.userId == o.userId && r.items == o.items && r.total == o.total
    ensures r.instructions == o.instructions && r.createdAt == o.createdAt
  {
    o.(status := status, updatedAt := now)
  }

  /** The admin dashboard's lists (window.MOCK_PRODUCTS, MOCK_ORDERS, MOCK_USERS) and its filter. */
  class Admin {
    var products: seq<MockProduct>
    var orders: seq<MockOrder>
    var users: seq<MockUser>
    var currentOrderFilter: string

    /** Product ids are unique. */
    ghost predicate Valid()
      reads this
    {
      UniqueKeys(products, ProductId)
    }

    /**
     * initializeAdminDashboard: a missing product or order list starts empty, a missing
     * user list starts as MOCK_USERS, and the filter starts at 'all'.
     */
    constructor (products: Option<seq<MockProduct>>, orders: Option<seq<MockOrder>>, users: Option<seq<MockUser>>)
      ensures this.products == (if products.Some? then products.value else [])
      ensures this.orders == (if orders.Some? then orders.value else [])
      ensures this.users == (if users.Some? then users.value else MOCK_USERS)
      ensures currentOrderFilter == "all"
    {
      this.products := if products.Some? then products.value else [];
      this.orders := if orders.Some? then orders.value else [];
      this.users := if users.Some? then users.value else MOCK_USERS;
      currentOrderFilter := "all";
    }

    /** The status-filter change listener. */
    method SetOrderFilter(value: string)
      modifies this`currentOrderFilter
      ensures currentOrderFilter == value
    {
      currentOrderFilter := value;
    }

    /** The orders loadOrders lists under the current filter. */
    function ShownOrders(): (r: seq<MockOrder>)
      reads this
      ensures currentOrderFilter == "all" ==> r == orders
      ensures forall k :: 0 <= k < |r| ==> r[k] in orders
      ensures currentOrderFilter != "all" ==> r == OrdersWithStatus(orders, currentOrderFilter)
      ensures currentOrderFilter != "all" ==> forall k :: 0 <= k < |r| ==> r[k].status == currentOrderFilter
      ensures currentOrderFilter != "all" ==>
        forall k :: 0 <= k < |orders| && orders[k].status == currentOrderFilter ==> orders[k] in r
    {
      FilterOrders(orders, currentOrderFilter)
    }

    function Statistics(): (s: Stats)
      reads this
      ensures s.totalOrders == |orders| && s.totalProducts == |products|
      ensures s.pendingOrders == multiset(StatusList(orders))[Config.PENDING] <= s.totalOrders
      ensures s.totalUsers == multiset(RoleList(users))[Config.ROLE_USER] <= |users|
    {
      DashboardStats(orders, users, products)
    }

    /**
     * handleProductSubmit. An incomplete form is refused and nothing changes. With an edit
     * id, the first product with that id gets the form's fields and keeps its id; an unknown
     * id changes nothing. Without one, a product with id max + 1 is appended.
     */
    method HandleProductSubmit(editId: Option<int>, form: ProductForm) returns (outcome: SubmitOutcome)
      modifies this`products
      ensures !FormComplete(form) ==> outcome == Invalid(FILL_REQUIRED) && products == old(products)
      ensures FormComplete(form) && editId.Some? && !HasKey(old(products), ProductId, editId.value) ==>
        outcome == NoSuchProduct && products == old(products)
      ensures FormComplete(form) && editId.Some? && HasKey(old(products), ProductId, editId.value) ==>
        && outcome == Updated
        && KeyIndex(old(products), ProductId, editId.value) < |old(products)|
        && products == old(products)[KeyIndex(old(products), ProductId, editId.value) :=
             Edited(old(products)[KeyIndex(old(products), ProductId, editId.value)], form, form.price.value)]
      ensures FormComplete(form) && editId.None? ==>
        && outcome == Added(MaxId(old(products)) + 1)
        && !HasKey(old(products), ProductId, outcome.id)
        && products == old(products) + [MockProduct(outcome.id, form.name, form.description,
             form.price.value, form.category, form.available)]
      ensures old(Valid()) ==> Valid()
    {
      if !FormComplete(form) {
        return Invalid(FILL_REQUIRED);
      }
      var price := form.price.value;
      if editId.Some? {
        var i := KeyIndex(products, ProductId, editId.value);
        KeyIndexFinds(products, ProductId, editId.value);
        if i < |products| {
          ghost var before := products;
          products := products[i := Edited(products[i], form, price)];
          if UniqueKeys(before, ProductId) {
            UpdateSameKeyKeepsUnique(before, i, Edited(before[i], form, price), ProductId);
          }
          outcome := Updated;
        } else {
          outcome := NoSuchProduct;
        }
      } else {
        var id := MaxId(products) + 1;
        var p := MockProduct(id, form.name, form.description, price, form.category, form.available);
        NextIdFresh(products);
        if UniqueKeys(products, ProductId) {
          AppendFreshKeepsUnique(products, p, ProductId);
        }
        products := products + [p];
        outcome := Added(id);
      }
    }

    /** toggleProductAvailability: the first product with the id has its flag flipped. */
    method ToggleProductAvailability(productId: int)
      modifies this`products
      ensures KeyIndex(old(products), ProductId, productId) < |old(products)| ==>
        products == old(products)[KeyIndex(old(products), ProductId, productId) :=
          Toggled(old(products)[KeyIndex(old(products), ProductId, productId)])]
      ensures KeyIndex(old(products), ProductId, productId) == |old(products)| ==> products == old(products)
      ensures old(Valid()) ==> Valid()
    {
      var i := KeyIndex(products, ProductId, productId);
      if i < |products| {
        ghost var before := products;
        products := products[i := Toggled(products[i])];
        if UniqueKeys(before, ProductId) {
          UpdateSameKeyKeepsUnique(before, i, Toggled(before[i]), ProductId);
        }
      }
    }

    /**
     * deleteProduct: once confirmed, the first product with the id is spliced out and the
     * rest keep their order. With unique ids no product with that id is left.
     */
    method DeleteProduct(productId: int, confirmed: bool)
      modifies this`products
      ensures confirmed && KeyIndex(old(products), ProductId, productId) < |old(products)| ==>
        products == old(products)[..KeyIndex(old(products), ProductId, productId)]
          + old(products)[KeyIndex(old(products), ProductId, productId) + 1..]
      ensures !confirmed || KeyIndex(old(products), ProductId, productId) == |old(products)| ==>
        products == old(products)
      ensures old(Valid()) ==> Valid()
      ensures old(Valid()) && confirmed ==> !HasKey(products, ProductId, productId)
    {
      if confirmed {
        var i := KeyIndex(products, ProductId, productId);
        KeyIndexFinds(products, ProductId, productId);
        if i < |products| {
          if UniqueKeys(products, ProductId) {
            RemoveAtUnique(products, i, ProductId);
          }
          products := products[..i] + products[i + 1..];
        }
      }
    }

    /**
     * updateOrderStatus: the first order with the id takes `newStatus`, whatever it is, and
     * the time; nothing else changes, and an unknown id changes nothing.
     */
    method UpdateOrderStatus(orderId: int, newStatus: string, now: string)
      modifies this`orders
      ensures KeyIndex(old(orders), OrderId, orderId) < |old(orders)| ==>
        orders == old(orders)[KeyIndex(old(orders), OrderId, orderId) :=
          WithStatus(old(orders)[KeyIndex(old(orders), OrderId, orderId)], newStatus, now)]
      ensures KeyIndex(old(orders), OrderId, orderId) == |old(orders)| ==> orders == old(orders)
      ensures SequentialIds(old(orders)) ==> SequentialIds(orders)
    {
      var i := KeyIndex(orders, OrderId, orderId);
      if i < |orders| {
        orders := orders[i := WithStatus(orders[i], newStatus, now)];
      }
    }
  }
}
