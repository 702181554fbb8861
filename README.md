# Smart Canteen — a Dafny model of its domain rules

Smart Canteen is a canteen ordering system. It has three parts:

- **A mock-backed frontend** (`frontend/js`). It has a user dashboard with a cart and order placement, an admin dashboard that edits the shared in-memory catalog and orders, a login and registration page over an in-memory user list, and the CONFIG/Utils helpers.
- **An older "food order" frontend and backend.** The storefront is `frontend/js/app.js`; the backend services are under `backend/src/main/java/com/foodorder`.
- **The Spring "canteen" backend** (`canteen/`). It holds the order and product services, the JPA order entity, the order-ready SMS service and the order controller's helpers.

This project models the domain rules under the UI and the frameworks: carts, order creation with price snapshots, the order-status rules, the catalog and user stores and their validators, and the string helpers. It proves what those rules promise.

Each source file keeps its form:

- **Objects whose fields change in place are classes.** These are the mock cart, the dashboards, the storefront globals, the auth session, the JPA order entity and every service. A repository is a `map` or `seq` field, and methods state the whole new state in `ensures`.
- **Loops stay loops.** The `createOrder` loops and the storefront's total accumulators are `for` loops, proved against recursive specification functions.
- **Decisions are functions.** The status buttons, validators, filters, phone formatting, token extraction and access rules are functions, with their properties proved as lemmas.

Module per source file:

| module | file(s) |
|---|---|
| `Wrappers`, `Seqs`, `Text` | helpers: Option/Result; key lookup, filter and sum over sequences; character classes, trimming, digit stripping, ASCII case mapping and decimal formatting |
| `Config` | frontend/js/config.js |
| `MockData` | the mock records and lists shared by the frontend modules |
| `UserDashboard` | frontend/js/user-dashboard.js |
| `AdminDashboard` | frontend/js/admin-dashboard.js |
| `Auth` | frontend/js/auth.js |
| `App` | frontend/js/app.js |
| `FoodOrderModel`, `FoodOrderUsers`, `FoodOrderOrders` | the food-order backend: entities, UserService.java, OrderService.java |
| `CanteenModel` | the canteen entities as values (OrderStatus.java, Role.java and the fields the services use) |
| `CanteenOrderEntity` | canteen/entity/Order.java |
| `CanteenOrders` | canteen/service/OrderService.java |
| `Sms` | canteen/service/SmsService.java |
| `CanteenProducts` | canteen/service/ProductService.java |
| `CanteenOrderController` | canteen/controller/OrderController.java |

The three order-status rules are kept apart:

- The admin dashboard offers one set of next actions.
- The canteen service refuses to cancel PREPARING, READY or COMPLETED orders.
- The food-order service refuses to cancel DELIVERED or CANCELLED orders.

In the same way, the frontend's status strings and the two backends' status enums are three separate types.

Resolved disagreements and modelling choices:

- **Canteen status enum.** The canteen service and controller use `com.canteen.model.Order.OrderStatus`. That file is not part of this model. Its constants are taken to be those of canteen/entity/OrderStatus.java, and the text of `Enum.valueOf`'s exception follows the name the service uses.
- **Phone formatting.** In `formatPhoneNumber`, the stripped number is digits only, so the third branch's "does not start with '+'" test always holds. The model writes that branch as a plain `else` and proves that the test holds (`Sms.StrippedHasNoPlus`).
- **Login by a name that is another user's email.** Registration's duplicate test compares username with username, email with email and phone with phone. So a new username may equal an existing user's email, and login, which accepts either and takes the first match, can then reach the earlier account. The model keeps this behaviour; `Auth.EmailAsUsernameReachesEarlierUser` shows it on the mock users.
- **Mock prices** are integers, as in the source. The services' `BigDecimal` amounts are unbounded integers. The admin form's price is `Option<int>`, with `None` standing for `parseFloat`'s NaN.

## Model

| member | source | states |
|---|---|---|
| Config.GetApiUrl | frontend/js/config.js:66-68 | the API base URL is a prefix of every built URL, and what follows it is exactly the endpoint |
| Config.IsValidEmailIff | frontend/js/config.js:157-160 | the email regex accepts a string iff it has no whitespace, exactly one '@', something before the '@', and after it a '.' that is neither the first nor the last character of the domain |
| Config.ValidEmailHasShape | frontend/js/config.js:157-160 | one direction of the above: a string the regex accepts has that shape |
| Config.ShapeIsValidEmail | frontend/js/config.js:157-160 | the other direction: a string of that shape is accepted |
| Config.EmailNeedsExactlyOneAt | frontend/js/config.js:158 | a string with no '@' or with two or more is rejected |
| Config.ValidPhoneIff | frontend/js/config.js:162-165 | the phone regex accepts a string iff it has ten characters and stripping non-digits leaves it unchanged |
| MockData.CatalogIdsUnique | frontend/js/user-dashboard.js:4-15 | the ten catalog products have distinct ids |
| MockData.SequentialIdsFresh | frontend/js/user-dashboard.js:294 | order ids 1..n are distinct and the next id, n + 1, is unused |
| UserDashboard.CartAddMerges | frontend/js/user-dashboard.js:35-38 | adding a product already in the cart adds no line; that line gains `quantity` units and keeps its id, name and price; every other line is unchanged |
| UserDashboard.CartAddAppends | frontend/js/user-dashboard.js:39-46 | adding a product not in the cart appends exactly one line with its id, name, current price and the quantity |
| UserDashboard.CartAddKeepsUnique | frontend/js/user-dashboard.js:34-46 | a cart with at most one line per id keeps that property after addItem |
| UserDashboard.CartAddCount | frontend/js/user-dashboard.js:34-46 | addItem raises the item count by exactly the quantity added |
| UserDashboard.CartAddTotal | frontend/js/user-dashboard.js:34-46 | addItem raises the total by the quantity times the line's price snapshot, or times the product's price for a new line |
| UserDashboard.CartSetQuantityAbsent | frontend/js/user-dashboard.js:62-63 | updateQuantity on an id not in the cart changes nothing |
| UserDashboard.CartSetQuantityRemoves | frontend/js/user-dashboard.js:64-65 | a quantity <= 0 for a present id removes it, as removeItem does |
| UserDashboard.CartSetQuantitySets | frontend/js/user-dashboard.js:66-67 | a positive quantity replaces that line's quantity exactly (not additively); the other fields and lines are unchanged |
| UserDashboard.CartSetQuantityKeepsUnique | frontend/js/user-dashboard.js:61-72 | updateQuantity keeps at most one line per id |
| UserDashboard.CartSetQuantityCount | frontend/js/user-dashboard.js:61-72 | the line's old quantity is replaced in the item count by the new one, or by nothing when it is <= 0 |
| UserDashboard.CartSetQuantityTotal | frontend/js/user-dashboard.js:61-72 | the line's old subtotal is replaced in the total by price times the new quantity, or by nothing |
| UserDashboard.CartRemoveInOrder | frontend/js/user-dashboard.js:54-55 | on a cart with unique ids, removeItem drops the id's one line and keeps the others in their order |
| UserDashboard.CartRemoveAbsent | frontend/js/user-dashboard.js:54-55 | removeItem of an absent id changes nothing |
| UserDashboard.CartRemoveKeepsPositive | frontend/js/user-dashboard.js:54-55 | removeItem keeps every remaining line at one unit or more |
| UserDashboard.CartAddKeepsPositive | frontend/js/user-dashboard.js:34-46 | adding one unit or more keeps every line at one unit or more |
| UserDashboard.CartSetQuantityKeepsPositive | frontend/js/user-dashboard.js:61-72 | updateQuantity never leaves a line below one unit, since a quantity <= 0 removes the line |
| UserDashboard.Cart.constructor | frontend/js/user-dashboard.js:22 | a new cart is empty |
| UserDashboard.Cart.AddItem | frontend/js/user-dashboard.js:34-51 | the lines become the merge-or-append result; the one-line-per-id invariant is kept, and so is "every line holds at least one unit" when at least one unit is added |
| UserDashboard.Cart.RemoveItem | frontend/js/user-dashboard.js:54-58 | the lines become those with a different id; one line per id and at least one unit per line are kept |
| UserDashboard.Cart.UpdateQuantity | frontend/js/user-dashboard.js:61-72 | the lines become the set-or-remove result; one line per id and at least one unit per line are kept |
| UserDashboard.Cart.GetTotal | frontend/js/user-dashboard.js:75-77 | the total is 0 for an empty cart (its changes under each operation are the lemmas above) |
| UserDashboard.Cart.GetItemCount | frontend/js/user-dashboard.js:80-82 | the item count is 0 for an empty cart |
| UserDashboard.Cart.Clear | frontend/js/user-dashboard.js:85-89 | the cart is empty and its total and item count are 0 |
| UserDashboard.NextSelectorQuantity | frontend/js/user-dashboard.js:258-260 | the new selector value is old + change when that is at least 1, and otherwise 1, so it never drops below 1 |
| UserDashboard.OrderInstructions | frontend/js/user-dashboard.js:298 | the stored instructions are the trimmed field, or "No special instructions" when that is blank |
| UserDashboard.Dashboard.constructor | frontend/js/user-dashboard.js:4-18 | the dashboard starts with an empty cart, no orders, the mock catalog and every selector at 1 |
| UserDashboard.Dashboard.UpdateProductQuantity | frontend/js/user-dashboard.js:255-262 | only a rendered selector changes, to the clamped value |
| UserDashboard.Dashboard.AddToCart | frontend/js/user-dashboard.js:265-277 | a catalog product goes into the cart in the selector's quantity and its selector resets to 1; an unknown id changes nothing; every cart line keeps at least one unit |
| UserDashboard.Dashboard.PlaceOrder | frontend/js/user-dashboard.js:280-328 | an empty cart creates no order; a missing user fails with nothing changed; otherwise exactly one PENDING order is appended, with id = previous count + 1, a copy of the lines and their total, and its own creation and update times, and the cart is left empty |
| App.CheckoutItems | frontend/js/app.js:423-426 | one `{foodId, quantity}` per cart line, in cart order |
| App.AddEntryMerges | frontend/js/app.js:350-353 | addToCart of a food in the cart adds exactly one unit to its line and nothing else changes |
| App.AddEntryAppends | frontend/js/app.js:354-355 | addToCart of a food not in the cart appends `{food, quantity: 1}` |
| App.AddEntryKeepsUnique | frontend/js/app.js:346-359 | addToCart keeps at most one line per food |
| App.AddEntryCount | frontend/js/app.js:350-356 | addToCart raises the item count by one |
| App.AddEntryTotal | frontend/js/app.js:350-356 | addToCart raises the total by the price of the food in its line |
| App.SetEntryQuantitySets | frontend/js/app.js:372-374 | a positive quantity sets a present line's quantity exactly and changes nothing else |
| App.SetEntryQuantityAbsent | frontend/js/app.js:372-376 | a positive quantity for an absent food changes nothing |
| App.SetEntryQuantityKeepsUnique | frontend/js/app.js:366-377 | updateCartQuantity keeps at most one line per food |
| App.AddEntryKeepsPositive | frontend/js/app.js:346-359 | addToCart keeps every line at one unit or more |
| App.RemoveEntryKeepsPositive | frontend/js/app.js:361-364 | removeFromCart keeps every remaining line at one unit or more |
| App.SetEntryQuantityKeepsPositive | frontend/js/app.js:366-377 | updateCartQuantity never leaves a line below one unit, since a quantity <= 0 removes the line |
| App.CheckoutTotalMatchesBackend | frontend/js/app.js:421-427 | when each cart line holds the backend's current, available food record, the backend builds the posted order and its total equals the cart total |
| App.Storefront.constructor | frontend/js/app.js:2-6 | empty cart and food list, no user, no token |
| App.Storefront.AddToCart | frontend/js/app.js:346-359 | an id not in the loaded foods changes nothing; otherwise the cart becomes the increment-or-append result; foods stay unique and every line keeps at least one unit |
| App.Storefront.RemoveFromCart | frontend/js/app.js:361-364 | every line of that food goes and the others keep their order; the cart invariant is kept |
| App.Storefront.UpdateCartQuantity | frontend/js/app.js:366-377 | a quantity <= 0 is removeFromCart; otherwise an exact set on a present line, and an absent food is a no-op; the cart invariant (one line per food, at least one unit per line) is kept |
| App.Storefront.CartDisplayTotal | frontend/js/app.js:379-413 | nothing is shown for an empty cart; otherwise the loop's total is the sum of price times quantity over the lines |
| App.Storefront.OrderSummaryTotal | frontend/js/app.js:455-473 | the summary loop's total is the sum of price times quantity over the lines |
| App.Storefront.ShowCheckout | frontend/js/app.js:98-106 | the checkout opens iff the cart is not empty, showing the cart total |
| App.Storefront.CheckoutPayload | frontend/js/app.js:421-427 | the posted body has the address and one item per cart line with that line's food id and quantity |
| App.Storefront.FinishCheckout | frontend/js/app.js:441-444 | the cart is emptied exactly when the response is ok |
| App.Storefront.Logout | frontend/js/app.js:208-211 | token, user and cart are reset; the food list stays |
| AdminDashboard.StatusButtons | frontend/js/admin-dashboard.js:274-294 | every offered target is the next stage or CANCELLED; CANCELLED is offered only from PENDING; nothing is offered iff the status is COMPLETED, CANCELLED or unknown |
| AdminDashboard.OfferedTargets | frontend/js/admin-dashboard.js:277-293 | PENDING offers [CONFIRMED, CANCELLED] in that order, CONFIRMED [PREPARING], PREPARING [READY], READY [COMPLETED], COMPLETED and CANCELLED nothing |
| AdminDashboard.OfferedMovesForward | frontend/js/admin-dashboard.js:277-293 | no offered transition moves backwards: each one strictly lowers the stages left, and one that is not a cancel moves exactly one stage forward |
| AdminDashboard.OfferedPathsEnd | frontend/js/admin-dashboard.js:277-293 | following offered buttons only, an order passes through at most five statuses |
| AdminDashboard.OrdersWithStatus | frontend/js/admin-dashboard.js:219 | the selection holds exactly the orders with that status |
| AdminDashboard.OrdersWithStatusAppend | frontend/js/admin-dashboard.js:219 | the selection distributes over concatenation, so it keeps list order |
| AdminDashboard.OrdersWithStatusCount | frontend/js/admin-dashboard.js:109-120 | the number of orders selected for a status is the number of times that status occurs among the orders' statuses |
| AdminDashboard.FilterOrders | frontend/js/admin-dashboard.js:216-220 | 'all' returns every order, and any other value exactly the orders with that status |
| AdminDashboard.FilterOrdersAppend | frontend/js/admin-dashboard.js:217-220 | the filter keeps original order |
| AdminDashboard.CountRole | frontend/js/admin-dashboard.js:123 | the count is the number of times the role occurs among the users' roles; so it is at most the number of users, and 0 iff no user has the role |
| AdminDashboard.DashboardStats | frontend/js/admin-dashboard.js:107-124 | the figures are the number of orders, of products, of occurrences of PENDING among the statuses and of USER among the roles; the pending count is 0 iff no order is PENDING, the user count 0 iff no user has role USER |
| AdminDashboard.RecentOrders | frontend/js/admin-dashboard.js:132 | the last min(5, n) orders, newest first |
| AdminDashboard.RecentOrdersNewestFirst | frontend/js/admin-dashboard.js:132 | with sequential ids the recent list starts at the newest id and its ids strictly decrease |
| AdminDashboard.Edited | frontend/js/admin-dashboard.js:408-411 | an edit takes the form's fields over the product and keeps its id |
| AdminDashboard.MaxId | frontend/js/admin-dashboard.js:417 | the result is at least 0 and every id, and is 0 or an existing id |
| AdminDashboard.NextIdFresh | frontend/js/admin-dashboard.js:417 | max + 1 belongs to no product |
| AdminDashboard.Toggled | frontend/js/admin-dashboard.js:433 | `available` flips and nothing else changes |
| AdminDashboard.ToggledTwice | frontend/js/admin-dashboard.js:433 | toggling twice restores the product |
| AdminDashboard.WithStatus | frontend/js/admin-dashboard.js:465-466 | a status update changes only `status` and `updatedAt` |
| AdminDashboard.Admin.constructor | frontend/js/admin-dashboard.js:484-500 | missing product and order lists start empty, a missing user list starts as the two mock users, and the filter starts at 'all' |
| AdminDashboard.Admin.SetOrderFilter | frontend/js/admin-dashboard.js:61-64 | the filter takes the selected value |
| AdminDashboard.Admin.ShownOrders | frontend/js/admin-dashboard.js:216-220 | under 'all' every order is listed; under any other filter, exactly the orders with that status, in list order (the status selection, whose order is `OrdersWithStatusAppend`) |
| AdminDashboard.Admin.Statistics | frontend/js/admin-dashboard.js:107-124 | the figures are the list sizes and the exact numbers of PENDING orders and of USER accounts in the current lists |
| AdminDashboard.Admin.HandleProductSubmit | frontend/js/admin-dashboard.js:383-427 | a form missing a name, a category or a non-zero price is refused with nothing changed; an edit replaces the first product with the id by the merged record, keeping length and id, and an unknown id changes nothing; an add appends a product with the fresh id max + 1; unique ids are kept |
| AdminDashboard.Admin.ToggleProductAvailability | frontend/js/admin-dashboard.js:430-436 | the first product with the id has its flag flipped, nothing else changes, and an unknown id is a no-op |
| AdminDashboard.Admin.DeleteProduct | frontend/js/admin-dashboard.js:444-456 | once confirmed, only the first product with the id is spliced out and the rest keep their order; unconfirmed or unknown changes nothing; with unique ids none with that id remains |
| AdminDashboard.Admin.UpdateOrderStatus | frontend/js/admin-dashboard.js:458-472 | the first order with the id takes any given status and the time, nothing else changes, and an unknown id is a no-op; sequential ids are kept |
| Auth.MatchIndex | frontend/js/auth.js:26-29 | the first user whose username or email and password match, or none |
| Auth.LoginOutcome | frontend/js/auth.js:23-69 | login succeeds iff some user matches by username or email and password, and then carries that user's id, username, email and role; otherwise it reports "Invalid username or password" |
| Auth.ClashIndex | frontend/js/auth.js:98-100 | the first user sharing the username, email or phone, or none |
| Auth.RegisterError | frontend/js/auth.js:77-104 | each message is returned exactly when its check fails and every earlier check passes, in the order username length, email, phone, password length, confirmation, uniqueness; the lengths are counted in UTF-16 code units; nothing is returned iff all pass |
| Auth.AstralUsernameLongEnough | frontend/js/auth.js:77 | a username of two astral characters counts as length 4 and passes the three-character check |
| Auth.NewUser | frontend/js/auth.js:107-114 | the new user has id = previous count + 1, the form's fields and role USER |
| Auth.MockUsersWellFormed | frontend/js/auth.js:4-7 | the mock users have ids 1, 2 and share no username, email or phone |
| Auth.RegisterKeepsWellFormed | frontend/js/auth.js:98-116 | an accepted registration keeps ids sequential and credentials distinct |
| Auth.RegisteredUserCanLogin | frontend/js/auth.js:107-116 | login with a newly registered user's username or email and password succeeds; it returns the new account when no earlier user matches the same credentials |
| Auth.EmailAsUsernameReachesEarlierUser | frontend/js/auth.js:26-29 | a form whose username is the admin's email, with the admin's password, passes every registration check; logging in with it then returns the admin's account, because the duplicate test never compares usernames with emails (auth.js:98-100) |
| Auth.UserPageAllowed | frontend/js/auth.js:242-255 | a token is required; a stored user must have role USER; with a token and no stored user the page is allowed |
| Auth.AdminPageAllowed | frontend/js/auth.js:258-271 | allowed iff there is a token and a stored user with role ADMIN |
| Auth.GuardsExclusive | frontend/js/auth.js:242-271 | no state opens both pages |
| Auth.Session.constructor | frontend/js/auth.js:4-7 | the users start as the two mock users and the storage entries are as given |
| Auth.Session.IsAuthenticated | frontend/js/auth.js:12-15 | authenticated iff a non-empty token is stored |
| Auth.Session.Login | frontend/js/auth.js:23-69 | the outcome is the login rule's; on success the token and the matched user's id, username, email, role and phone are stored, and on failure nothing changes |
| Auth.Session.Register | frontend/js/auth.js:72-128 | the first failing check's message with the users unchanged, or exactly one new user appended; well-formedness is kept |
| Auth.Session.Logout | frontend/js/auth.js:131-134 | the token, user-data and cart entries are removed and the session is no longer authenticated |
| FoodOrderUsers.UserService.RegisterUser | backend/src/main/java/com/foodorder/service/UserService.java:24-45 | a taken username is reported before a taken email, with nothing stored; otherwise the request's fields, the encoded password and role USER are stored under a fresh id |
| FoodOrderUsers.UserService.AuthenticateUser | backend/src/main/java/com/foodorder/service/UserService.java:47-58 | the user found by username when `matches` accepts the password, and "Invalid credentials" otherwise |
| FoodOrderUsers.AuthenticateIff | backend/src/main/java/com/foodorder/service/UserService.java:47-58 | with unique usernames, authentication succeeds iff a stored user has that username and a matching password |
| FoodOrderUsers.UserService.FindByUsername | backend/src/main/java/com/foodorder/service/UserService.java:60-63 | succeeds iff a user has that username, and returns one; otherwise "User not found" |
| FoodOrderUsers.UserService.FindById | backend/src/main/java/com/foodorder/service/UserService.java:65-68 | succeeds iff a user has that id, and returns it; otherwise "User not found" |
| FoodOrderUsers.UserService.DeleteUser | backend/src/main/java/com/foodorder/service/UserService.java:74-76 | the user with that id is removed and an unknown id is ignored |
| FoodOrderUsers.UserService.UpdateUser | backend/src/main/java/com/foodorder/service/UserService.java:78-86 | only full name, email, address and phone of the stored user change; id, username, password and role stay; a missing id throws and changes nothing |
| FoodOrderOrders.BuildItemsSucceeds | backend/src/main/java/com/foodorder/service/OrderService.java:44-49 | the items are built iff every requested food exists and is available |
| FoodOrderOrders.BuildItemsSnapshot | backend/src/main/java/com/foodorder/service/OrderService.java:51-58 | one item per request, in order, with the food's current price as a snapshot and subtotal = price times quantity |
| FoodOrderOrders.BuildItemsFirstError | backend/src/main/java/com/foodorder/service/OrderService.java:44-49 | a failed build reports the error of the first line that cannot be ordered |
| FoodOrderOrders.CancelOutcomeIff | backend/src/main/java/com/foodorder/service/OrderService.java:97-113 | cancellation succeeds iff the order exists, the caller exists and owns it, and its status is neither DELIVERED nor CANCELLED; the result is CANCELLED |
| FoodOrderOrders.CancelTwiceRefused | backend/src/main/java/com/foodorder/service/OrderService.java:107-108 | a cancelled order cannot be cancelled again |
| FoodOrderOrders.CancelOutcome | backend/src/main/java/com/foodorder/service/OrderService.java:97-113 | an unknown order fails with "Order not found" before the user is looked up; an unknown user with "User not found"; another user's order with "You can only cancel your own orders"; a DELIVERED or CANCELLED order with "Cannot cancel this order"; a success is the stored order with status CANCELLED |
| FoodOrderOrders.OrderService.GetOrderById | backend/src/main/java/com/foodorder/service/OrderService.java:86-89 | the stored order, or "Order not found" |
| FoodOrderOrders.OrderService.CreateOrder | backend/src/main/java/com/foodorder/service/OrderService.java:31-75 | a missing user or an unknown or unavailable food aborts with its message and nothing saved; otherwise one PENDING order is saved whose items are the snapshots and whose total is the sum of their subtotals |
| FoodOrderOrders.OrderService.UpdateOrderStatus | backend/src/main/java/com/foodorder/service/OrderService.java:91-95 | any status is set unconditionally; a missing id throws "Order not found" and changes nothing |
| FoodOrderOrders.OrderService.CancelOrder | backend/src/main/java/com/foodorder/service/OrderService.java:97-113 | the order becomes CANCELLED exactly when the cancellation rule allows it, and otherwise the rule's error is returned with nothing changed |
| CanteenOrderEntity.Order.constructor | canteen/entity/Order.java:37-53 | a new order is PENDING with no items and every other field null |
| CanteenOrderEntity.Order.WithTotal | canteen/entity/Order.java:55-58 | sets exactly the user and the total |
| CanteenOrderEntity.Order.WithInstructions | canteen/entity/Order.java:60-64 | sets exactly the user, the total and the special instructions |
| CanteenOrderEntity.Order.AddOrderItem | canteen/entity/Order.java:67-70 | the item is appended at the end and its back-reference is this order; linked items stay linked |
| CanteenOrderEntity.Order.RemoveOrderItem | canteen/entity/Order.java:73-76 | the first occurrence of the item leaves the list, the rest keep their order, and its back-reference becomes null; with the item listed at most once, the remaining items all still point here |
| CanteenOrderEntity.Order.SetId | canteen/entity/Order.java:83-85 | the id is set |
| CanteenOrderEntity.Order.SetUser | canteen/entity/Order.java:91-93 | the user is set |
| CanteenOrderEntity.Order.SetTotalAmount | canteen/entity/Order.java:99-101 | the total is set |
| CanteenOrderEntity.Order.SetStatus | canteen/entity/Order.java:107-109 | the status is set; user, items, total and timestamps are untouched |
| CanteenOrderEntity.Order.SetSpecialInstructions | canteen/entity/Order.java:115-117 | the instructions are set |
| CanteenOrderEntity.Order.SetCreatedAt | canteen/entity/Order.java:123-125 | the creation time is set |
| CanteenOrderEntity.Order.SetUpdatedAt | canteen/entity/Order.java:131-133 | the update time is set |
| CanteenOrderEntity.Order.SetOrderItems | canteen/entity/Order.java:139-141 | the list is replaced and the items' back-references are left as they were |
| CanteenOrders.BuildItemsSucceeds | canteen/service/OrderService.java:67-73 | the lines are built iff every requested product exists and is available |
| CanteenOrders.BuildItemsSnapshot | canteen/service/OrderService.java:78-84 | one line per request, in request order, with the requested quantity and the product's current price |
| CanteenOrders.OrderTotalIsPriceTimesQuantity | canteen/service/OrderService.java:64-76 | the built order's total is the sum over the requests of current price times quantity |
| CanteenOrders.BuildItemsFirstError | canteen/service/OrderService.java:67-73 | a failed build reports the message of the first missing or unavailable product |
| CanteenOrders.ReadyNotification | canteen/service/OrderService.java:101-110 | an SMS is attempted iff the new status is READY and the previous one was not, and it goes to the user's phone with the order-ready text |
| CanteenOrders.CancelOutcome | canteen/service/OrderService.java:115-133 | an unknown id fails with "Order not found with id: " and the id; another user's order with "You can only cancel your own orders"; a PREPARING, READY or COMPLETED order with the "Cannot cancel order" message; a success is the stored order with status CANCELLED |
| CanteenOrders.CancelOutcomeIff | canteen/service/OrderService.java:115-131 | cancellation succeeds iff the order exists, the caller owns it, and it is PENDING, CONFIRMED or already CANCELLED |
| CanteenOrders.CancelTwiceAllowed | canteen/service/OrderService.java:124-131 | cancelling an already cancelled order succeeds again and changes nothing |
| CanteenOrders.Completed | canteen/service/OrderService.java:143-144 | exactly the COMPLETED orders |
| CanteenOrders.CompletedAppend | canteen/service/OrderService.java:143-144 | the COMPLETED selection distributes over concatenation |
| CanteenOrders.RevenueAppend | canteen/service/OrderService.java:141-147 | the revenue of two lists of orders is the sum of their revenues |
| CanteenOrders.Revenue | canteen/service/OrderService.java:141-147 | the revenue (filter COMPLETED, then sum the totals) is the sum over all the day's orders of each one's total if completed and 0 otherwise |
| CanteenOrders.RevenueBounds | canteen/service/OrderService.java:141-147 | with non-negative totals the revenue is between 0 and the sum of all the day's totals |
| CanteenOrders.RevenueWithoutCompleted | canteen/service/OrderService.java:141-147 | a day with no COMPLETED order has revenue 0 |
| CanteenOrders.OrderCount | canteen/service/OrderService.java:149-151 | the count is the list size, and at least the number of completed orders |
| CanteenOrders.OrderService.CreateOrder | canteen/service/OrderService.java:56-91 | a missing user, a missing product or an unavailable product aborts with its message and nothing is saved; otherwise one PENDING order with the user, the instructions, the snapshotted lines and the accumulated total is saved |
| CanteenOrders.OrderService.UpdateOrderStatus | canteen/service/OrderService.java:93-113 | any status is set on an existing order with no transition check; a missing id throws and changes nothing; the SMS yielded is the ready-notification rule |
| CanteenOrders.OrderService.CancelOrder | canteen/service/OrderService.java:115-133 | the order becomes CANCELLED exactly when the cancellation rule allows it, otherwise its error is returned with nothing changed |
| Sms.InitialisesTwilio | canteen/service/SmsService.java:23-30 | Twilio is initialised iff the SID and the token are both non-null and not placeholders |
| Sms.SendConfigured | canteen/service/SmsService.java:35-41 | sending proceeds iff all three credentials are non-null and not placeholders |
| Sms.SendingImpliesInitialised | canteen/service/SmsService.java:26-37 | whenever sending proceeds, Twilio was initialised |
| Sms.FormatPhoneNumber | canteen/service/SmsService.java:60-74 | the result is '+' followed by digits only; it is "+91" and the digits iff there are 10 digits; otherwise it is '+' and the digits |
| Sms.StrippedHasNoPlus | canteen/service/SmsService.java:69-70 | the stripped number never starts with '+', so the last branch always applies |
| Sms.IndianNumbersGetCountryCode | canteen/service/SmsService.java:65-68 | a 10-digit number, or a 12-digit one starting with 91, becomes "+91" and ten digits |
| Sms.FormatIdempotent | canteen/service/SmsService.java:60-74 | formatting a formatted number returns it unchanged |
| Sms.SendSms | canteen/service/SmsService.java:32-58 | nothing is sent iff a credential is missing or a placeholder; otherwise the formatted number, the configured sender and the message are sent |
| CanteenProducts.Updated | canteen/service/ProductService.java:45-50 | name, description, price, category, image URL and availability come from the details; the id stays |
| CanteenProducts.UpdatedWithItself | canteen/service/ProductService.java:41-53 | updating with the product's own details changes nothing |
| CanteenProducts.Toggled | canteen/service/ProductService.java:65 | `available` is negated and nothing else changes |
| CanteenProducts.ToggledTwice | canteen/service/ProductService.java:65 | toggling twice restores the product |
| CanteenProducts.ToggleTwiceRestores | canteen/service/ProductService.java:61-67 | toggling the same stored product twice restores the catalog |
| CanteenProducts.AvailableProducts | canteen/service/ProductService.java:21-23 | exactly the stored products whose flag is set |
| CanteenProducts.AvailableProductsByCategory | canteen/service/ProductService.java:33-35 | exactly the stored available products of that category |
| CanteenProducts.CategoryWithinAvailable | canteen/service/ProductService.java:21-35 | a category's available products are the available products restricted to that category |
| CanteenProducts.ProductService.UpdateProduct | canteen/service/ProductService.java:41-53 | the stored product is replaced by the updated copy; a missing id throws "Product not found with id" and changes nothing |
| CanteenProducts.ProductService.DeleteProduct | canteen/service/ProductService.java:55-59 | exactly that product leaves the catalog; a missing id throws and changes nothing |
| CanteenProducts.ProductService.ToggleAvailability | canteen/service/ProductService.java:61-67 | the stored product is replaced by its toggled copy; a missing id throws and changes nothing |
| CanteenOrderController.ExtractToken | canteen/controller/OrderController.java:168-174 | succeeds iff the header is present and starts with "Bearer ", giving the rest of it; otherwise "No valid token found" |
| CanteenOrderController.ExtractTokenRoundTrip | canteen/controller/OrderController.java:170-171 | the header "Bearer " + t yields exactly t |
| CanteenOrderController.GetOrderById | canteen/controller/OrderController.java:66-94 | 404 for a missing order; 400 for a bad header; otherwise 200 with the order iff the role is ADMIN or the caller owns it, and 403 "Access denied" otherwise |
| CanteenOrderController.NonAdminSeesOwnOrdersOnly | canteen/controller/OrderController.java:82-86 | a caller who is not an admin only ever receives an order of their own |
| CanteenOrderController.ValueOf | canteen/controller/OrderController.java:121 | the constant with exactly that name, and an error exactly when no constant has it |
| CanteenOrderController.ParseStatus | canteen/controller/OrderController.java:39 | parsing succeeds iff the upper-cased string names a status, and gives that status |
| CanteenOrderController.StatusNameIsUpper | canteen/entity/OrderStatus.java:3-9 | the status names are all upper case |
| CanteenOrderController.ParseStatusIgnoresCase | canteen/controller/OrderController.java:121 | parsing ignores case: a string parses like its upper- and its lower-case forms |
| CanteenOrderController.ParseStatusName | canteen/controller/OrderController.java:121 | every status parses back from its name, in upper or in lower case |
| Text.TrimJs | frontend/js/user-dashboard.js:287 | `trim` gives the slice of the string between its leading and its trailing whitespace: empty iff the string is all whitespace, and otherwise starting and ending with a character that is not whitespace |
| Text.Upper | canteen/controller/OrderController.java:39 | `toUpperCase` keeps the length and maps every character by the ASCII case mapping |
| Text.Utf16Length | frontend/js/auth.js:77-89 | `.length` counts between one and two units per character: exactly one each iff no character is astral, exactly two each iff all are |
| Text.Utf16LengthAppend | frontend/js/auth.js:77-89 | the code-unit length of a concatenation is the sum of the lengths |

## Left out

- DOM rendering, HTML templates, section switching, `alert`/`confirm` dialogs, toasts, loading spinners, `setTimeout` redirects and event-listener wiring: these are UI only. A confirm dialog's answer, the selectors' values and a server reply's ok flag enter as parameters.
- `fetch` calls and their JSON handling in app.js: these are network I/O. `FinishCheckout` takes the response's ok flag.
- localStorage: `Utils.getFromStorage/saveToStorage/removeFromStorage` and `Cart.init/saveToStorage`. The auth session keeps the three entries as fields, and the cart is not persisted.
- `Utils.formatCurrency`, `Utils.formatDate` and every `toFixed`: these are floating-point and locale formatting.
- Prices are whole numbers. A fractional `parseFloat` price in the admin form, and `BigDecimal` scale and rounding, are not modelled.
- Twilio's client, `Message.creator(...).create()` and its exceptions: foreign code. `Sms.SendSms` returns what would be sent, and the service's update returns the SMS to attempt, which never affects the update.
- JWT parsing and its exceptions: foreign code. `extractUsername` and `extractRole` are total function parameters, so a token the library rejects (a 400 in the controller) is not modelled.
- `PasswordEncoder`: foreign code. `encode` and `matches` are parameters.
- Generated ids, `LocalDateTime.now()`, `new Date().toISOString()` and the mock login token (`btoa` of a JSON object with `Date.now()`) are not computed. Repositories draw ids from a counter, and time and token values are parameters.
- Repository ordering: the canteen repositories are maps, so results have no order. The food-order user repository is a list in insertion order.
- The canteen queries `getAllOrders`, `getOrdersByUser`, `getOrdersByStatus`, `getOrdersByDateRange` and `getTodaysOrders`, and `ProductService.getAllProducts`, `getProductById`, `getProductsByCategory` and `createProduct`: not part of the named core. The day's orders are a parameter of `Revenue` and `OrderCount`.
- The food-order `getUserOrders`, `getAllOrders` and `getAllUsers`: not part of the named core.
- `AdminDashboard.viewUser`: a placeholder that only shows an alert.
- The `window.MOCK_*` sharing between the two dashboards: each class holds its own lists.
- Non-ASCII case mapping in `toUpperCase`/`toLowerCase`: only ASCII letters are mapped.
- `ProductController`, `AuthController`, `FoodController`, `HealthController`, `CanteenApplication`, `GlobalExceptionHandler`, the `@PreAuthorize` rules, the DTOs and the repository interfaces: framework plumbing. Their data is the datatypes here.
- com/canteen/model/Order.java is not part of this model. The service and controller use its `OrderStatus`, which is modelled with the constants of canteen/entity/OrderStatus.java.
- FoodOrderModel: the food-order backend's entity classes are not part of this model. Their fields are the ones the services use.
- A `null` quantity, user or product field in the services is not modelled: every record field has a value.
- UserDashboard.Cart.GetTotal: its contract states only the empty-cart case. How the total changes under each cart operation is stated by `CartAddTotal`, `CartSetQuantityTotal` and `Cart.Clear`.
- UserDashboard.Cart.GetItemCount: likewise, only the empty case; its changes are `CartAddCount` and `CartSetQuantityCount`.
- CanteenOrderEntity.Order.SetOrderItems: the source stores the caller's list object itself, and `getOrderItems` hands out that same object. So a later `addOrderItem` or `removeOrderItem` also changes the caller's list. The model's `orderItems` is a `seq` value, so this aliasing is not captured.
- CanteenOrderEntity.Order.RemoveOrderItem: when the same item object is listed twice, the source leaves a copy whose back-reference is null. The contract states that the list stays linked only when the item was listed at most once.
- AdminDashboard.Admin.DeleteProduct: "no product with that id remains" is stated only for a catalog with unique ids. Otherwise only the first match is removed, as in the source.
- FoodOrderUsers.UserService.DeleteUser: `deleteById` of an unknown id is modelled as a no-op. Whether the installed Spring Data version throws there cannot be seen here.
