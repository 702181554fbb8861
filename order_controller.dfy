/**
 * canteen/controller/OrderController.java: the pieces of the order endpoints that decide
 * something — the bearer-token extraction, the owner-or-admin rule of GET /orders/{id}, and
 * the case-insensitive parsing of status names. The JWT library is passed in as the two
 * functions that read a token's username and role.
 */
module CanteenOrderController {
  import opened Wrappers
  import opened Text
  import opened CanteenModel
  import CanteenOrders

  const BEARER: string := "Bearer "
  const NO_TOKEN: string := "No valid token found"
  const ACCESS_DENIED: string := "Access denied"
  const ROLE_ADMIN: string := "ADMIN"

  /** extractTokenFromRequest: a header starting with "Bearer " loses its first 7 characters, anything else throws. */
  function ExtractToken(header: Option<string>): (r: Result<string, string>)
    ensures r.Success? <==> header.Some? && BEARER <= header.value
    ensures r.Success? ==> header.value == BEARER + r.value
    ensures r.Failure? ==> r.error == NO_TOKEN
  {
    if header.Some? && BEARER <= header.value then Success(header.value[7..]) else Failure(NO_TOKEN)
  }

  /** The header "Bearer " + t yields exactly t. */
  lemma ExtractTokenRoundTrip(t: string)
    ensures ExtractToken(Some(BEARER + t)) == Success(t)
  {
    assert BEARER <= BEARER + t;
  }

  /** The HTTP outcomes of the endpoint: 200 with a body, 404, 403 or 400 with an error text. */
  datatype Response<T> = Ok(body: T) | NotFound(error: string) | Forbidden(error: string) | BadRequest(error: string)

  /** Admins see every order; anyone else only the orders of the user with their username. */
  predicate MayView(order: OrderRecord, username: string, role: string)
  {
    role == ROLE_ADMIN || order.user.username == username
  }

  /**
   * getOrderById: 404 when the order is missing; then the token is read (a bad header is a
   * 400); then the caller may see the order exactly when MayView holds, and gets 403 otherwise.
   */
  function GetOrderById(orders: map<int, OrderRecord>, id: int, header: Option<string>,
                        extractUsername: string -> string, extractRole: string -> string)
    : (r: Response<OrderRecord>)
    ensures id !in orders ==> r == NotFound(CanteenOrders.OrderNotFound(id))
    ensures id in orders && ExtractToken(header).Failure? ==> r == BadRequest(NO_TOKEN)
    ensures id in orders && ExtractToken(header).Success? ==>
      var token := ExtractToken(header).value;
      && (r.Ok? <==> MayView(orders[id], extractUsername(token), extractRole(token)))
      && (r.Ok? ==> r.body == orders[id])
      && (!r.Ok? ==> r == Forbidden(ACCESS_DENIED))
  {
    if id !in orders then NotFound(CanteenOrders.OrderNotFound(id))
    else
      match ExtractToken(header)
      case Failure(e) => BadRequest(e)
      case Success(token) =>
        var username := extractUsername(token);
        var role := extractRole(token);
        if role != ROLE_ADMIN && orders[id].user.username != username then Forbidden(ACCESS_DENIED)
        else Ok(orders[id])
  }

  /** A caller who is not an admin only ever receives an order of their own. */
  lemma NonAdminSeesOwnOrdersOnly(orders: map<int, OrderRecord>, id: int, header: Option<string>,
                                  extractUsername: string -> string, extractRole: string -> string)
    requires GetOrderById(orders, id, header, extractUsername, extractRole).Ok?
    requires extractRole(ExtractToken(header).value) != ROLE_ADMIN
    ensures id in orders && orders[id].user.username == extractUsername(ExtractToken(header).value)
  {
  }

  /** The enum constant names. */
  function StatusName(s: OrderStatus): string
  {
    match s
    case PENDING => "PENDING"
    case CONFIRMED => "CONFIRMED"
    case PREPARING => "PREPARING"
    case READY => "READY"
    case COMPLETED => "COMPLETED"
    case CANCELLED => "CANCELLED"
  }

  /** Enum.valueOf: the constant with exactly that name, or the IllegalArgumentException's message. */
  function ValueOf(name: string): (r: Result<OrderStatus, string>)
    ensures r.Success? ==> StatusName(r.value) == name
    ensures r.Failure? ==> forall s: OrderStatus :: StatusName(s) != name
  {
    if name == "PENDING" then Success(PENDING)
    else if name == "CONFIRMED" then Success(CONFIRMED)
    else if name == "PREPARING" then Success(PREPARING)
    else if name == "READY" then Success(READY)
    else if name == "COMPLETED" then Success(COMPLETED)
    else if name == "CANCELLED" then Success(CANCELLED)
    else Failure("No enum constant com.canteen.model.Order.OrderStatus." + name)
  }

  /** `OrderStatus.valueOf(status.toUpperCase())`. */
  function ParseStatus(status: string): (r: Result<OrderStatus, string>)
    ensures r.Success? <==> exists s: OrderStatus :: StatusName(s) == Upper(status)
    ensures r.Success? ==> StatusName(r.value) == Upper(status)
  {
    ValueOf(Upper(status))
  }

  /** The enum names have no lower-case letters, so upper-casing leaves them as they are. */
  lemma StatusNameIsUpper(s: OrderStatus)
    ensures Upper(StatusName(s)) == StatusName(s)
  {
    var n := StatusName(s);
    assert forall k :: 0 <= k < |n| ==> 'A' <= n[k] <= 'Z';
  }

  /** Parsing ignores case: a name in any mix of cases parses like its upper-case form. */
  lemma ParseStatusIgnoresCase(status: string)
    ensures ParseStatus(status) == ParseStatus(Upper(status))
    ensures ParseStatus(Lower(status)) == ParseStatus(status)
  {
    UpperIdempotent(status);
    UpperOfLower(status);
  }

  /** Every status parses back from its name, written in upper or in lower case. */
  lemma ParseStatusName(s: OrderStatus)
    ensures ParseStatus(StatusName(s)) == Success(s)
    ensures ParseStatus(Lower(StatusName(s))) == Success(s)
  {
    StatusNameIsUpper(s);
    ParseStatusIgnoresCase(StatusName(s));
  }
}
