/** The order entities of src/services/orders.ts and the two requests made
    about them. The HTTP client itself is not modelled: `listOrders` is the
    normalisation of whatever payload the server answered with, and
    `updateOrderStatus` is the request it builds. */
module Orders {
  import opened Wrappers

  /** The closed set of order states. */
  datatype OrderStatus = New | Preparing | OutForDelivery | Delivered | Canceled

  /** The wire spelling of each state. */
  function StatusName(s: OrderStatus): string {
    match s
    case New => "NEW"
    case Preparing => "PREPARING"
    case OutForDelivery => "OUT_FOR_DELIVERY"
    case Delivered => "DELIVERED"
    case Canceled => "CANCELED"
  }

  /** Reading a wire spelling back; anything else is not a status. */
  function ParseStatus(name: string): (r: Option<OrderStatus>)
    ensures r.Some? ==> StatusName(r.value) == name
  {
    if name == "NEW" then Some(New)
    else if name == "PREPARING" then Some(Preparing)
    else if name == "OUT_FOR_DELIVERY" then Some(OutForDelivery)
    else if name == "DELIVERED" then Some(Delivered)
    else if name == "CANCELED" then Some(Canceled)
    else None
  }

  /** Exactly five states, each with its own spelling, and every spelling reads back. */
  lemma StatusNamesRoundTrip(s: OrderStatus)
    ensures ParseStatus(StatusName(s)) == Some(s)
    ensures forall t: OrderStatus :: StatusName(t) == StatusName(s) ==> t == s
  {
  }

  datatype OrderItem = OrderItem(
    id: string,
    productId: string,
    quantity: int,
    unitPriceCents: int,
    nameSnapshot: string)

  /** `createdAt` is an ISO date string in the source; here it is the
      timestamp that `new Date(createdAt).getTime()` yields. */
  datatype Order = Order(
    id: string,
    status: OrderStatus,
    customerName: Option<string>,
    customerPhone: Option<string>,
    deliveryAddress: Option<string>,
    totalCents: int,
    createdAt: int,
    items: seq<OrderItem>)

  /** What `res.data` of `GET /orders` may be: an array, or a single value. */
  datatype OrdersPayload = Many(orders: seq<Order>) | Single(order: Order)

  /** `listOrders`: an array payload is returned as it is, anything else is
      wrapped into a one-element list. */
  function ListOrders(payload: OrdersPayload): (r: seq<Order>)
    ensures payload.Many? ==> r == payload.orders
    ensures payload.Single? ==> r == [payload.order]
  {
    match payload
    case Many(xs) => xs
    case Single(x) => [x]
  }

  /** A request the order service sends. */
  datatype Request = Patch(path: string, body: map<string, string>)

  const OrdersPrefix: string := "/orders/"
  const StatusSuffix: string := "/status"

  /** `updateOrderStatus(orderId, status)`: `PATCH /orders/{orderId}/status` with body `{status}`. */
  function UpdateOrderStatus(orderId: string, status: OrderStatus): (r: Request)
    ensures |r.path| == |OrdersPrefix| + |orderId| + |StatusSuffix|
    ensures r.path[..|OrdersPrefix|] == OrdersPrefix
    ensures r.path[|OrdersPrefix|..|OrdersPrefix| + |orderId|] == orderId
    ensures r.path[|OrdersPrefix| + |orderId|..] == StatusSuffix
    ensures r.body.Keys == {"status"} && r.body["status"] == StatusName(status)
  {
    Patch(OrdersPrefix + orderId + StatusSuffix, map["status" := StatusName(status)])
  }

  /** The order id read back from a status path, when the path has that shape. */
  function StatusPathOrderId(path: string): Option<string> {
    if |path| >= |OrdersPrefix| + |StatusSuffix|
       && path[..|OrdersPrefix|] == OrdersPrefix
       && path[|path| - |StatusSuffix|..] == StatusSuffix
    then Some(path[|OrdersPrefix|..|path| - |StatusSuffix|])
    else None
  }

  /** The request targets exactly the order it was built for, and carries the status it was asked for. */
  lemma UpdateOrderStatusTargets(orderId: string, status: OrderStatus)
    ensures StatusPathOrderId(UpdateOrderStatus(orderId, status).path) == Some(orderId)
    ensures ParseStatus(UpdateOrderStatus(orderId, status).body["status"]) == Some(status)
  {
    var p := UpdateOrderStatus(orderId, status).path;
    assert p[|p| - |StatusSuffix|..] == StatusSuffix;
    StatusNamesRoundTrip(status);
  }
}
