/** The rows of the backend's tables (users, services, guest_addresses, orders,
    order_items, transactions) and the gateway payloads stored with them.
    Timestamps are natural numbers supplied by the caller; money amounts are
    integers; coordinates are reals. */
module Records {
  import opened Wrappers

  type Id = string

  datatype User = User(id: Id, mobile: string, name: string, email: string, createdAt: nat, updatedAt: nat)

  datatype Service = Service(
    id: Id, name: string, description: string, price: int, durationMinutes: int,
    categoryId: Id, imageUrl: string, isActive: bool, createdAt: nat, updatedAt: nat)

  datatype Address = Address(
    id: Id, userId: Id, addressLine1: string, addressLine2: string, city: string,
    state: string, postalCode: string, country: string,
    latitude: Option<real>, longitude: Option<real>, googlePlaceId: Option<string>,
    isDefault: bool, createdAt: nat, updatedAt: nat)

  /** orders.status: 'pending', 'confirmed' or 'cancelled'. */
  datatype OrderStatus = OrderPending | Confirmed | Cancelled

  /** orders.payment_status: 'pending', 'paid' or 'failed'. */
  datatype PaymentStatus = PaymentPending | Paid | PaymentFailed

  /** transactions.status: 'pending', 'success', 'failed' or 'cancelled'. */
  datatype TxnStatus = TxnPending | TxnSuccess | TxnFailed | TxnCancelled

  datatype Order = Order(
    id: Id, userId: Id, addressId: Option<Id>, status: OrderStatus, paymentStatus: PaymentStatus,
    subtotal: int, discountAmount: int, totalAmount: int,
    scheduledDate: string, scheduledTime: string, notes: Option<string>,
    createdAt: nat, updatedAt: nat)

  datatype OrderItem = OrderItem(id: Id, orderId: Id, serviceId: Id, quantity: int, unitPrice: int, totalPrice: int)

  /** The gateway's order object, as returned by order creation and by the order-status query. */
  datatype GatewayOrder = GatewayOrder(
    orderId: string, cfOrderId: string, paymentSessionId: string,
    orderStatus: string, paymentStatus: string, orderAmount: int, paymentTime: string)

  /** The `data` object of a webhook: its `order` and `payment` sub-objects. */
  datatype WebhookOrder = WebhookOrder(orderId: string)
  datatype WebhookPayment = WebhookPayment(paymentStatus: string)
  datatype WebhookData = WebhookData(order: Option<WebhookOrder>, payment: Option<WebhookPayment>)

  /** What transactions.gateway_response holds: a gateway order object (with a
      top-level `order_id`) or the nested data of a webhook (without one). */
  datatype GatewayPayload = OrderPayload(body: GatewayOrder) | WebhookPayload(data: WebhookData)

  datatype Transaction = Transaction(
    id: Id, orderId: Id, paymentGateway: string, amount: int, currency: string, status: TxnStatus,
    gatewayTransactionId: Option<string>, gatewayResponse: Option<GatewayPayload>,
    createdAt: nat, updatedAt: nat)

  /** The body posted to the gateway's order-creation endpoint. */
  datatype GatewayCustomer = GatewayCustomer(customerId: Id, customerName: string, customerEmail: string, customerPhone: string)
  datatype GatewayOrderRequest = GatewayOrderRequest(
    orderId: string, orderAmount: int, orderCurrency: string, customer: GatewayCustomer,
    returnUrl: string, notifyUrl: string)

  // Columns used in `.eq(...)` filters.

  function UserKey(u: User): Id { u.id }
  function UserMobile(u: User): string { u.mobile }
  function ServiceKey(s: Service): Id { s.id }
  function ServiceActive(s: Service): bool { s.isActive }
  /** `.eq('id', ...).eq('is_active', ...)` */
  function ServiceKeyActive(s: Service): (Id, bool) { (s.id, s.isActive) }
  function AddressKey(a: Address): Id { a.id }
  function AddressOwner(a: Address): Id { a.userId }
  /** `.eq('id', ...).eq('user_id', ...)` */
  function AddressKeyOwner(a: Address): (Id, Id) { (a.id, a.userId) }
  function OrderKey(o: Order): Id { o.id }
  function OrderOwner(o: Order): Id { o.userId }
  function ItemKey(i: OrderItem): Id { i.id }
  function ItemOrder(i: OrderItem): Id { i.orderId }
  function TxnKey(t: Transaction): Id { t.id }
  function TxnOrder(t: Transaction): Id { t.orderId }

  /** `gateway_response->order_id`: only a stored gateway order object has one. */
  function TxnRef(t: Transaction): Option<string> {
    match t.gatewayResponse
    case Some(OrderPayload(g)) => Some(g.orderId)
    case _ => None
  }
}
