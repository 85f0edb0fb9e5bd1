/** The payment routes: creating a payment order (order, order item and
    transaction rows plus a gateway order), verifying a payment by polling the
    gateway, and applying the gateway's webhooks. The gateway's replies are
    inputs: `None` stands for a call that threw. */
module Payment {
  import opened Wrappers
  import opened Strings
  import opened Table
  import opened Records
  import opened Store

  // ---------------------------------------------------------------------
  // Status mapping

  /** The statuses written to a transaction, its order, and the order's payment. */
  datatype StatusTriple = StatusTriple(txn: TxnStatus, order: OrderStatus, payment: PaymentStatus)

  /** A successful transaction goes with a confirmed, paid order; a failed or
      cancelled one with a cancelled order. */
  predicate Consistent(t: StatusTriple) {
    && (t.txn == TxnSuccess <==> t.order == Confirmed)
    && (t.order == Confirmed <==> t.payment == Paid)
    && (t.txn == TxnFailed || t.txn == TxnCancelled ==> t.order == Cancelled)
  }

  /** The verify route's translation of the gateway's (order_status, payment_status). */
  function MapGatewayStatus(orderStatus: string, paymentStatus: string): (t: StatusTriple)
    ensures orderStatus == "PAID" && paymentStatus == "SUCCESS" ==> t == StatusTriple(TxnSuccess, Confirmed, Paid)
    ensures paymentStatus == "FAILED" ==> t == StatusTriple(TxnFailed, Cancelled, PaymentFailed)
    ensures paymentStatus == "USER_DROPPED" ==> t == StatusTriple(TxnCancelled, Cancelled, PaymentFailed)
    ensures (!(orderStatus == "PAID" && paymentStatus == "SUCCESS") && paymentStatus != "FAILED"
             && paymentStatus != "USER_DROPPED") ==> t == StatusTriple(TxnPending, OrderPending, PaymentPending)
    ensures Consistent(t)
  {
    if orderStatus == "PAID" && paymentStatus == "SUCCESS" then StatusTriple(TxnSuccess, Confirmed, Paid)
    else if paymentStatus == "FAILED" then StatusTriple(TxnFailed, Cancelled, PaymentFailed)
    else if paymentStatus == "USER_DROPPED" then StatusTriple(TxnCancelled, Cancelled, PaymentFailed)
    else StatusTriple(TxnPending, OrderPending, PaymentPending)
  }

  // ---------------------------------------------------------------------
  // Row updates

  /** `update({status, gateway_response, updated_at}).eq('id', id)` on transactions. */
  function SetTxnOutcome(txns: seq<Transaction>, id: Id, st: TxnStatus, payload: GatewayPayload, now: nat): seq<Transaction> {
    seq(|txns|, i requires 0 <= i < |txns| =>
      if txns[i].id == id then txns[i].(status := st, gatewayResponse := Some(payload), updatedAt := now) else txns[i])
  }

  /** `update({status, gateway_response, updated_at}).eq('gateway_response->order_id', ref)`. */
  function MarkTxnsByRef(txns: seq<Transaction>, ref: string, st: TxnStatus, data: WebhookData, now: nat): seq<Transaction> {
    seq(|txns|, i requires 0 <= i < |txns| =>
      if TxnRef(txns[i]) == Some(ref) then txns[i].(status := st, gatewayResponse := Some(WebhookPayload(data)), updatedAt := now)
      else txns[i])
  }

  /** `update({status, payment_status, updated_at}).eq('id', id)` on orders. */
  function SetOrderOutcome(orders: seq<Order>, id: Id, os: OrderStatus, ps: PaymentStatus, now: nat): seq<Order> {
    seq(|orders|, i requires 0 <= i < |orders| =>
      if orders[i].id == id then orders[i].(status := os, paymentStatus := ps, updatedAt := now) else orders[i])
  }

  /** `update({gateway_transaction_id, gateway_response}).eq('id', id)` after order creation. */
  function AttachGatewayOrder(txns: seq<Transaction>, id: Id, g: GatewayOrder): seq<Transaction> {
    seq(|txns|, i requires 0 <= i < |txns| =>
      if txns[i].id == id then WithGatewayOrder(txns[i], g) else txns[i])
  }

  function WithGatewayOrder(t: Transaction, g: GatewayOrder): Transaction {
    t.(gatewayTransactionId := Some(g.cfOrderId), gatewayResponse := Some(OrderPayload(g)))
  }

  // ---------------------------------------------------------------------
  // POST /create-order

  datatype CustomerDetails = CustomerDetails(customerPhone: string, customerName: Option<string>, customerEmail: Option<string>)

  datatype CreateOrderRequest = CreateOrderRequest(
    orderRef: string, userId: Id, serviceId: Id, amount: int, customer: CustomerDetails,
    scheduledDate: Option<string>, scheduledTime: Option<string>, addressId: Option<Id>)

  /** Inputs the handler takes from its surroundings: the clock, today's date,
      FRONTEND_URL, and the protocol and host of the request. */
  datatype RequestContext = RequestContext(now: nat, today: string, frontendUrl: Option<string>, protocol: string, host: string)

  /** The uuids the handler draws for the rows it inserts. */
  datatype FreshIds = FreshIds(order: Id, item: Id, txn: Id)

  datatype CreateOrderResponse = CreateOrderResponse(
    status: int, gatewayRequest: Option<GatewayOrderRequest>, paymentSessionId: Option<string>,
    returnUrl: Option<string>, order: Option<Order>, transaction: Option<Transaction>)

  /** The request checks: `validatorsOk` stands for the library checks (uuids, the
      customer object, the e-mail address); the others are written out. */
  predicate CreateRequestValid(req: CreateOrderRequest, validatorsOk: bool) {
    validatorsOk && req.orderRef != "" && req.amount >= 1 && req.customer.customerPhone != ""
  }

  /** The checks before anything is written: Some(400) for a bad request, Some(404)
      when the user or the active service is not exactly one row, None to go on. */
  function CreateOrderPrecheck(users: seq<User>, services: seq<Service>, req: CreateOrderRequest, validatorsOk: bool): (r: Option<int>)
    ensures r == Some(400) <==> !CreateRequestValid(req, validatorsOk)
    ensures r == Some(404) <==> (CreateRequestValid(req, validatorsOk)
      && (Single(users, UserKey, req.userId).None? || Single(services, ServiceKeyActive, (req.serviceId, true)).None?))
    ensures r.None? ==> (exists i :: 0 <= i < |users| && users[i].id == req.userId)
    ensures r.None? ==> (exists j :: 0 <= j < |services| && services[j].id == req.serviceId && services[j].isActive)
    ensures r.Some? ==> r.value == 400 || r.value == 404
  {
    if !CreateRequestValid(req, validatorsOk) then Some(400)
    else if Single(users, UserKey, req.userId).None? then Some(404)
    else if Single(services, ServiceKeyActive, (req.serviceId, true)).None? then Some(404)
    else
      var j := Single(services, ServiceKeyActive, (req.serviceId, true)).value;
      assert services[j].id == req.serviceId && services[j].isActive;
      None
  }

  /** The order row: pending/pending, subtotal = total = amount, no discount. */
  function NewPaymentOrder(req: CreateOrderRequest, id: Id, ctx: RequestContext): (o: Order)
    ensures o.id == id && o.userId == req.userId
    ensures o.status == OrderPending && o.paymentStatus == PaymentPending
    ensures o.subtotal == o.totalAmount == req.amount && o.discountAmount == 0
    ensures o.scheduledTime == (if Truthy(req.scheduledTime) then req.scheduledTime.value else "10:00")
  {
    Order(id, req.userId, if Truthy(req.addressId) then req.addressId else None,
          OrderPending, PaymentPending, req.amount, 0, req.amount,
          OrElse(req.scheduledDate, ctx.today), OrElse(req.scheduledTime, "10:00"), None,
          ctx.now, ctx.now)
  }

  /** The order item row: one unit of the service at the paid amount. */
  function NewPaymentItem(req: CreateOrderRequest, id: Id, orderId: Id): (i: OrderItem)
    ensures i.id == id && i.orderId == orderId && i.serviceId == req.serviceId
    ensures i.quantity == 1 && i.unitPrice == req.amount && i.totalPrice == i.quantity * i.unitPrice
  {
    OrderItem(id, orderId, req.serviceId, 1, req.amount, req.amount)
  }

  /** The transaction row: pending, in INR through Cashfree, for the order's amount,
      with no gateway data until the gateway has answered. */
  function NewPaymentTxn(id: Id, orderId: Id, amount: int, now: nat): (t: Transaction)
    ensures t.id == id && t.orderId == orderId && t.amount == amount
    ensures t.status == TxnPending && t.currency == "INR" && t.paymentGateway == "Cashfree"
    ensures t.gatewayTransactionId.None? && t.gatewayResponse.None? && TxnRef(t).None?
  {
    Transaction(id, orderId, "Cashfree", amount, "INR", TxnPending, None, None, now, now)
  }

  /** The gateway order body: the caller's order reference, the amount in INR, and
      the customer's name and e-mail falling back to the user's and then to fixed defaults. */
  function BuildGatewayRequest(req: CreateOrderRequest, user: User, ctx: RequestContext): (g: GatewayOrderRequest)
    ensures g.orderId == req.orderRef && g.orderAmount == req.amount && g.orderCurrency == "INR"
    ensures g.customer.customerId == req.userId && g.customer.customerPhone == req.customer.customerPhone
    ensures g.customer.customerName == (if Truthy(req.customer.customerName) then req.customer.customerName.value
                                        else if user.name != "" then user.name else "Customer")
    ensures g.customer.customerEmail == (if Truthy(req.customer.customerEmail) then req.customer.customerEmail.value
                                         else if user.email != "" then user.email else "customer@example.com")
    // an unset FRONTEND_URL renders as "undefined" in the template string
    ensures g.returnUrl == TemplateText(ctx.frontendUrl) + "/payment/callback"
    ensures g.notifyUrl == ctx.protocol + "://" + ctx.host + "/api/payment/webhook"
  {
    GatewayOrderRequest(
      req.orderRef, req.amount, "INR",
      GatewayCustomer(req.userId,
        OrElse(req.customer.customerName, OrElse(Some(user.name), "Customer")),
        OrElse(req.customer.customerEmail, OrElse(Some(user.email), "customer@example.com")),
        req.customer.customerPhone),
      TemplateText(ctx.frontendUrl) + "/payment/callback",
      ctx.protocol + "://" + ctx.host + "/api/payment/webhook")
  }

  /** With FRONTEND_URL unset, the customer is sent back to "undefined/payment/callback". */
  lemma UnsetFrontendReturnUrl(req: CreateOrderRequest, user: User, ctx: RequestContext)
    requires ctx.frontendUrl.None?
    ensures BuildGatewayRequest(req, user, ctx).returnUrl == "undefined/payment/callback"
  {
  }

  /** Attaching the gateway order to the just-inserted last row touches only that row. */
  lemma AttachToLast(txns: seq<Transaction>, t: Transaction, g: GatewayOrder)
    requires !HasKey(txns, TxnKey, t.id)
    ensures AttachGatewayOrder(txns + [t], t.id, g) == txns + [WithGatewayOrder(t, g)]
  {
    var a := AttachGatewayOrder(txns + [t], t.id, g);
    forall i | 0 <= i < |txns| ensures a[i] == txns[i] {
      assert TxnKey(txns[i]) != t.id;
    }
  }

  /** POST /create-order: the checks, then the rows and the gateway order. */
  method CreatePaymentOrder(
    db: Db, req: CreateOrderRequest, validatorsOk: bool, ctx: RequestContext, ids: FreshIds,
    orderInsertOk: bool, itemInsertOk: bool, txnInsertOk: bool, txnUpdateOk: bool,
    gateway: Option<GatewayOrder>)
    returns (r: CreateOrderResponse)
    requires db.Valid()
    modifies db`orders, db`orderItems, db`transactions
    ensures db.Valid()
    // 400 and 404: nothing is written
    ensures CreateOrderPrecheck(old(db.users), old(db.services), req, validatorsOk).Some? ==>
      r.status == CreateOrderPrecheck(old(db.users), old(db.services), req, validatorsOk).value && unchanged(db)
    ensures CreateOrderPrecheck(old(db.users), old(db.services), req, validatorsOk).None? ==>
      RecordedPaymentOrder(old(db.orders), old(db.orderItems), old(db.transactions), db.orders, db.orderItems, db.transactions,
        r, req, ctx, ids, orderInsertOk, itemInsertOk, txnInsertOk, txnUpdateOk, gateway)
    ensures r.status == 200 ==> gateway.Some? && r.gatewayRequest.Some? && r.gatewayRequest.value.orderId == req.orderRef
    // a 200 sent the body built from the stored user, and echoes its return URL
    ensures r.status == 200 ==>
      && r.gatewayRequest == Some(BuildGatewayRequest(req, old(db.users)[Single(old(db.users), UserKey, req.userId).value], ctx))
      && r.returnUrl == Some(r.gatewayRequest.value.returnUrl)
  {
    var pre := CreateOrderPrecheck(db.users, db.services, req, validatorsOk);
    if pre.Some? {
      return CreateOrderResponse(pre.value, None, None, None, None, None);
    }
    var user := db.users[Single(db.users, UserKey, req.userId).value];
    r := RecordPaymentOrder(db, req, user, ctx, ids, orderInsertOk, itemInsertOk, txnInsertOk, txnUpdateOk, gateway);
  }

  /** The state after the writes of create-order, from the tables before them. */
  ghost predicate RecordedPaymentOrder(
    orders0: seq<Order>, items0: seq<OrderItem>, txns0: seq<Transaction>,
    orders: seq<Order>, items: seq<OrderItem>, txns: seq<Transaction>,
    r: CreateOrderResponse, req: CreateOrderRequest, ctx: RequestContext, ids: FreshIds,
    orderInsertOk: bool, itemInsertOk: bool, txnInsertOk: bool, txnUpdateOk: bool, gateway: Option<GatewayOrder>)
  {
    var o := NewPaymentOrder(req, ids.order, ctx);
    var t := NewPaymentTxn(ids.txn, ids.order, req.amount, ctx.now);
    if !orderInsertOk || HasKey(orders0, OrderKey, ids.order) then
      // the order insert fails: 500, nothing is written
      r.status == 500 && orders == orders0 && items == items0 && txns == txns0
    else
      // the order is inserted and stays whatever happens next; a failed item insert is only logged
      && orders == orders0 + [o]
      && items == (if itemInsertOk && !HasKey(items0, ItemKey, ids.item)
                   then items0 + [NewPaymentItem(req, ids.item, ids.order)] else items0)
      && if !txnInsertOk || HasKey(txns0, TxnKey, ids.txn) then
           // the transaction insert fails: 500 with the order left in place
           r.status == 500 && txns == txns0
         else if gateway.None? then
           // the gateway call throws: 500 with a pending transaction left in place
           r.status == 500 && txns == txns0 + [t]
         else
           // the gateway's answer is attached when that write succeeds; 200 either way
           && r.status == 200
           && r.paymentSessionId == Some(gateway.value.paymentSessionId)
           && r.order == Some(o) && r.transaction == Some(t)
           && txns == txns0 + [if txnUpdateOk then WithGatewayOrder(t, gateway.value) else t]
  }

  method RecordPaymentOrder(
    db: Db, req: CreateOrderRequest, user: User, ctx: RequestContext, ids: FreshIds,
    orderInsertOk: bool, itemInsertOk: bool, txnInsertOk: bool, txnUpdateOk: bool,
    gateway: Option<GatewayOrder>)
    returns (r: CreateOrderResponse)
    requires db.Valid() && user.id == req.userId
    modifies db`orders, db`orderItems, db`transactions
    ensures db.Valid()
    ensures RecordedPaymentOrder(old(db.orders), old(db.orderItems), old(db.transactions), db.orders, db.orderItems, db.transactions,
      r, req, ctx, ids, orderInsertOk, itemInsertOk, txnInsertOk, txnUpdateOk, gateway)
    ensures r.status == 200 ==> gateway.Some? && r.gatewayRequest.Some? && r.gatewayRequest.value.orderId == req.orderRef
    // a 200 sent the body built from `user`, and echoes its return URL
    ensures r.status == 200 ==>
      r.gatewayRequest == Some(BuildGatewayRequest(req, user, ctx)) && r.returnUrl == Some(r.gatewayRequest.value.returnUrl)
  {
    // 3. the order
    var order := NewPaymentOrder(req, ids.order, ctx);
    if !orderInsertOk || HasKey(db.orders, OrderKey, order.id) {
      return CreateOrderResponse(500, None, None, None, None, None);
    }
    AppendKeepsDistinct(db.orders, OrderKey, order);
    db.orders := db.orders + [order];

    // 4. the order item; a failure is only logged
    var item := NewPaymentItem(req, ids.item, order.id);
    if itemInsertOk && !HasKey(db.orderItems, ItemKey, item.id) {
      AppendKeepsDistinct(db.orderItems, ItemKey, item);
      db.orderItems := db.orderItems + [item];
    }

    // 5. the transaction
    var txn := NewPaymentTxn(ids.txn, order.id, req.amount, ctx.now);
    if !txnInsertOk || HasKey(db.transactions, TxnKey, txn.id) {
      return CreateOrderResponse(500, None, None, None, None, None);
    }
    AppendKeepsDistinct(db.transactions, TxnKey, txn);
    var before := db.transactions;
    db.transactions := db.transactions + [txn];

    // 6. the gateway order; a throw lands in the catch block
    var gatewayRequest := BuildGatewayRequest(req, user, ctx);
    if gateway.None? {
      return CreateOrderResponse(500, Some(gatewayRequest), None, None, None, None);
    }

    // 7. attach the gateway's answer; the result of this write is not checked
    if txnUpdateOk {
      AttachToLast(before, txn, gateway.value);
      AppendKeepsDistinct(before, TxnKey, WithGatewayOrder(txn, gateway.value));
      db.transactions := AttachGatewayOrder(db.transactions, txn.id, gateway.value);
    }
    r := CreateOrderResponse(200, Some(gatewayRequest), Some(gateway.value.paymentSessionId),
                             Some(gatewayRequest.returnUrl), Some(order), Some(txn));
  }

  // ---------------------------------------------------------------------
  // GET /verify/:orderId

  datatype VerifyResponse = VerifyResponse(
    status: int, transactionStatus: Option<TxnStatus>, gateway: Option<GatewayOrder>, transaction: Option<Transaction>)

  method Verify(db: Db, orderRef: string, gateway: Option<GatewayOrder>, txnWriteOk: bool, orderWriteOk: bool, now: nat)
    returns (r: VerifyResponse)
    requires db.Valid()
    modifies db`transactions, db`orders
    ensures db.Valid()
    ensures orderRef == "" ==> r.status == 400 && unchanged(db)
    ensures orderRef != "" && gateway.None? ==> r.status == 500 && unchanged(db)
    // 404 and no write unless exactly one transaction carries the reference
    ensures orderRef != "" && gateway.Some? && Single(old(db.transactions), TxnRef, Some(orderRef)).None? ==>
      r.status == 404 && unchanged(db)
    // otherwise the mapped triple overwrites whatever was stored, terminal or not
    ensures orderRef != "" && gateway.Some? && Single(old(db.transactions), TxnRef, Some(orderRef)).Some? ==>
      var t := old(db.transactions)[Single(old(db.transactions), TxnRef, Some(orderRef)).value];
      var m := MapGatewayStatus(gateway.value.orderStatus, gateway.value.paymentStatus);
      && db.transactions == (if txnWriteOk then SetTxnOutcome(old(db.transactions), t.id, m.txn, OrderPayload(gateway.value), now)
                             else old(db.transactions))
      && (HasKey(old(db.orders), OrderKey, t.orderId) ==>
            && r.status == 200 && r.transactionStatus == Some(m.txn) && r.gateway == gateway
            // the rewritten row, or null when its write failed
            && r.transaction == (if txnWriteOk then Some(t.(status := m.txn, gatewayResponse := Some(OrderPayload(gateway.value)), updatedAt := now))
                                 else None)
            && db.orders == (if orderWriteOk then SetOrderOutcome(old(db.orders), t.orderId, m.order, m.payment, now)
                             else old(db.orders)))
      // no linked order: `transaction.orders.id` throws after the transaction write
      && (!HasKey(old(db.orders), OrderKey, t.orderId) ==> r.status == 500 && db.orders == old(db.orders))
  {
    if orderRef == "" {
      return VerifyResponse(400, None, None, None);
    }
    // 1. the gateway's view of the order
    if gateway.None? {
      return VerifyResponse(500, None, None, None);
    }
    var g := gateway.value;
    // 2. the transaction whose stored gateway response names this order
    var found := Single(db.transactions, TxnRef, Some(orderRef));
    if found.None? {
      return VerifyResponse(404, None, None, None);
    }
    var t := db.transactions[found.value];
    // 3. the mapping
    var m := MapGatewayStatus(g.orderStatus, g.paymentStatus);
    // 4. the transaction write; a failure is only logged
    var updated: Option<Transaction> := None;
    if txnWriteOk {
      db.transactions := SetTxnOutcome(db.transactions, t.id, m.txn, OrderPayload(g), now);
      updated := Some(t.(status := m.txn, gatewayResponse := Some(OrderPayload(g)), updatedAt := now));
    }
    // 5. the order write, through the joined order row
    if !HasKey(db.orders, OrderKey, t.orderId) {
      return VerifyResponse(500, None, None, None);
    }
    if orderWriteOk {
      db.orders := SetOrderOutcome(db.orders, t.orderId, m.order, m.payment, now);
    }
    r := VerifyResponse(200, Some(m.txn), gateway, updated);
  }

  // ---------------------------------------------------------------------
  // POST /webhook

  datatype WebhookKind = SuccessEvent | FailedEvent | DroppedEvent | Unhandled

  /** The `switch (type)` of the webhook route. */
  function ClassifyWebhook(tag: string): (k: WebhookKind)
    ensures k == SuccessEvent <==> tag == "PAYMENT_SUCCESS_WEBHOOK"
    ensures k == FailedEvent <==> tag == "PAYMENT_FAILED_WEBHOOK"
    ensures k == DroppedEvent <==> tag == "PAYMENT_USER_DROPPED_WEBHOOK"
  {
    if tag == "PAYMENT_SUCCESS_WEBHOOK" then SuccessEvent
    else if tag == "PAYMENT_FAILED_WEBHOOK" then FailedEvent
    else if tag == "PAYMENT_USER_DROPPED_WEBHOOK" then DroppedEvent
    else Unhandled
  }

  datatype WebhookEvent = WebhookEvent(tag: string, data: Option<WebhookData>)

  /** `data.order.order_id`; None when `data` or `data.order` is missing, where the
      handlers throw before writing anything. */
  function WebhookRef(data: Option<WebhookData>): Option<string> {
    if data.Some? && data.value.order.Some? then Some(data.value.order.value.orderId) else None
  }

  lemma MarkKeepsKeys(txns: seq<Transaction>, ref: string, st: TxnStatus, data: WebhookData, now: nat)
    requires DistinctKeys(txns, TxnKey)
    ensures DistinctKeys(MarkTxnsByRef(txns, ref, st, data, now), TxnKey)
  {
    var r := MarkTxnsByRef(txns, ref, st, data, now);
    assert forall i :: 0 <= i < |txns| ==> TxnKey(r[i]) == TxnKey(txns[i]);
  }

  method HandlePaymentSuccess(db: Db, data: Option<WebhookData>, txnWriteOk: bool, orderWriteOk: bool, now: nat)
    returns (threw: bool)
    requires db.Valid()
    modifies db`transactions, db`orders
    ensures db.Valid()
    ensures threw <==> WebhookRef(data).None?
    ensures threw ==> unchanged(db)
    ensures !threw ==>
      && db.transactions == (if txnWriteOk then MarkTxnsByRef(old(db.transactions), WebhookRef(data).value, TxnSuccess, data.value, now)
                             else old(db.transactions))
      && db.orders == (if orderWriteOk then SetOrderOutcome(old(db.orders), WebhookRef(data).value, Confirmed, Paid, now)
                       else old(db.orders))
  {
    var ref := WebhookRef(data);
    if ref.None? { return true; }
    if txnWriteOk {
      MarkKeepsKeys(db.transactions, ref.value, TxnSuccess, data.value, now);
      db.transactions := MarkTxnsByRef(db.transactions, ref.value, TxnSuccess, data.value, now);
    }
    if orderWriteOk {
      db.orders := SetOrderOutcome(db.orders, ref.value, Confirmed, Paid, now);
    }
    return false;
  }

  method HandlePaymentFailure(db: Db, data: Option<WebhookData>, txnWriteOk: bool, orderWriteOk: bool, now: nat)
    returns (threw: bool)
    requires db.Valid()
    modifies db`transactions, db`orders
    ensures db.Valid()
    ensures threw <==> WebhookRef(data).None?
    ensures threw ==> unchanged(db)
    ensures !threw ==>
      && db.transactions == (if txnWriteOk then MarkTxnsByRef(old(db.transactions), WebhookRef(data).value, TxnFailed, data.value, now)
                             else old(db.transactions))
      && db.orders == (if orderWriteOk then SetOrderOutcome(old(db.orders), WebhookRef(data).value, Cancelled, PaymentFailed, now)
                       else old(db.orders))
  {
    var ref := WebhookRef(data);
    if ref.None? { return true; }
    if txnWriteOk {
      MarkKeepsKeys(db.transactions, ref.value, TxnFailed, data.value, now);
      db.transactions := MarkTxnsByRef(db.transactions, ref.value, TxnFailed, data.value, now);
    }
    if orderWriteOk {
      db.orders := SetOrderOutcome(db.orders, ref.value, Cancelled, PaymentFailed, now);
    }
    return false;
  }

  /** The dropped handler writes transactions only. */
  method HandlePaymentDropped(db: Db, data: Option<WebhookData>, txnWriteOk: bool, now: nat)
    returns (threw: bool)
    requires db.Valid()
    modifies db`transactions
    ensures db.Valid()
    ensures threw <==> WebhookRef(data).None?
    ensures threw ==> unchanged(db)
    ensures !threw ==>
      db.transactions == (if txnWriteOk then MarkTxnsByRef(old(db.transactions), WebhookRef(data).value, TxnCancelled, data.value, now)
                          else old(db.transactions))
  {
    var ref := WebhookRef(data);
    if ref.None? { return true; }
    if txnWriteOk {
      MarkKeepsKeys(db.transactions, ref.value, TxnCancelled, data.value, now);
      db.transactions := MarkTxnsByRef(db.transactions, ref.value, TxnCancelled, data.value, now);
    }
    return false;
  }

  datatype WebhookAck = WebhookAck(status: int, success: bool)

  method Webhook(db: Db, event: WebhookEvent, txnWriteOk: bool, orderWriteOk: bool, now: nat)
    returns (r: WebhookAck)
    requires db.Valid()
    modifies db`transactions, db`orders
    ensures db.Valid()
    // always acknowledged; `success` is false only when a handler threw
    ensures r.status == 200
    ensures r.success <==> ClassifyWebhook(event.tag) == Unhandled || WebhookRef(event.data).Some?
    ensures ClassifyWebhook(event.tag) == Unhandled || WebhookRef(event.data).None? ==> unchanged(db)
    ensures ClassifyWebhook(event.tag) != Unhandled && WebhookRef(event.data).Some? ==>
      var ref := WebhookRef(event.data).value;
      var k := ClassifyWebhook(event.tag);
      var st := if k == SuccessEvent then TxnSuccess else if k == FailedEvent then TxnFailed else TxnCancelled;
      && db.transactions == (if txnWriteOk then MarkTxnsByRef(old(db.transactions), ref, st, event.data.value, now)
                             else old(db.transactions))
      && db.orders == (if k == DroppedEvent || !orderWriteOk then old(db.orders)
                       else if k == SuccessEvent then SetOrderOutcome(old(db.orders), ref, Confirmed, Paid, now)
                       else SetOrderOutcome(old(db.orders), ref, Cancelled, PaymentFailed, now))
  {
    var threw := false;
    match ClassifyWebhook(event.tag) {
      case SuccessEvent => threw := HandlePaymentSuccess(db, event.data, txnWriteOk, orderWriteOk, now);
      case FailedEvent => threw := HandlePaymentFailure(db, event.data, txnWriteOk, orderWriteOk, now);
      case DroppedEvent => threw := HandlePaymentDropped(db, event.data, txnWriteOk, now);
      case Unhandled =>
    }
    r := WebhookAck(200, !threw);
  }

  // ---------------------------------------------------------------------
  // What the handlers imply for later calls

  /** A webhook replaces the stored gateway response by its nested data, which has no
      top-level order_id: afterwards no transaction answers a lookup by that reference,
      so a later verify of the same reference returns 404. */
  lemma {:induction false} WebhookHidesFromVerify(txns: seq<Transaction>, ref: string, st: TxnStatus, data: WebhookData, now: nat)
    ensures !HasKey(MarkTxnsByRef(txns, ref, st, data, now), TxnRef, Some(ref))
    ensures Single(MarkTxnsByRef(txns, ref, st, data, now), TxnRef, Some(ref)).None?
  {
    var r := MarkTxnsByRef(txns, ref, st, data, now);
    forall i | 0 <= i < |r| ensures TxnRef(r[i]) != Some(ref) {
      if TxnRef(txns[i]) == Some(ref) {
        assert r[i].gatewayResponse == Some(WebhookPayload(data));
      } else {
        assert r[i] == txns[i];
      }
    }
  }

  /** The webhook's order write matches orders by their internal id, so it changes an
      order exactly when that order's id equals the gateway reference. */
  lemma OrderWriteTargetsInternalId(orders: seq<Order>, ref: string, os: OrderStatus, ps: PaymentStatus, now: nat, i: nat)
    requires i < |orders|
    ensures |SetOrderOutcome(orders, ref, os, ps, now)| == |orders|
    ensures orders[i].id != ref ==> SetOrderOutcome(orders, ref, os, ps, now)[i] == orders[i]
    ensures orders[i].id == ref ==> (SetOrderOutcome(orders, ref, os, ps, now)[i].status == os
      && SetOrderOutcome(orders, ref, os, ps, now)[i].paymentStatus == ps)
  {
  }

  /** A success webhook for a payment created with a caller-chosen reference different
      from the order's internal id marks the transaction successful but leaves its
      pending order as it was: the stored pair is then inconsistent. */
  lemma SuccessWebhookMissesLinkedOrder(
    orders: seq<Order>, txns: seq<Transaction>, data: WebhookData, now: nat, oi: nat, ti: nat)
    requires oi < |orders| && ti < |txns| && data.order.Some?
    requires txns[ti].orderId == orders[oi].id && orders[oi].status == OrderPending
    requires TxnRef(txns[ti]) == Some(data.order.value.orderId) && data.order.value.orderId != orders[oi].id
    ensures var ref := data.order.value.orderId;
      && MarkTxnsByRef(txns, ref, TxnSuccess, data, now)[ti].status == TxnSuccess
      && SetOrderOutcome(orders, ref, Confirmed, Paid, now)[oi].status == OrderPending
  {
  }

  /** Verify writes the mapped triple whatever was stored before: a transaction that
      had succeeded returns to pending when the gateway reports a non-terminal status. */
  lemma VerifyRevertsTerminalStatus(txns: seq<Transaction>, i: nat, g: GatewayOrder, now: nat)
    requires i < |txns| && txns[i].status == TxnSuccess
    requires g.orderStatus == "ACTIVE" && g.paymentStatus == "PENDING"
    ensures SetTxnOutcome(txns, txns[i].id, MapGatewayStatus(g.orderStatus, g.paymentStatus).txn, OrderPayload(g), now)[i].status
      == TxnPending
  {
  }

  /** Verify's transaction write changes the row it found and no other: ids are unique. */
  lemma VerifyTouchesOnlyFoundRow(txns: seq<Transaction>, i: nat, st: TxnStatus, payload: GatewayPayload, now: nat)
    requires DistinctKeys(txns, TxnKey) && i < |txns|
    ensures |SetTxnOutcome(txns, txns[i].id, st, payload, now)| == |txns|
    ensures SetTxnOutcome(txns, txns[i].id, st, payload, now)[i]
      == txns[i].(status := st, gatewayResponse := Some(payload), updatedAt := now)
    ensures forall j :: 0 <= j < |txns| && j != i ==> SetTxnOutcome(txns, txns[i].id, st, payload, now)[j] == txns[j]
  {
    forall j | 0 <= j < |txns| && j != i ensures SetTxnOutcome(txns, txns[i].id, st, payload, now)[j] == txns[j] {
      if j < i { assert TxnKey(txns[j]) != TxnKey(txns[i]); } else { assert TxnKey(txns[i]) != TxnKey(txns[j]); }
    }
  }

  /** When both verify writes succeed, the transaction and its order hold a consistent pair. */
  lemma VerifyWritesConsistentPair(
    orders: seq<Order>, txns: seq<Transaction>, ti: nat, oi: nat, g: GatewayOrder, now: nat)
    requires ti < |txns| && oi < |orders| && orders[oi].id == txns[ti].orderId
    ensures var m := MapGatewayStatus(g.orderStatus, g.paymentStatus);
      var t' := SetTxnOutcome(txns, txns[ti].id, m.txn, OrderPayload(g), now)[ti];
      var o' := SetOrderOutcome(orders, txns[ti].orderId, m.order, m.payment, now)[oi];
      Consistent(StatusTriple(t'.status, o'.status, o'.paymentStatus))
  {
  }
}
