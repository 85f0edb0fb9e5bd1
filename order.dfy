/** The booking routes: creating a booking (an order row and its one item) for an
    active service, listing a user's bookings newest first with their items,
    address and transactions embedded, and one booking's details. */
module OrderRoutes {
  import opened Wrappers
  import opened Strings
  import opened Table
  import opened Sorting
  import opened Records
  import opened Store

  // ---------------------------------------------------------------------
  // scheduledTime: /^([0-1]?[0-9]|2[0-3]):[0-5][0-9]$/

  /** The hour group `[0-1]?[0-9]|2[0-3]`. */
  predicate HourMatches(h: string) {
    || (|h| == 1 && IsDecimalDigit(h[0]))
    || (|h| == 2 && '0' <= h[0] <= '1' && IsDecimalDigit(h[1]))
    || (|h| == 2 && h[0] == '2' && '0' <= h[1] <= '3')
  }

  /** The whole pattern: since the minutes are exactly two characters, the hour
      group is everything before the third character from the end. */
  predicate MatchesTime(s: string) {
    && |s| >= 4
    && HourMatches(s[..|s| - 3])
    && s[|s| - 3] == ':'
    && '0' <= s[|s| - 2] <= '5' && IsDecimalDigit(s[|s| - 1])
  }

  /** The clock time h:m written with a two-digit hour, or with a one-digit hour
      when `padded` is false and h < 10. */
  function ClockText(h: nat, m: nat, padded: bool): string
    requires h < 24 && m < 60
  {
    (if padded || h >= 10 then Pad2(h) else [DigitChar(h)]) + ":" + Pad2(m)
  }

  /** Value of the hour group of a matching string. */
  function HourOf(s: string): (h: nat)
    requires MatchesTime(s)
    ensures h < 24
  {
    if |s| == 4 then DigitValue(s[0]) else DigitValue(s[0]) * 10 + DigitValue(s[1])
  }

  function MinuteOf(s: string): (m: nat)
    requires MatchesTime(s)
    ensures m < 60
  {
    DigitValue(s[|s| - 2]) * 10 + DigitValue(s[|s| - 1])
  }

  /** Every clock time from 0:00 to 23:59 is accepted, with or without the
      leading zero of the hour. */
  lemma TimePatternAcceptsClockTimes(h: nat, m: nat, padded: bool)
    requires h < 24 && m < 60
    ensures MatchesTime(ClockText(h, m, padded))
  {
    var s := ClockText(h, m, padded);
    var hp := if padded || h >= 10 then Pad2(h) else [DigitChar(h)];
    assert s[..|s| - 3] == hp;
  }

  /** Whatever is accepted is such a clock time. */
  lemma TimePatternOnlyClockTimes(s: string)
    requires MatchesTime(s)
    ensures s == ClockText(HourOf(s), MinuteOf(s), |s| == 5)
  {
    var h, m := HourOf(s), MinuteOf(s);
    var t := ClockText(h, m, |s| == 5);
    var hp := if |s| == 5 || h >= 10 then Pad2(h) else [DigitChar(h)];
    assert |hp| == |s| - 3;
    assert s[..|s| - 3] == hp by {
      if |s| == 5 {
        assert DigitValue(hp[0]) == DigitValue(s[0]) && DigitValue(hp[1]) == DigitValue(s[1]);
        DigitValueInjective(hp[0], s[0]);
        DigitValueInjective(hp[1], s[1]);
      } else {
        DigitValueInjective(hp[0], s[0]);
      }
    }
    var mp := Pad2(m);
    DigitValueInjective(mp[0], s[|s| - 2]);
    DigitValueInjective(mp[1], s[|s| - 1]);
    assert s == s[..|s| - 3] + [':'] + [s[|s| - 2], s[|s| - 1]];
  }

  lemma DigitValueInjective(a: char, b: char)
    requires IsDecimalDigit(a) && IsDecimalDigit(b) && DigitValue(a) == DigitValue(b)
    ensures a == b
  {
  }

  /** Hour 24 and a one-digit minute are refused; a one-digit hour is not. */
  lemma TimePatternExamples()
    ensures !MatchesTime("24:00") && !MatchesTime("9:5") && !MatchesTime("12:60")
    ensures MatchesTime("9:05") && MatchesTime("09:05") && MatchesTime("23:59")
  {
    assert "24:00"[..2] == "24";
    assert "9:5"[..0] == "";
    assert "9:05"[..1] == "9";
    assert "09:05"[..2] == "09";
    assert "23:59"[..2] == "23";
  }

  // ---------------------------------------------------------------------
  // POST /api/orders

  datatype BookingRequest = BookingRequest(
    userId: Id, serviceId: Id, addressId: Option<Id>, scheduledDate: string, scheduledTime: string,
    notes: Option<string>)

  /** The order row, priced from the service: no discount, both statuses pending,
      notes '' when absent. */
  function NewBooking(req: BookingRequest, id: Id, price: int, now: nat): (o: Order)
    ensures o.id == id && o.userId == req.userId
    ensures o.subtotal == o.totalAmount == price && o.discountAmount == 0
    ensures o.totalAmount == o.subtotal - o.discountAmount
    ensures o.status == OrderPending && o.paymentStatus == PaymentPending
    ensures o.addressId.Some? <==> Truthy(req.addressId)
    ensures o.notes == Some(if Truthy(req.notes) then req.notes.value else "")
  {
    Order(id, req.userId, if Truthy(req.addressId) then req.addressId else None,
          OrderPending, PaymentPending, price, 0, price, req.scheduledDate, req.scheduledTime,
          Some(OrElse(req.notes, "")), now, now)
  }

  /** The one item of a booking: quantity 1 at the service's price. */
  function NewBookingItem(id: Id, orderId: Id, serviceId: Id, price: int): (i: OrderItem)
    ensures i.id == id && i.orderId == orderId && i.serviceId == serviceId
    ensures i.quantity == 1 && i.unitPrice == price && i.totalPrice == i.quantity * i.unitPrice
  {
    OrderItem(id, orderId, serviceId, 1, price, price)
  }

  /** The first failing check, in the order the handler runs them. */
  datatype Refusal = InvalidBody | UnknownUser | UnknownService | ForeignAddress

  function RefusalOf(users: seq<User>, services: seq<Service>, addresses: seq<Address>,
                     req: BookingRequest, validatorsOk: bool): (r: Option<Refusal>)
    ensures r == Some(InvalidBody) <==> !(validatorsOk && MatchesTime(req.scheduledTime))
    ensures r.None? ==> Single(users, UserKey, req.userId).Some?
    ensures r.None? ==> Single(services, ServiceKeyActive, (req.serviceId, true)).Some?
    ensures r.None? && Truthy(req.addressId) ==> Single(addresses, AddressKeyOwner, (req.addressId.value, req.userId)).Some?
    ensures r == Some(UnknownUser) <==> validatorsOk && MatchesTime(req.scheduledTime) && Single(users, UserKey, req.userId).None?
    ensures r == Some(UnknownService) <==>
      && validatorsOk && MatchesTime(req.scheduledTime) && Single(users, UserKey, req.userId).Some?
      && Single(services, ServiceKeyActive, (req.serviceId, true)).None?
    ensures r.None? <==>
      && validatorsOk && MatchesTime(req.scheduledTime) && Single(users, UserKey, req.userId).Some?
      && Single(services, ServiceKeyActive, (req.serviceId, true)).Some?
      && (Truthy(req.addressId) ==> Single(addresses, AddressKeyOwner, (req.addressId.value, req.userId)).Some?)
  {
    if !(validatorsOk && MatchesTime(req.scheduledTime)) then Some(InvalidBody)
    else if Single(users, UserKey, req.userId).None? then Some(UnknownUser)
    else if Single(services, ServiceKeyActive, (req.serviceId, true)).None? then Some(UnknownService)
    else if Truthy(req.addressId) && Single(addresses, AddressKeyOwner, (req.addressId.value, req.userId)).None? then Some(ForeignAddress)
    else None
  }

  datatype BookingReply = BookingReply(status: int, message: string, order: Option<Order>)

  /** The reply to a refused request. */
  function RefusalReply(f: Refusal): (r: BookingReply)
    ensures f == InvalidBody <==> r.status == 400
    ensures f != InvalidBody <==> r.status == 404
  {
    match f
    case InvalidBody => BookingReply(400, "Validation failed", None)
    case UnknownUser => BookingReply(404, "User not found", None)
    case UnknownService => BookingReply(404, "Service not found or inactive", None)
    case ForeignAddress => BookingReply(404, "Address not found or does not belong to user", None)
  }

  /** POST /api/orders. `validatorsOk` stands for the UUID, date and notes validators. */
  method CreateBooking(db: Db, req: BookingRequest, validatorsOk: bool, orderId: Id, itemId: Id, now: nat,
                       orderInsertOk: bool, itemInsertOk: bool)
    returns (r: BookingReply)
    requires db.Valid()
    modifies db`orders, db`orderItems
    ensures db.Valid()
    ensures RefusalOf(db.users, db.services, db.addresses, req, validatorsOk).Some? ==>
      && r == RefusalReply(RefusalOf(db.users, db.services, db.addresses, req, validatorsOk).value)
      && unchanged(db)
    ensures RefusalOf(db.users, db.services, db.addresses, req, validatorsOk).None? ==>
      var price := db.services[Single(db.services, ServiceKeyActive, (req.serviceId, true)).value].price;
      var o := NewBooking(req, orderId, price, now);
      if !orderInsertOk || HasKey(old(db.orders), OrderKey, orderId) then
        r.status == 500 && unchanged(db)
      else if !itemInsertOk || HasKey(old(db.orderItems), ItemKey, itemId) then
        // the order row stays without its item
        && r.status == 500 && r.message == "Failed to create order item"
        && db.orders == old(db.orders) + [o] && db.orderItems == old(db.orderItems)
      else
        && r.status == 201 && r.order == Some(o)
        && db.orders == old(db.orders) + [o]
        && db.orderItems == old(db.orderItems) + [NewBookingItem(itemId, orderId, req.serviceId, price)]
  {
    var refusal := RefusalOf(db.users, db.services, db.addresses, req, validatorsOk);
    if refusal.Some? {
      return RefusalReply(refusal.value);
    }
    var service := db.services[Single(db.services, ServiceKeyActive, (req.serviceId, true)).value];
    var order := NewBooking(req, orderId, service.price, now);
    if !orderInsertOk || HasKey(db.orders, OrderKey, orderId) {
      return BookingReply(500, "Failed to create order", None);
    }
    AppendKeepsDistinct(db.orders, OrderKey, order);
    db.orders := db.orders + [order];
    if !itemInsertOk || HasKey(db.orderItems, ItemKey, itemId) {
      return BookingReply(500, "Failed to create order item", None);
    }
    var item := NewBookingItem(itemId, order.id, req.serviceId, service.price);
    AppendKeepsDistinct(db.orderItems, ItemKey, item);
    db.orderItems := db.orderItems + [item];
    r := BookingReply(201, "Order created successfully", Some(order));
  }

  /** Sum of the total prices of some items. */
  function ItemsTotal(items: seq<OrderItem>): int
    decreases |items|
  {
    if |items| == 0 then 0 else ItemsTotal(items[..|items| - 1]) + items[|items| - 1].totalPrice
  }

  /** A booking made from an active service is priced at that service's price: its
      total is the total of its items, which is the one item just inserted. */
  lemma {:induction false} BookingTotalIsItemTotal(items: seq<OrderItem>, req: BookingRequest, orderId: Id, itemId: Id, price: int, now: nat)
    requires !HasKey(items, ItemOrder, orderId)
    ensures var all := items + [NewBookingItem(itemId, orderId, req.serviceId, price)];
      NewBooking(req, orderId, price, now).totalAmount == ItemsTotal(Where(all, ItemOrder, orderId))
  {
    var item := NewBookingItem(itemId, orderId, req.serviceId, price);
    var all := items + [item];
    WhereEmpty(items, ItemOrder, orderId);
    WhereAppend(items, ItemOrder, orderId, item);
    var w := Where(all, ItemOrder, orderId);
    assert w == [] + [item];
    assert w[..0] == [];
    assert ItemsTotal(w) == item.totalPrice;
  }

  // ---------------------------------------------------------------------
  // GET /api/orders/:userId and GET /api/orders/details/:orderId

  /** The row a to-one embed finds by its key column, if any. */
  function Embed<T, K(==)>(s: seq<T>, key: T -> K, v: K): (r: Option<T>)
    ensures r.Some? ==> r.value in s && key(r.value) == v
    ensures r.None? ==> !HasKey(s, key, v)
  {
    match FirstMatch(s, key, v)
    case Some(i) => Some(s[i])
    case None => None
  }

  datatype ItemView = ItemView(id: Id, serviceId: Id, quantity: int, unitPrice: int, totalPrice: int, service: Option<Service>)

  /** An item with its service embedded. */
  function ViewItem(services: seq<Service>, i: OrderItem): (v: ItemView)
    ensures v.id == i.id && v.serviceId == i.serviceId
    ensures v.quantity == i.quantity && v.unitPrice == i.unitPrice && v.totalPrice == i.totalPrice
    ensures v.service.Some? ==> v.service.value in services && v.service.value.id == i.serviceId
    ensures v.service.None? <==> !HasKey(services, ServiceKey, i.serviceId)
  {
    ItemView(i.id, i.serviceId, i.quantity, i.unitPrice, i.totalPrice, Embed(services, ServiceKey, i.serviceId))
  }

  /** The tables an order embeds. */
  datatype Related = Related(services: seq<Service>, addresses: seq<Address>, items: seq<OrderItem>, transactions: seq<Transaction>)

  datatype OrderView = OrderView(
    id: Id, status: OrderStatus, paymentStatus: PaymentStatus, subtotal: int, discountAmount: int,
    totalAmount: int, scheduledDate: string, scheduledTime: string, notes: Option<string>,
    createdAt: nat, updatedAt: nat, address: Option<Address>, items: seq<ItemView>, transactions: seq<Transaction>)

  function ViewItems(services: seq<Service>, items: seq<OrderItem>): (r: seq<ItemView>)
    ensures |r| == |items| && forall k :: 0 <= k < |r| ==> r[k] == ViewItem(services, items[k])
  {
    seq(|items|, k requires 0 <= k < |items| => ViewItem(services, items[k]))
  }

  /** The frontend's shape of an order: its own columns, the address it names,
      its items (each with its service) and its transactions. */
  function ViewOrder(rel: Related, o: Order): (v: OrderView)
    ensures v.id == o.id && v.status == o.status && v.paymentStatus == o.paymentStatus
    ensures v.subtotal == o.subtotal && v.discountAmount == o.discountAmount && v.totalAmount == o.totalAmount
    ensures v.scheduledDate == o.scheduledDate && v.scheduledTime == o.scheduledTime && v.notes == o.notes
    ensures v.createdAt == o.createdAt && v.updatedAt == o.updatedAt
    // the address it names is embedded exactly when such a row exists
    ensures v.address.Some? ==> v.address.value in rel.addresses && o.addressId == Some(v.address.value.id)
    ensures v.address.None? <==> o.addressId.None? || !HasKey(rel.addresses, AddressKey, o.addressId.value)
    ensures forall t :: t in v.transactions <==> t in rel.transactions && t.orderId == o.id
    ensures |v.items| == |Where(rel.items, ItemOrder, o.id)|
    ensures forall k :: 0 <= k < |v.items| ==> v.items[k].id == Where(rel.items, ItemOrder, o.id)[k].id
  {
    var address := if o.addressId.Some? then Embed(rel.addresses, AddressKey, o.addressId.value) else None;
    OrderView(o.id, o.status, o.paymentStatus, o.subtotal, o.discountAmount, o.totalAmount,
              o.scheduledDate, o.scheduledTime, o.notes, o.createdAt, o.updatedAt, address,
              ViewItems(rel.services, Where(rel.items, ItemOrder, o.id)),
              Where(rel.transactions, TxnOrder, o.id))
  }

  /** `.order('created_at', { ascending: false })`. */
  predicate NewestFirst(a: Order, b: Order) {
    a.createdAt >= b.createdAt
  }

  lemma NewestFirstIsTotalPreorder()
    ensures TotalPreorder(NewestFirst)
  {
  }

  datatype OrdersReply = OrdersReply(status: int, orders: seq<OrderView>, count: int)

  /** The user's orders, newest first. */
  function UserOrders(orders: seq<Order>, userId: Id): (r: seq<Order>)
    ensures SortedBy(r, NewestFirst)
    ensures multiset(r) == multiset(Where(orders, OrderOwner, userId))
  {
    NewestFirstIsTotalPreorder();
    SortBy(Where(orders, OrderOwner, userId), NewestFirst)
  }

  /** GET /api/orders/:userId. */
  function ListOrders(orders: seq<Order>, rel: Related, userId: Id, idIsUuid: bool): (r: OrdersReply)
    ensures !idIsUuid ==> r.status == 400
    ensures idIsUuid ==> r.status == 200 && r.count == |r.orders| == |UserOrders(orders, userId)|
  {
    if !idIsUuid then OrdersReply(400, [], 0)
    else
      var rows := UserOrders(orders, userId);
      var views := seq(|rows|, k requires 0 <= k < |rows| => ViewOrder(rel, rows[k]));
      OrdersReply(200, views, |views|)
  }

  /** The rows listed are the user's orders. */
  lemma UserOrdersAreTheUsers(orders: seq<Order>, userId: Id)
    ensures forall o :: o in UserOrders(orders, userId) <==> o in orders && o.userId == userId
  {
    var rows := UserOrders(orders, userId);
    var w := Where(orders, OrderOwner, userId);
    forall o ensures o in rows <==> o in orders && o.userId == userId {
      assert o in rows <==> o in multiset(rows);
      assert o in w <==> o in multiset(w);
    }
  }

  /** The list shows exactly the user's orders. */
  lemma {:induction false} ListedOrdersAreTheUsers(orders: seq<Order>, rel: Related, userId: Id)
    ensures var r := ListOrders(orders, rel, userId, true).orders;
      && (forall o :: o in orders && o.userId == userId ==> ViewOrder(rel, o) in r)
      && (forall v :: v in r ==> exists o :: o in orders && o.userId == userId && v == ViewOrder(rel, o))
  {
    var rows := UserOrders(orders, userId);
    var r := ListOrders(orders, rel, userId, true).orders;
    UserOrdersAreTheUsers(orders, userId);
    forall o | o in orders && o.userId == userId ensures ViewOrder(rel, o) in r {
      var k :| 0 <= k < |rows| && rows[k] == o;
      assert r[k] == ViewOrder(rel, o);
    }
    forall v | v in r ensures exists o :: o in orders && o.userId == userId && v == ViewOrder(rel, o) {
      var k :| 0 <= k < |r| && r[k] == v;
      assert rows[k] in rows;
    }
  }

  /** The list is newest first. */
  lemma ListedOrdersNewestFirst(orders: seq<Order>, rel: Related, userId: Id)
    ensures var r := ListOrders(orders, rel, userId, true).orders;
      forall i, j :: 0 <= i < j < |r| ==> r[i].createdAt >= r[j].createdAt
  {
    var rows := UserOrders(orders, userId);
    var r := ListOrders(orders, rel, userId, true).orders;
    forall i, j | 0 <= i < j < |r| ensures r[i].createdAt >= r[j].createdAt {
      assert NewestFirst(rows[i], rows[j]);
    }
  }

  datatype OrderDetails = OrderDetails(order: Order, user: Option<User>, view: OrderView)

  datatype DetailsReply = DetailsReply(status: int, message: string, details: Option<OrderDetails>)

  /** GET /api/orders/details/:orderId: the order with its user, items, address and
      transactions, whose ownership is not checked. */
  function GetOrderDetails(orders: seq<Order>, users: seq<User>, rel: Related, orderId: Id, idIsUuid: bool): (r: DetailsReply)
    ensures !idIsUuid ==> r.status == 400
    ensures idIsUuid ==> (r.status == 200 <==> Single(orders, OrderKey, orderId).Some?)
    ensures idIsUuid && r.status != 200 ==> r.status == 404 && r.message == "Order not found"
    ensures r.status == 200 ==> (
      && r.details.Some? && r.details.value.order in orders && r.details.value.order.id == orderId
      && r.details.value.view == ViewOrder(rel, r.details.value.order)
      && (r.details.value.user.Some? ==> r.details.value.user.value in users
                                          && r.details.value.user.value.id == r.details.value.order.userId)
      && (r.details.value.user.None? <==> !HasKey(users, UserKey, r.details.value.order.userId)))
  {
    if !idIsUuid then DetailsReply(400, "Validation failed", None)
    else
      match Single(orders, OrderKey, orderId)
      case None => DetailsReply(404, "Order not found", None)
      case Some(k) =>
        var o := orders[k];
        DetailsReply(200, "", Some(OrderDetails(o, Embed(users, UserKey, o.userId), ViewOrder(rel, o))))
  }
}
