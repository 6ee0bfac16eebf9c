/**
 The order store of the order controller (controllers/orderController.js).

 Orders are kept in a sequence in insertion order; the document store's generated `_id`
 is modelled by a counter (`key`). The pure parts of order creation (payment-method
 normalisation, the item snapshot, the checkout line items, the order document itself)
 are functions; `OrderStore` updates its fields in place. The payment gateway, the random
 token of the order id and the clock are parameters of the operations that use them.
 */
module OrderLifecycle {
  import opened Http

  type UserId = string

  datatype PaymentMethod = CashOnDelivery | OnlinePayment

  /** The string an order document stores for its payment method. */
  function MethodLabel(m: PaymentMethod): string
  {
    match m
    case CashOnDelivery => "Cash on Delivery"
    case OnlinePayment => "Online Payment"
  }

  const Paid := "Paid"
  const Unpaid := "Unpaid"
  const Currency := "inr"
  const OrderIdPrefix := "ORD-"
  /** The fulfilment status an order document starts with (the order schema's default). */
  const DefaultStatus := "pending"
  /** The value of the gateway's `payment_status` for a completed payment. */
  const GatewayPaid := "paid"

  const EmptyItemsMessage := "Invalid or empty items array"
  const SessionRequiredMessage := "session_id required"
  const NotPaidMessage := "Payment not completed"
  const OrderNotFoundMessage := "Order not found"
  const OrderDeletedMessage := "Order deleted successfully"

  datatype Customer = Customer(name: string, email: string, address: string)

  /** An entry of the request's `items`; `otherFields` stands for whatever else the client sent. */
  datatype ItemInput = ItemInput(id: string, name: string, price: int, quantity: int, imageUrl: string,
                                 otherFields: map<string, string>)

  /** The snapshot of an item stored in the order. */
  datatype OrderItem = OrderItem(id: string, name: string, price: int, quantity: int, imageUrl: string)

  /** The body of POST /api/orders; `items` is None when it is not an array. */
  datatype OrderRequest = OrderRequest(customer: Option<Customer>, items: Option<seq<ItemInput>>,
                                       paymentMethod: Option<string>, notes: Option<string>,
                                       deliveryDate: Option<string>)

  /** One line item of a checkout session; the amount is in the currency's smallest unit. */
  datatype LineItem = LineItem(currency: string, productName: string, unitAmount: int, quantity: int)

  /** What the order controller asks the gateway for when it creates a checkout session. */
  datatype CheckoutRequest = CheckoutRequest(lineItems: seq<LineItem>, customerEmail: string, orderId: string)

  /** A checkout session the gateway created. */
  datatype Session = Session(id: string, paymentIntent: Option<string>, url: string)

  /** An order document. */
  datatype Order = Order(
    key: nat,                        // `_id`, assigned by the store
    orderId: string,                 // "ORD-" and a fresh token
    user: UserId,
    customer: Option<Customer>,
    items: seq<OrderItem>,
    shipping: int,
    paymentMethod: PaymentMethod,
    paymentStatus: string,
    sessionId: Option<string>,
    paymentIntentId: Option<string>,
    notes: Option<string>,
    deliveryDate: Option<string>,
    status: string,
    createdAt: int)

  /** The reply of a successful createOrder: the order and the gateway's redirect URL, if any. */
  datatype Placement = Placement(order: Order, checkoutUrl: Option<string>)

  /** `paymentMethod === 'COD'`: anything but the exact string "COD" means online payment. */
  function NormalizePaymentMethod(paymentMethod: Option<string>): (m: PaymentMethod)
    ensures m == CashOnDelivery <==> paymentMethod == Some("COD")
    ensures MethodLabel(m) == (if paymentMethod == Some("COD") then "Cash on Delivery" else "Online Payment")
  {
    if paymentMethod == Some("COD") then CashOnDelivery else OnlinePayment
  }

  /** `items.map(...)`: each item's id, name, price, quantity and image, in the same order. */
  function Snapshot(items: seq<ItemInput>): (r: seq<OrderItem>)
    ensures |r| == |items|
    ensures forall k :: 0 <= k < |items| ==>
              && r[k].id == items[k].id && r[k].name == items[k].name
              && r[k].price == items[k].price && r[k].quantity == items[k].quantity
              && r[k].imageUrl == items[k].imageUrl
  {
    if items == [] then []
    else
      var i := items[0];
      [OrderItem(i.id, i.name, i.price, i.quantity, i.imageUrl)] + Snapshot(items[1..])
  }

  /** The session's line items: one per order item, its name and quantity, its price in paise. */
  function CheckoutLines(items: seq<OrderItem>): (r: seq<LineItem>)
    ensures |r| == |items|
    ensures forall k :: 0 <= k < |items| ==>
              && r[k].currency == Currency && r[k].productName == items[k].name
              && r[k].unitAmount == 100 * items[k].price && r[k].quantity == items[k].quantity
  {
    if items == [] then []
    else [LineItem(Currency, items[0].name, items[0].price * 100, items[0].quantity)] + CheckoutLines(items[1..])
  }

  /** The checkout session request of an online order. */
  function CheckoutFor(customer: Customer, items: seq<OrderItem>, orderId: string): CheckoutRequest
  {
    CheckoutRequest(CheckoutLines(items), customer.email, orderId)
  }

  /**
   The order document createOrder saves: without a session for cash on delivery
   (already paid), with the gateway's session for online payment (not yet paid).
   */
  function BuildOrder(key: nat, orderId: string, user: UserId, req: OrderRequest, items: seq<OrderItem>,
                      session: Option<Session>, now: int): (o: Order)
    ensures o.key == key && o.orderId == orderId && o.user == user && o.items == items
    ensures o.customer == req.customer && o.notes == req.notes && o.deliveryDate == req.deliveryDate
    ensures o.shipping == 0 && o.status == DefaultStatus && o.createdAt == now
    ensures o.paymentMethod == CashOnDelivery <==> session.None?
    ensures o.paymentMethod == CashOnDelivery ==> o.paymentStatus == Paid && o.sessionId.None? && o.paymentIntentId.None?
    ensures o.paymentMethod == OnlinePayment ==>
              o.paymentStatus == Unpaid && o.sessionId == Some(session.value.id)
              && o.paymentIntentId == session.value.paymentIntent
  {
    match session
    case None =>
      Order(key, orderId, user, req.customer, items, 0, CashOnDelivery, Paid, None, None,
            req.notes, req.deliveryDate, DefaultStatus, now)
    case Some(s) =>
      Order(key, orderId, user, req.customer, items, 0, OnlinePayment, Unpaid, Some(s.id), s.paymentIntent,
            req.notes, req.deliveryDate, DefaultStatus, now)
  }

  /** How the controller finds an order: by `_id`, or by the stored checkout session id. */
  datatype Lookup = ByKey(key: nat) | BySession(sessionId: string)

  predicate Matches(l: Lookup, o: Order)
  {
    match l
    case ByKey(key) => o.key == key
    case BySession(sid) => o.sessionId == Some(sid)
  }

  /** The index of the first order the lookup matches, or -1 when there is none. */
  function FindOrder(s: seq<Order>, l: Lookup): (k: int)
    ensures -1 <= k < |s|
    ensures k >= 0 ==> Matches(l, s[k]) && forall j :: 0 <= j < k ==> !Matches(l, s[j])
    ensures k < 0 ==> forall o :: o in s ==> !Matches(l, o)
  {
    if s == [] then -1
    else if Matches(l, s[0]) then 0
    else
      var k := FindOrder(s[1..], l);
      if k < 0 then -1 else k + 1
  }

  /** `findOneAndUpdate({ sessionId }, { paymentStatus: 'Paid' })`. */
  function Confirmed(s: seq<Order>, sid: string): seq<Order>
  {
    var k := FindOrder(s, BySession(sid));
    if k >= 0 then s[k := s[k].(paymentStatus := Paid)] else s
  }

  /** The request fields updateOrder copies. */
  const AllowedFields: seq<string> := ["status", "paymentStatus", "deliveryDate", "notes"]

  /** The part of a request body updateOrder keeps: the allow-listed fields that are present. */
  function AllowedPart(body: map<string, string>): map<string, string>
  {
    map f | f in body && f in AllowedFields :: body[f]
  }

  /** The value an allow-listed field has in an order document. */
  function Field(o: Order, f: string): Option<string>
  {
    if f == "status" then Some(o.status)
    else if f == "paymentStatus" then Some(o.paymentStatus)
    else if f == "deliveryDate" then o.deliveryDate
    else if f == "notes" then o.notes
    else None
  }

  /** `findByIdAndUpdate(id, updateData)` on one order: only allow-listed fields change. */
  function Applied(o: Order, data: map<string, string>): (r: Order)
    ensures r.(status := o.status, paymentStatus := o.paymentStatus, deliveryDate := o.deliveryDate, notes := o.notes) == o
    ensures forall f :: f in AllowedFields ==> Field(r, f) == if f in data then Some(data[f]) else Field(o, f)
  {
    o.(status := if "status" in data then data["status"] else o.status,
       paymentStatus := if "paymentStatus" in data then data["paymentStatus"] else o.paymentStatus,
       deliveryDate := if "deliveryDate" in data then Some(data["deliveryDate"]) else o.deliveryDate,
       notes := if "notes" in data then Some(data["notes"]) else o.notes)
  }

  /** `findByIdAndUpdate(id, updateData)` on the collection. */
  function Updated(s: seq<Order>, key: nat, body: map<string, string>): seq<Order>
  {
    var k := FindOrder(s, ByKey(key));
    if k >= 0 then s[k := Applied(s[k], AllowedPart(body))] else s
  }

  /** `findByIdAndDelete(id)` on the collection. */
  function Removed(s: seq<Order>, key: nat): seq<Order>
  {
    var k := FindOrder(s, ByKey(key));
    if k >= 0 then s[..k] + s[k + 1..] else s
  }

  /** The `forEach` over the allow-list that builds `updateData`. */
  method CollectAllowed(body: map<string, string>) returns (data: map<string, string>)
    ensures data == AllowedPart(body)
  {
    data := map[];
    for i := 0 to |AllowedFields|
      invariant data == map f | f in body && f in AllowedFields[..i] :: body[f]
    {
      var f := AllowedFields[i];
      if f in body {
        data := data[f := body[f]];
      }
      assert AllowedFields[..i + 1] == AllowedFields[..i] + [f];
    }
    assert AllowedFields[..|AllowedFields|] == AllowedFields;
  }

  ghost predicate NewestFirstOrder(s: seq<Order>)
  {
    forall i, j :: 0 <= i < j < |s| ==> s[i].createdAt >= s[j].createdAt
  }

  /** An order no older than every order of a newest-first sequence can go in front of it. */
  lemma PrependNewest(x: Order, s: seq<Order>)
    requires NewestFirstOrder(s)
    requires forall y :: y in s ==> y.createdAt <= x.createdAt
    ensures NewestFirstOrder([x] + s)
  {
    var t := [x] + s;
    forall i, j | 0 <= i < j < |t| ensures t[i].createdAt >= t[j].createdAt {
      assert t[j] == s[j - 1] && s[j - 1] in s;
      if i > 0 {
        assert t[i] == s[i - 1];
      }
    }
  }

  /** Every order of `t`, which holds those of `s` and `o`, is no newer than `x` when they all are not. */
  lemma NoneNewer(x: Order, s: seq<Order>, o: Order, t: seq<Order>)
    requires multiset(t) == multiset(s) + multiset{o}
    requires o.createdAt <= x.createdAt && forall y :: y in s ==> y.createdAt <= x.createdAt
    ensures forall y :: y in t ==> y.createdAt <= x.createdAt
  {
    forall y | y in t ensures y.createdAt <= x.createdAt {
      assert y in multiset(t);
      assert y == o || y in multiset(s);
    }
  }

  /** The tail of a newest-first sequence is newest first, and no order in it is newer than the head. */
  lemma TailOfNewestFirst(s: seq<Order>)
    requires NewestFirstOrder(s) && s != []
    ensures NewestFirstOrder(s[1..])
    ensures forall y :: y in s ==> y.createdAt <= s[0].createdAt
    ensures s == [s[0]] + s[1..]
  {
    forall y | y in s ensures y.createdAt <= s[0].createdAt {
      var j :| 0 <= j < |s| && s[j] == y;
    }
  }

  /** Places `o` before the first order that is not newer than it. */
  function InsertByDate(o: Order, s: seq<Order>): (r: seq<Order>)
    requires NewestFirstOrder(s)
    ensures multiset(r) == multiset(s) + multiset{o}
    ensures NewestFirstOrder(r)
  {
    if s == [] then [o]
    else if o.createdAt >= s[0].createdAt then
      TailOfNewestFirst(s);
      PrependNewest(o, s);
      [o] + s
    else
      TailOfNewestFirst(s);
      var rest := InsertByDate(o, s[1..]);
      NoneNewer(s[0], s[1..], o, rest);
      PrependNewest(s[0], rest);
      [s[0]] + rest
  }

  /** `sort({ createdAt: -1 })`: the same orders, most recent first (ties keep store order). */
  function NewestFirst(s: seq<Order>): (r: seq<Order>)
    ensures multiset(r) == multiset(s)
    ensures NewestFirstOrder(r)
  {
    if s == [] then []
    else
      assert s == [s[0]] + s[1..];
      InsertByDate(s[0], NewestFirst(s[1..]))
  }

  /** Order keys are distinct and below the next key; an order has a session exactly when it is paid online. */
  ghost predicate WellFormed(s: seq<Order>, nextKey: nat)
  {
    && (forall i, j :: 0 <= i < j < |s| ==> s[i].key != s[j].key)
    && forall o :: o in s ==> o.key < nextKey && (o.sessionId.Some? <==> o.paymentMethod == OnlinePayment)
  }

  /** The order collection, updated in place by the order routes. */
  class OrderStore {
    var orders: seq<Order>
    var nextKey: nat

    ghost predicate Valid()
      reads this
    {
      WellFormed(orders, nextKey)
    }

    constructor ()
      ensures Valid() && orders == []
    {
      orders := [];
      nextKey := 0;
    }

    /**
     POST /api/orders. Rejects a missing or empty item list; an online order is saved only
     after the gateway has created its checkout session.
     */
    method CreateOrder(user: UserId, req: OrderRequest, token: string, now: int,
                       gateway: CheckoutRequest -> Option<Session>) returns (r: Result<Placement>)
      requires Valid()
      modifies this
      ensures Valid()
      ensures req.items.None? || req.items.value == [] ==> r == Err(BadRequest(EmptyItemsMessage))
      ensures r.Err? ==> orders == old(orders) && nextKey == old(nextKey)
      ensures r.Ok? ==> orders == old(orders) + [r.value.order] && nextKey == old(nextKey) + 1
      ensures r.Ok? ==>
                var o := r.value.order;
                && req.items.Some? && req.items.value != []
                && o.key == old(nextKey) && o.orderId == OrderIdPrefix + token && o.user == user
                && o.customer == req.customer && o.items == Snapshot(req.items.value) && o.shipping == 0
                && o.notes == req.notes && o.deliveryDate == req.deliveryDate
                && o.status == DefaultStatus && o.createdAt == now
                && o.paymentMethod == NormalizePaymentMethod(req.paymentMethod)
      ensures req.items.Some? && req.items.value != [] && NormalizePaymentMethod(req.paymentMethod) == CashOnDelivery ==>
                r.Ok? && r.value.order.paymentIntentId.None?
      ensures r.Ok? && r.value.order.paymentMethod == CashOnDelivery ==>
                && r.value.order.paymentStatus == Paid && r.value.order.sessionId.None?
                && r.value.checkoutUrl.None?
      ensures req.items.Some? && req.items.value != [] && NormalizePaymentMethod(req.paymentMethod) == OnlinePayment ==>
                if req.customer.None? then r == Err(ServerError(ServerErrorMessage))
                else
                  var s := gateway(CheckoutFor(req.customer.value, Snapshot(req.items.value), OrderIdPrefix + token));
                  if s.None? then r == Err(ServerError(ServerErrorMessage))
                  else && r.Ok? && r.value.order.paymentStatus == Unpaid
                       && r.value.order.sessionId == Some(s.value.id)
                       && r.value.order.paymentIntentId == s.value.paymentIntent
                       && r.value.checkoutUrl == Some(s.value.url)
    {
      if req.items.None? || req.items.value == [] {
        return Err(BadRequest(EmptyItemsMessage));
      }
      var pm := NormalizePaymentMethod(req.paymentMethod);
      var items := Snapshot(req.items.value);
      var orderId := OrderIdPrefix + token;
      var order;
      if pm == OnlinePayment {
        if req.customer.None? {
          // `customer.email` throws before the gateway is called
          return Err(ServerError(ServerErrorMessage));
        }
        var session := gateway(CheckoutFor(req.customer.value, items, orderId));
        if session.None? {
          return Err(ServerError(ServerErrorMessage));
        }
        order := BuildOrder(nextKey, orderId, user, req, items, session, now);
        r := Ok(Placement(order, Some(session.value.url)));
      } else {
        order := BuildOrder(nextKey, orderId, user, req, items, None, now);
        r := Ok(Placement(order, None));
      }
      orders := orders + [order];
      nextKey := nextKey + 1;
    }

    /**
     GET /api/orders/confirm. Marks paid the order whose stored session id is the given
     one, once the gateway reports the session paid.
     */
    method ConfirmPayment(sessionId: Option<string>, retrieve: string -> Option<string>) returns (r: Result<Order>)
      requires Valid()
      modifies this
      ensures Valid() && nextKey == old(nextKey)
      ensures !Truthy(sessionId) ==> r == Err(BadRequest(SessionRequiredMessage)) && orders == old(orders)
      ensures Truthy(sessionId) && retrieve(sessionId.value).None? ==>
                r == Err(ServerError(ServerErrorMessage)) && orders == old(orders)
      ensures Truthy(sessionId) && retrieve(sessionId.value).Some? && retrieve(sessionId.value).value != GatewayPaid ==>
                r == Err(BadRequest(NotPaidMessage)) && orders == old(orders)
      ensures Truthy(sessionId) && retrieve(sessionId.value) == Some(GatewayPaid) ==>
                var k := FindOrder(old(orders), BySession(sessionId.value));
                && orders == Confirmed(old(orders), sessionId.value)
                && (k < 0 ==> r == Err(NotFound(OrderNotFoundMessage)))
                && (k >= 0 ==> r == Ok(orders[k]) && orders[k].paymentStatus == Paid)
    {
      if !Truthy(sessionId) {
        return Err(BadRequest(SessionRequiredMessage));
      }
      var sid := sessionId.value;
      var status := retrieve(sid);
      if status.None? {
        return Err(ServerError(ServerErrorMessage));
      }
      if status.value != GatewayPaid {
        return Err(BadRequest(NotPaidMessage));
      }
      var k := FindOrder(orders, BySession(sid));
      if k < 0 {
        return Err(NotFound(OrderNotFoundMessage));
      }
      assert orders[k] in orders;
      orders := orders[k := orders[k].(paymentStatus := Paid)];
      r := Ok(orders[k]);
    }

    /** GET /api/orders: every order, most recent first. */
    method GetOrders() returns (r: seq<Order>)
      ensures multiset(r) == multiset(orders)
      ensures NewestFirstOrder(r)
    {
      r := NewestFirst(orders);
    }

    /** GET /api/orders/:id */
    method GetOrderById(key: nat) returns (r: Result<Order>)
      ensures r.Ok? ==> r.value in orders && r.value.key == key
      ensures r.Err? ==> r.error == NotFound(OrderNotFoundMessage) && forall o :: o in orders ==> o.key != key
    {
      var k := FindOrder(orders, ByKey(key));
      if k < 0 {
        return Err(NotFound(OrderNotFoundMessage));
      }
      r := Ok(orders[k]);
    }

    /** PUT /api/orders/:id: copies the allow-listed fields present in the body. */
    method UpdateOrder(key: nat, body: map<string, string>) returns (r: Result<Order>)
      requires Valid()
      modifies this
      ensures Valid() && nextKey == old(nextKey)
      ensures var k := FindOrder(old(orders), ByKey(key));
              && orders == Updated(old(orders), key, body)
              && (if k < 0 then r == Err(NotFound(OrderNotFoundMessage)) else r == Ok(orders[k]))
    {
      var data := CollectAllowed(body);
      var k := FindOrder(orders, ByKey(key));
      if k < 0 {
        return Err(NotFound(OrderNotFoundMessage));
      }
      assert orders[k] in orders;
      orders := orders[k := Applied(orders[k], data)];
      r := Ok(orders[k]);
    }

    /** DELETE /api/orders/:id */
    method DeleteOrder(key: nat) returns (r: Result<string>)
      requires Valid()
      modifies this
      ensures Valid() && nextKey == old(nextKey)
      ensures var k := FindOrder(old(orders), ByKey(key));
              && orders == Removed(old(orders), key)
              && (if k < 0 then r == Err(NotFound(OrderNotFoundMessage)) else r == Ok(OrderDeletedMessage))
    {
      var k := FindOrder(orders, ByKey(key));
      if k < 0 {
        return Err(NotFound(OrderNotFoundMessage));
      }
      var rest := orders[..k] + orders[k + 1..];
      assert forall i :: 0 <= i < |rest| ==> rest[i] == orders[if i < k then i else i + 1];
      forall o | o in rest ensures o in orders {
        var i :| 0 <= i < |rest| && rest[i] == o;
      }
      orders := rest;
      r := Ok(OrderDeletedMessage);
    }
  }
}
