/** The order controller: placing an order (with the upsert of the
    customer's aggregate record, keyed by name), the admin's payment mark,
    patch and delete, and the caller's own orders. */
module Orders {
  import opened Common
  import opened Models
  import opened Store
  import opened Auth
  import opened Queries
  import opened Sorting
  import opened Grouping

  /** The body of `POST /api/orders`. Payment fields sent by the client are
      not read: a new order always takes the schema's payment defaults. */
  datatype OrderBody = OrderBody(
    customerName: Option<string>,
    phone: Option<string>,
    items: Option<seq<OrderItem>>,
    totalAmount: Option<int>,
    orderType: Option<string>,
    deliveryAddress: Option<string>,
    scheduledTime: Option<string>)

  /** The order document `createOrder` asks the schema to create. */
  function Placed(body: OrderBody, caller: Caller, newId: Id, now: Time): (r: Option<Order>)
    ensures r.Some? <==> caller.userId != "" && Truthy(body.customerName) && body.totalAmount.Some?
    ensures r.Some? ==> r.value.user == caller.userId && r.value.totalAmount == body.totalAmount.value
    ensures r.Some? ==> r.value.phone == OrElse(body.phone, "") && r.value.orderType == OrElse(body.orderType, "Parcel")
    ensures r.Some? ==> r.value.deliveryAddress == OrElse(body.deliveryAddress, "")
                        && r.value.scheduledTime == OrElse(body.scheduledTime, "")
    ensures r.Some? ==> FreshOrder(r.value)
  {
    NewOrder(newId, caller.userId, body.customerName, OrElse(body.phone, ""), body.items, body.totalAmount,
             OrElse(body.orderType, "Parcel"), OrElse(body.deliveryAddress, ""), OrElse(body.scheduledTime, ""), now)
  }

  function OrderName(o: Order): string { o.customerName }
  function OrderTotal(o: Order): int { o.totalAmount }

  /** A customer record after one more order: phone replaced, one more order,
      one more loyalty point, the total added to the amount spent. */
  function Bumped(c: Customer, phone: string, amount: int, now: Time): Customer {
    c.(phone := phone, totalOrders := c.totalOrders + 1, totalSpent := c.totalSpent + amount,
       loyaltyPoints := c.loyaltyPoints + 1, updatedAt := now)
  }

  /** `Customer.findOneAndUpdate({customerName}, {$set: {phone}, $inc: {...}}, {upsert: true})`. */
  function CustomerUpsert(cs: seq<Customer>, name: string, phone: string, amount: int, newId: Id, now: Time)
    : (r: seq<Customer>)
    ensures |r| == |cs| || |r| == |cs| + 1
    ensures |r| == |cs| + 1 <==> forall j :: 0 <= j < |cs| ==> cs[j].customerName != name
    ensures forall j :: 0 <= j < |cs| && cs[j].customerName != name ==> r[j] == cs[j]
    ensures exists j :: 0 <= j < |r| && r[j].customerName == name && r[j].phone == phone
    ensures CustomerNamesUnique(cs) ==> CustomerNamesUnique(r)
    ensures LoyaltyMatchesOrders(cs) ==> LoyaltyMatchesOrders(r)
  {
    match FindFirst(cs, (c: Customer) => c.customerName == name)
    case Some(i) =>
      var r := cs[i := Bumped(cs[i], phone, amount, now)];
      assert r[i].customerName == name;
      r
    case None =>
      var r := cs + [Customer(newId, name, phone, 1, 0, amount, 1, now)];
      assert r[|cs|].customerName == name;
      r
  }

  /** Every customer's counters agree with the orders placed under its name,
      and every order's name has a customer record. */
  ghost predicate CustomersTrackOrders(orders: seq<Order>, cs: seq<Customer>) {
    (forall i :: 0 <= i < |cs| ==>
       cs[i].totalOrders == CountKey(orders, OrderName, cs[i].customerName)
       && cs[i].totalSpent == SumKey(orders, OrderName, cs[i].customerName, OrderTotal))
    && (forall j :: 0 <= j < |orders| ==> exists i :: 0 <= i < |cs| && cs[i].customerName == orders[j].customerName)
  }

  lemma {:induction false} NoGroupMembers(orders: seq<Order>, name: string)
    requires forall j :: 0 <= j < |orders| ==> orders[j].customerName != name
    ensures CountKey(orders, OrderName, name) == 0 && SumKey(orders, OrderName, name, OrderTotal) == 0
    decreases |orders|
  {
    if |orders| > 0 {
      assert forall j :: 0 <= j < |orders| - 1 ==> orders[1..][j] == orders[j + 1];
      NoGroupMembers(orders[1..], name);
    }
  }

  /** Placing an order keeps the customer counters in step with the orders. */
  lemma UpsertTracksOrders(orders: seq<Order>, cs: seq<Customer>, o: Order, newId: Id, now: Time)
    requires CustomersTrackOrders(orders, cs) && CustomerNamesUnique(cs)
    ensures CustomersTrackOrders(orders + [o], CustomerUpsert(cs, o.customerName, o.phone, o.totalAmount, newId, now))
  {
    var name := o.customerName;
    match FindFirst(cs, (c: Customer) => c.customerName == name)
    case Some(i) =>
      BumpTracksOrders(orders, cs, o, i, now);
    case None =>
      InsertTracksOrders(orders, cs, o, newId, now);
  }

  /** The order's customer already has a record: that record is bumped. */
  lemma BumpTracksOrders(orders: seq<Order>, cs: seq<Customer>, o: Order, i: nat, now: Time)
    requires CustomersTrackOrders(orders, cs) && CustomerNamesUnique(cs)
    requires i < |cs| && cs[i].customerName == o.customerName
    ensures CustomersTrackOrders(orders + [o], cs[i := Bumped(cs[i], o.phone, o.totalAmount, now)])
  {
    var name := o.customerName;
    var r := cs[i := Bumped(cs[i], o.phone, o.totalAmount, now)];
    var s := orders + [o];
    forall k | 0 <= k < |r|
      ensures r[k].totalOrders == CountKey(s, OrderName, r[k].customerName)
      ensures r[k].totalSpent == SumKey(s, OrderName, r[k].customerName, OrderTotal)
    {
      CountKeyAppend(orders, o, OrderName, r[k].customerName);
      SumKeyAppend(orders, o, OrderName, r[k].customerName, OrderTotal);
      if k == i {
        assert r[k] == Bumped(cs[i], o.phone, o.totalAmount, now);
        assert r[k].customerName == name;
      } else {
        assert r[k] == cs[k];
        assert cs[k].customerName != cs[i].customerName by {
          if k < i { assert cs[k].customerName != cs[i].customerName; }
          else { assert cs[i].customerName != cs[k].customerName; }
        }
      }
    }
    forall j | 0 <= j < |s| ensures exists k :: 0 <= k < |r| && r[k].customerName == s[j].customerName {
      if j < |orders| {
        assert s[j] == orders[j];
        var k :| 0 <= k < |cs| && cs[k].customerName == orders[j].customerName;
        assert r[k].customerName == cs[k].customerName;
      } else {
        assert r[i].customerName == name;
      }
    }
    assert forall k :: 0 <= k < |r| ==>
       r[k].totalOrders == CountKey(s, OrderName, r[k].customerName)
       && r[k].totalSpent == SumKey(s, OrderName, r[k].customerName, OrderTotal);
    assert forall j :: 0 <= j < |s| ==> exists k :: 0 <= k < |r| && r[k].customerName == s[j].customerName;
  }

  /** The order's customer has no record: a new one with one order is appended. */
  lemma InsertTracksOrders(orders: seq<Order>, cs: seq<Customer>, o: Order, newId: Id, now: Time)
    requires CustomersTrackOrders(orders, cs)
    requires forall j :: 0 <= j < |cs| ==> cs[j].customerName != o.customerName
    ensures CustomersTrackOrders(orders + [o], cs + [Customer(newId, o.customerName, o.phone, 1, 0, o.totalAmount, 1, now)])
  {
    var name := o.customerName;
    var r := cs + [Customer(newId, name, o.phone, 1, 0, o.totalAmount, 1, now)];
    var s := orders + [o];
    assert forall j :: 0 <= j < |orders| ==> orders[j].customerName != name by {
      forall j | 0 <= j < |orders| ensures orders[j].customerName != name {
        var k :| 0 <= k < |cs| && cs[k].customerName == orders[j].customerName;
      }
    }
    NoGroupMembers(orders, name);
    forall k | 0 <= k < |r|
      ensures r[k].totalOrders == CountKey(s, OrderName, r[k].customerName)
      ensures r[k].totalSpent == SumKey(s, OrderName, r[k].customerName, OrderTotal)
    {
      CountKeyAppend(orders, o, OrderName, r[k].customerName);
      SumKeyAppend(orders, o, OrderName, r[k].customerName, OrderTotal);
      if k < |cs| {
        assert r[k] == cs[k];
      }
    }
    forall j | 0 <= j < |s| ensures exists k :: 0 <= k < |r| && r[k].customerName == s[j].customerName {
      if j < |orders| {
        assert s[j] == orders[j];
        var k :| 0 <= k < |cs| && cs[k].customerName == orders[j].customerName;
        assert r[k] == cs[k];
      } else {
        assert r[|cs|].customerName == name;
      }
    }
  }

  /** `createOrder`: the order (owned by the caller, with its defaults) is
      appended and the customer named on it is created or bumped; a missing
      customer name or total fails schema validation and nothing is written. */
  method CreateOrder(db: Db, caller: Caller, body: OrderBody, orderId: Id, customerId: Id, now: Time)
    returns (reply: Reply<Order>)
    modifies db`orders, db`customers
    ensures match Placed(body, caller, orderId, now)
            case None => reply == Thrown(500) && db.orders == old(db.orders) && db.customers == old(db.customers)
            case Some(o) =>
              reply == Ok(201, o) && db.orders == old(db.orders) + [o]
              && db.customers == CustomerUpsert(old(db.customers), o.customerName, o.phone, o.totalAmount, customerId, now)
    ensures LoyaltyMatchesOrders(old(db.customers)) ==> LoyaltyMatchesOrders(db.customers)
    ensures CustomerNamesUnique(old(db.customers)) ==> CustomerNamesUnique(db.customers)
    ensures CustomersTrackOrders(old(db.orders), old(db.customers)) && CustomerNamesUnique(old(db.customers))
            ==> CustomersTrackOrders(db.orders, db.customers)
  {
    var placed := Placed(body, caller, orderId, now);
    if placed.None? {
      return Thrown(500);
    }
    var o := placed.value;
    if CustomersTrackOrders(db.orders, db.customers) && CustomerNamesUnique(db.customers) {
      UpsertTracksOrders(db.orders, db.customers, o, customerId, now);
    }
    db.orders := db.orders + [o];
    db.customers := CustomerUpsert(db.customers, o.customerName, o.phone, o.totalAmount, customerId, now);
    reply := Ok(201, o);
  }

  /** `markOrderPaid`: 404 for an unknown id; otherwise Paid, the given
      method or else the previous one, and the payment time, unless the
      save's validators refuse the order (an update may have emptied a
      required path), which answers 500 and writes nothing. */
  method MarkOrderPaid(db: Db, id: Id, paymentMethod: Option<string>, now: Time) returns (reply: Reply<Order>)
    modifies db`orders
    ensures match FindFirst(old(db.orders), OrderById(id))
            case None => reply == Fail(404, "Order not found") && db.orders == old(db.orders)
            case Some(i) =>
              var o := old(db.orders)[i];
              var p := o.(paymentStatus := "Paid", paymentMethod := OrElse(paymentMethod, o.paymentMethod),
                          paidAt := Some(now), updatedAt := now);
              if !OrderValid(p) then reply == Fail(500, "Payment update failed") && db.orders == old(db.orders)
              else reply == Ok(200, p) && db.orders == old(db.orders)[i := p]
  {
    var found := FindFirst(db.orders, OrderById(id));
    if found.None? {
      return Fail(404, "Order not found");
    }
    var i := found.value;
    var o := db.orders[i];
    var p := o.(paymentStatus := "Paid", paymentMethod := OrElse(paymentMethod, o.paymentMethod),
                paidAt := Some(now), updatedAt := now);
    if !OrderValid(p) {
      return Fail(500, "Payment update failed");
    }
    db.orders := db.orders[i := p];
    reply := Ok(200, p);
  }

  /** The body of `PUT /api/orders/:id`: every path of the order schema
      but `_id` and the timestamps, each present or absent. */
  datatype OrderPatch = OrderPatch(
    user: Option<Id>,
    customerName: Option<string>,
    phone: Option<string>,
    items: Option<seq<OrderItem>>,
    totalAmount: Option<int>,
    status: Option<string>,
    orderType: Option<string>,
    deliveryAddress: Option<string>,
    scheduledTime: Option<string>,
    paymentStatus: Option<string>,
    paymentMethod: Option<string>,
    gatewayOrderId: Option<string>,
    gatewayPaymentId: Option<string>,
    paidAt: Option<Time>,
    refundId: Option<string>,
    refundedAt: Option<Time>,
    invoiceNumber: Option<string>,
    invoiceUrl: Option<string>)

  /** The order with every path present in the patch overwritten. */
  function Patched(o: Order, p: OrderPatch, now: Time): Order {
    o.(user := p.user.GetOr(o.user),
       customerName := p.customerName.GetOr(o.customerName),
       phone := p.phone.GetOr(o.phone),
       items := p.items.GetOr(o.items),
       totalAmount := p.totalAmount.GetOr(o.totalAmount),
       status := p.status.GetOr(o.status),
       orderType := p.orderType.GetOr(o.orderType),
       deliveryAddress := p.deliveryAddress.GetOr(o.deliveryAddress),
       scheduledTime := p.scheduledTime.GetOr(o.scheduledTime),
       paymentStatus := p.paymentStatus.GetOr(o.paymentStatus),
       paymentMethod := p.paymentMethod.GetOr(o.paymentMethod),
       gatewayOrderId := p.gatewayOrderId.GetOr(o.gatewayOrderId),
       gatewayPaymentId := p.gatewayPaymentId.GetOr(o.gatewayPaymentId),
       paidAt := if p.paidAt.Some? then p.paidAt else o.paidAt,
       refundId := p.refundId.GetOr(o.refundId),
       refundedAt := if p.refundedAt.Some? then p.refundedAt else o.refundedAt,
       invoiceNumber := p.invoiceNumber.GetOr(o.invoiceNumber),
       invoiceUrl := p.invoiceUrl.GetOr(o.invoiceUrl),
       updatedAt := now)
  }

  /** The patch that names no path. */
  const EmptyPatch := OrderPatch(None, None, None, None, None, None, None, None, None,
                                 None, None, None, None, None, None, None, None, None)

  /** An empty patch changes nothing but the modification time. */
  lemma EmptyPatchKeepsOrder(o: Order, now: Time)
    ensures Patched(o, EmptyPatch, now) == o.(updatedAt := now)
  {
  }

  /** Applying the same patch twice has the effect of applying it once. */
  lemma PatchIdempotent(o: Order, p: OrderPatch, now: Time)
    ensures Patched(Patched(o, p, now), p, now) == Patched(o, p, now)
  {
  }

  /** Only the id and the creation time are out of a patch's reach; the
      modification time becomes the time of the update. */
  lemma PatchKeepsOtherPaths(o: Order, p: OrderPatch, now: Time)
    ensures var q := Patched(o, p, now);
            q.id == o.id && q.createdAt == o.createdAt && q.updatedAt == now
  {
  }

  /** A patch can empty a required path, which no validator refuses on
      update: the stored order then fails the validators of a later save. */
  lemma PatchCanInvalidate(o: Order, now: Time)
    ensures !OrderValid(Patched(o, EmptyPatch.(customerName := Some("")), now))
  {
  }

  /** `updateOrder`: `findByIdAndUpdate` with the body; an unknown id answers
      200 with null. */
  method UpdateOrder(db: Db, id: Id, patch: OrderPatch, now: Time) returns (reply: Reply<Option<Order>>)
    modifies db`orders
    ensures match FindFirst(old(db.orders), OrderById(id))
            case None => reply == Ok(200, None) && db.orders == old(db.orders)
            case Some(i) =>
              reply == Ok(200, Some(Patched(old(db.orders)[i], patch, now)))
              && db.orders == old(db.orders)[i := Patched(old(db.orders)[i], patch, now)]
  {
    var found := FindFirst(db.orders, OrderById(id));
    if found.None? {
      return Ok(200, None);
    }
    var i := found.value;
    var q := Patched(db.orders[i], patch, now);
    db.orders := db.orders[i := q];
    reply := Ok(200, Some(q));
  }

  /** `deleteOrder`: the order is removed if it exists; the reply is the same either way. */
  method DeleteOrder(db: Db, id: Id) returns (reply: Reply<string>)
    modifies db`orders
    ensures reply == Ok(200, "Order deleted")
    ensures match FindFirst(old(db.orders), OrderById(id))
            case None => db.orders == old(db.orders)
            case Some(i) => db.orders == RemoveAt(old(db.orders), i)
  {
    var found := FindFirst(db.orders, OrderById(id));
    if found.Some? {
      db.orders := RemoveAt(db.orders, found.value);
    }
    reply := Ok(200, "Order deleted");
  }

  /** The query `{user: req.userId}`. */
  function OrderOf(caller: Caller): Order -> bool {
    (o: Order) => o.user == caller.userId
  }

  /** `getMyOrders`: exactly the caller's orders, each as often as stored,
      newest first. */
  function MyOrders(orders: seq<Order>, caller: Caller): (r: seq<Order>)
    ensures multiset(r) == multiset(Filter(orders, OrderOf(caller)))
    ensures Descending(r, OrderCreated)
    ensures forall i :: 0 <= i < |r| ==> r[i].user == caller.userId && r[i] in orders
    ensures forall i :: 0 <= i < |orders| && orders[i].user == caller.userId ==> orders[i] in r
    ensures |r| <= |orders|
  {
    FindSortedDesc(orders, OrderOf(caller), OrderCreated)
  }
}
