/** The payment routes mounted at `/api/payments`: the same two steps as
    the payment controller, but with no ownership check, the signature
    checked before the order is looked up, and a Payment ledger record
    appended on success. */
module PaymentRoutes {
  import opened Common
  import opened Models
  import opened Store
  import opened Payments

  /** The ledger record of a verified payment. */
  function LedgerEntry(id: Id, o: Order, now: Time): (p: Payment)
    ensures p.order == o.id && p.amount == o.totalAmount && p.payMethod == "Razorpay" && p.status == "Success"
  {
    Payment(id, o.id, o.totalAmount, "Razorpay", "Success", now)
  }

  /** `POST /razorpay/order`: 400 without an order id, 404 for an unknown
      order, 500 when the gateway fails or the save's validators refuse the
      order; any signed-in caller may create a gateway order for any order. */
  method CreateGatewayOrder(db: Db, orderId: Option<Id>, keyId: string,
                            gateway: GatewayRequest -> Option<GatewayOrder>, now: Time)
    returns (reply: Reply<Checkout>)
    modifies db`orders
    ensures !Truthy(orderId) ==> reply == Fail(400, "orderId required") && db.orders == old(db.orders)
    ensures Truthy(orderId) ==>
      match FindFirst(old(db.orders), OrderById(orderId.value))
      case None => reply == Fail(404, "Order not found") && db.orders == old(db.orders)
      case Some(i) =>
        var o := old(db.orders)[i];
        match gateway(GatewayRequestFor(o, None))
        case None => reply == Fail(500, "Failed to create Razorpay order") && db.orders == old(db.orders)
        case Some(g) =>
          if !OrderValid(Linked(o, g.id, now)) then
            reply == Fail(500, "Failed to create Razorpay order") && db.orders == old(db.orders)
          else
            reply == Ok(200, Checkout(g.id, g.amount, g.currency, keyId, o.id))
            && db.orders == old(db.orders)[i := Linked(o, g.id, now)]
  {
    if !Truthy(orderId) {
      return Fail(400, "orderId required");
    }
    var found := FindFirst(db.orders, OrderById(orderId.value));
    if found.None? {
      return Fail(404, "Order not found");
    }
    var i := found.value;
    var o := db.orders[i];
    var g := gateway(GatewayRequestFor(o, None));
    if g.None? {
      return Fail(500, "Failed to create Razorpay order");
    }
    var q := Linked(o, g.value.id, now);
    if !OrderValid(q) {
      return Fail(500, "Failed to create Razorpay order");
    }
    db.orders := db.orders[i := q];
    reply := Ok(200, Checkout(g.value.id, g.value.amount, g.value.currency, keyId, o.id));
  }

  /** `POST /razorpay/verify`: 400 for a missing field, 400 for a wrong
      signature whether or not the order exists, then 404 for an unknown
      order; 500 with nothing written when the save's validators refuse the
      order; otherwise the order is marked paid and exactly one Payment of
      its total is appended. No ownership check is made. */
  method VerifyPayment(db: Db, body: VerifyBody, secret: string, hmac: (string, string) -> string,
                       paymentId: Id, now: Time)
    returns (reply: Reply<Order>)
    modifies db`orders, db`payments
    ensures !AllVerifyFields(body) ==>
              reply == Fail(400, "Missing fields for verification")
              && db.orders == old(db.orders) && db.payments == old(db.payments)
    ensures AllVerifyFields(body) && !SignatureValid(hmac, secret, body) ==>
              reply == Fail(400, "Invalid signature") && db.orders == old(db.orders) && db.payments == old(db.payments)
    ensures AllVerifyFields(body) && SignatureValid(hmac, secret, body) ==>
      match FindFirst(old(db.orders), OrderById(body.dbOrderId.value))
      case None =>
        reply == Fail(404, "Order not found") && db.orders == old(db.orders) && db.payments == old(db.payments)
      case Some(i) =>
        var p := Paid(old(db.orders)[i], body.gatewayOrderId.value, body.gatewayPaymentId.value, now);
        if !OrderValid(p) then
          reply == Fail(500, "Payment verification failed")
          && db.orders == old(db.orders) && db.payments == old(db.payments)
        else
          reply == Ok(200, p) && db.orders == old(db.orders)[i := p]
          && db.payments == old(db.payments) + [LedgerEntry(paymentId, p, now)]
  {
    if !AllVerifyFields(body) {
      return Fail(400, "Missing fields for verification");
    }
    if ExpectedSignature(hmac, secret, body.gatewayOrderId.value, body.gatewayPaymentId.value) != body.signature.value {
      return Fail(400, "Invalid signature");
    }
    var found := FindFirst(db.orders, OrderById(body.dbOrderId.value));
    if found.None? {
      return Fail(404, "Order not found");
    }
    var i := found.value;
    var p := Paid(db.orders[i], body.gatewayOrderId.value, body.gatewayPaymentId.value, now);
    if !OrderValid(p) {
      return Fail(500, "Payment verification failed");
    }
    db.orders := db.orders[i := p];
    db.payments := db.payments + [LedgerEntry(paymentId, p, now)];
    reply := Ok(200, p);
  }
}
