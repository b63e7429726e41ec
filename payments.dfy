/** The payment controller: a gateway order is created for a store order,
    then the gateway's payment signature is verified and the order marked
    paid. The gateway and the HMAC-SHA256 function (RFC 2104 over the
    SHA-256 of FIPS 180-4, hex encoded) are parameters: the model takes no
    view of how either computes. */
module Payments {
  import opened Common
  import opened Models
  import opened Store
  import opened Auth

  /** What is sent to the gateway's `orders.create`: the amount in paise. */
  datatype GatewayRequest = GatewayRequest(amount: int, currency: string, receipt: string, notes: Option<string>)

  /** The gateway's reply to `orders.create`. */
  datatype GatewayOrder = GatewayOrder(id: string, amount: int, currency: string)

  /** The JSON reply of a successful gateway-order request. */
  datatype Checkout = Checkout(razorpayOrderId: string, amount: int, currency: string, keyId: string, dbOrderId: Id)

  /** The body of a verification request. */
  datatype VerifyBody = VerifyBody(
    dbOrderId: Option<Id>,
    gatewayOrderId: Option<string>,
    gatewayPaymentId: Option<string>,
    signature: Option<string>)

  predicate AllVerifyFields(b: VerifyBody) {
    Truthy(b.dbOrderId) && Truthy(b.gatewayOrderId) && Truthy(b.gatewayPaymentId) && Truthy(b.signature)
  }

  /** The signature a genuine gateway callback carries: the hex HMAC, under
      the key secret, of "<gateway order id>|<gateway payment id>". */
  function ExpectedSignature(hmac: (string, string) -> string, secret: string, gatewayOrderId: string,
                             gatewayPaymentId: string): string {
    hmac(secret, gatewayOrderId + "|" + gatewayPaymentId)
  }

  predicate SignatureValid(hmac: (string, string) -> string, secret: string, b: VerifyBody)
    requires AllVerifyFields(b)
  {
    ExpectedSignature(hmac, secret, b.gatewayOrderId.value, b.gatewayPaymentId.value) == b.signature.value
  }

  /** The amount sent to the gateway for an order: its total in paise. */
  function Paise(totalAmount: int): int {
    totalAmount * 100
  }

  /** The gateway request both payment paths make for an order. */
  function GatewayRequestFor(o: Order, notes: Option<string>): (g: GatewayRequest)
    ensures g.amount == Paise(o.totalAmount) && g.currency == "INR" && g.receipt == "rcpt_" + o.id
  {
    GatewayRequest(Paise(o.totalAmount), "INR", "rcpt_" + o.id, notes)
  }

  /** The order once a gateway order has been created for it. */
  function Linked(o: Order, gatewayOrderId: string, now: Time): Order {
    o.(gatewayOrderId := gatewayOrderId, paymentMethod := "Razorpay", updatedAt := now)
  }

  /** The order once a payment for it has been verified. */
  function Paid(o: Order, gatewayOrderId: string, gatewayPaymentId: string, now: Time): (p: Order)
    ensures p.paymentStatus == "Paid" && p.paymentMethod == "Razorpay" && p.paidAt == Some(now)
    ensures p.gatewayOrderId == gatewayOrderId && p.gatewayPaymentId == gatewayPaymentId
    ensures p.(paymentStatus := o.paymentStatus, paymentMethod := o.paymentMethod, paidAt := o.paidAt,
               gatewayOrderId := o.gatewayOrderId, gatewayPaymentId := o.gatewayPaymentId,
               updatedAt := o.updatedAt) == o
  {
    o.(paymentStatus := "Paid", gatewayOrderId := gatewayOrderId, gatewayPaymentId := gatewayPaymentId,
       paymentMethod := "Razorpay", paidAt := Some(now), updatedAt := now)
  }

  /** Verifying an already verified order again with the same ids only
      refreshes the payment time. */
  lemma ReverifyRefreshesTime(o: Order, gatewayOrderId: string, gatewayPaymentId: string, t1: Time, t2: Time)
    ensures Paid(Paid(o, gatewayOrderId, gatewayPaymentId, t1), gatewayOrderId, gatewayPaymentId, t2)
            == Paid(o, gatewayOrderId, gatewayPaymentId, t2)
  {
  }

  /** `createRazorpayOrder`: 400 without an order id, 404 for an unknown
      order, 403 when the order is not the caller's, 500 when the gateway
      fails or the save's validators refuse the order; otherwise the gateway
      order id and the method are stored. */
  method CreateGatewayOrder(db: Db, caller: Caller, orderId: Option<Id>, keyId: string,
                            gateway: GatewayRequest -> Option<GatewayOrder>, now: Time)
    returns (reply: Reply<Checkout>)
    modifies db`orders
    ensures !Truthy(orderId) ==> reply == Fail(400, "orderId is required") && db.orders == old(db.orders)
    ensures Truthy(orderId) ==>
      match FindFirst(old(db.orders), OrderById(orderId.value))
      case None => reply == Fail(404, "Order not found") && db.orders == old(db.orders)
      case Some(i) =>
        var o := old(db.orders)[i];
        if o.user != caller.userId then reply == Fail(403, "Not allowed") && db.orders == old(db.orders)
        else match gateway(GatewayRequestFor(o, Some(o.id)))
          case None => reply == Fail(500, "Failed to create Razorpay order") && db.orders == old(db.orders)
          case Some(g) =>
            if !OrderValid(Linked(o, g.id, now)) then
              reply == Fail(500, "Failed to create Razorpay order") && db.orders == old(db.orders)
            else
              reply == Ok(200, Checkout(g.id, g.amount, g.currency, keyId, o.id))
              && db.orders == old(db.orders)[i := Linked(o, g.id, now)]
  {
    if !Truthy(orderId) {
      return Fail(400, "orderId is required");
    }
    var found := FindFirst(db.orders, OrderById(orderId.value));
    if found.None? {
      return Fail(404, "Order not found");
    }
    var i := found.value;
    var o := db.orders[i];
    if o.user != caller.userId {
      return Fail(403, "Not allowed");
    }
    var g := gateway(GatewayRequestFor(o, Some(o.id)));
    if g.None? {
      return Fail(500, "Failed to create Razorpay order");
    }
    var q := Linked(o, g.value.id, now);
    if !OrderValid(q) {
      return Fail(500, "Failed to create Razorpay order");
    }
    db.orders := db.orders[i := q];
    reply := Ok(200, Checkout(g.value.id, g.value.amount, g.value.currency, keyId, o.id));
  }

  /** `verifyRazorpayPayment`: 400 for a missing field, 404 for an unknown
      order, 403 for another user's order, all before the signature is
      checked; 400 for a wrong signature; 500 when the save's validators
      refuse the order; otherwise the order is marked paid. */
  method VerifyPayment(db: Db, caller: Caller, body: VerifyBody, secret: string,
                       hmac: (string, string) -> string, now: Time)
    returns (reply: Reply<Order>)
    modifies db`orders
    ensures !AllVerifyFields(body) ==>
              reply == Fail(400, "Missing payment verification fields") && db.orders == old(db.orders)
    ensures AllVerifyFields(body) ==>
      match FindFirst(old(db.orders), OrderById(body.dbOrderId.value))
      case None => reply == Fail(404, "Order not found") && db.orders == old(db.orders)
      case Some(i) =>
        var o := old(db.orders)[i];
        if o.user != caller.userId then reply == Fail(403, "Not allowed") && db.orders == old(db.orders)
        else if !SignatureValid(hmac, secret, body) then
          reply == Fail(400, "Payment verification failed (invalid signature)") && db.orders == old(db.orders)
        else
          var p := Paid(o, body.gatewayOrderId.value, body.gatewayPaymentId.value, now);
          if !OrderValid(p) then reply == Fail(500, "Payment verification error") && db.orders == old(db.orders)
          else reply == Ok(200, p) && db.orders == old(db.orders)[i := p]
  {
    if !AllVerifyFields(body) {
      return Fail(400, "Missing payment verification fields");
    }
    var found := FindFirst(db.orders, OrderById(body.dbOrderId.value));
    if found.None? {
      return Fail(404, "Order not found");
    }
    var i := found.value;
    var o := db.orders[i];
    if o.user != caller.userId {
      return Fail(403, "Not allowed");
    }
    if ExpectedSignature(hmac, secret, body.gatewayOrderId.value, body.gatewayPaymentId.value) != body.signature.value {
      return Fail(400, "Payment verification failed (invalid signature)");
    }
    var p := Paid(o, body.gatewayOrderId.value, body.gatewayPaymentId.value, now);
    if !OrderValid(p) {
      return Fail(500, "Payment verification error");
    }
    db.orders := db.orders[i := p];
    reply := Ok(200, p);
  }
}
