/**
 * `POST /api/razorpay/verify`: the signed message `order_id|payment_id`, the HMAC-SHA256
 * comparison (RFC 2104 over FIPS 180-4 SHA-256, taken here as an uninterpreted function from
 * key and message to its lower-case hex digest) and the one order update it guards.
 */
module PaymentVerify {
  import opened Options
  import opened Http
  import opened Tables

  /** The fields of the gateway callback the client forwards; a field missing from the JSON
      body is `None` (`undefined`). */
  datatype VerifyRequest = VerifyRequest(
    razorpayOrderId: Option<string>,
    razorpayPaymentId: Option<string>,
    razorpaySignature: Option<string>,
    orderId: string)

  /** A field as `+` turns it into text: `undefined` becomes `"undefined"`. */
  function AsText(field: Option<string>): (t: string)
    ensures field.Some? ==> t == field.value
    ensures field.None? ==> t == "undefined"
  {
    match field
    case Some(v) => v
    case None => "undefined"
  }

  /** `razorpay_order_id + "|" + razorpay_payment_id`. */
  function SignedMessage(req: VerifyRequest): string {
    AsText(req.razorpayOrderId) + "|" + AsText(req.razorpayPaymentId)
  }

  /** For gateway order ids without `|`, the signed message determines the text of both ids. */
  lemma SignedMessageInjective(a: VerifyRequest, b: VerifyRequest)
    requires '|' !in AsText(a.razorpayOrderId) && '|' !in AsText(b.razorpayOrderId)
    requires SignedMessage(a) == SignedMessage(b)
    ensures AsText(a.razorpayOrderId) == AsText(b.razorpayOrderId)
    ensures AsText(a.razorpayPaymentId) == AsText(b.razorpayPaymentId)
  {
    var x, y := AsText(a.razorpayOrderId), AsText(b.razorpayOrderId);
    var m := SignedMessage(a);
    FirstPipe(x, AsText(a.razorpayPaymentId));
    FirstPipe(y, AsText(b.razorpayPaymentId));
    if |x| != |y| {
      // the first `|` of the message would sit inside the longer of the two ids
      assert false;
    }
    assert x == m[..|x|] == y;
    assert AsText(a.razorpayPaymentId) == m[|x| + 1..] == AsText(b.razorpayPaymentId);
  }

  /** The first `|` of `x + "|" + rest` is the separator when `x` has none. */
  lemma FirstPipe(x: string, rest: string)
    requires '|' !in x
    ensures (x + "|" + rest)[|x|] == '|'
    ensures forall i :: 0 <= i < |x| ==> (x + "|" + rest)[i] != '|'
  {
    forall i | 0 <= i < |x|
      ensures (x + "|" + rest)[i] != '|'
    {
      assert (x + "|" + rest)[i] == x[i];
    }
  }

  /** `expectedSignature === razorpay_signature`, with `hmac(key, message)` the hex digest: a
      digest is a string, so it never equals a missing signature. */
  predicate SignatureMatches(hmac: (string, string) -> string, secret: string, req: VerifyRequest) {
    req.razorpaySignature.Some? && hmac(secret, SignedMessage(req)) == req.razorpaySignature.value
  }

  /** A callback without a signature is refused, whatever the digest is. */
  lemma MissingSignatureRejected(hmac: (string, string) -> string, secret: string, req: VerifyRequest)
    requires req.razorpaySignature.None?
    ensures !SignatureMatches(hmac, secret, req)
  {
  }

  /** A column of the update: an `undefined` value is dropped from the JSON body, so the column
      keeps what it held. */
  function Written(field: Option<string>, current: Option<string>): (r: Option<string>)
    ensures field.Some? ==> r == field
    ensures field.None? ==> r == current
  {
    if field.Some? then field else current
  }

  /** The update `{razorpay_payment_id, razorpay_order_id, status: "completed"}`. */
  function Paid(req: VerifyRequest): Order -> Order {
    (o: Order) => o.(status := Completed,
                     razorpayOrderId := Written(req.razorpayOrderId, o.razorpayOrderId),
                     razorpayPaymentId := Written(req.razorpayPaymentId, o.razorpayPaymentId))
  }

  /** The orders table after the update `.eq("id", orderId)`. */
  function OrdersAfterPayment(orders: map<string, Order>, req: VerifyRequest): (r: map<string, Order>)
    ensures r.Keys == orders.Keys
    ensures forall id :: id in orders && id != req.orderId ==> r[id] == orders[id]
    ensures req.orderId in orders ==>
      && r[req.orderId].status == Completed
      && r[req.orderId].razorpayOrderId == Written(req.razorpayOrderId, orders[req.orderId].razorpayOrderId)
      && r[req.orderId].razorpayPaymentId == Written(req.razorpayPaymentId, orders[req.orderId].razorpayPaymentId)
      && r[req.orderId] == orders[req.orderId].(status := Completed,
           razorpayOrderId := r[req.orderId].razorpayOrderId, razorpayPaymentId := r[req.orderId].razorpayPaymentId)
  {
    UpdateWhere(orders, req.orderId, Paid(req))
  }

  /**
   * The handler. `secret` is `RAZORPAY_KEY_SECRET` (`None` when unset, which makes `createHmac`
   * throw); `body` is `None` when the request is not JSON; `updateFails` says whether the
   * database rejects the update.
   */
  method Verify(db: Database, hmac: (string, string) -> string, secret: Option<string>,
                body: Option<VerifyRequest>, updateFails: bool) returns (reply: Reply<bool>)
    modifies db`orders
    ensures body.None? || secret.None? ==>
      reply == Error(500, "Payment verification failed") && db.orders == old(db.orders)
    ensures body.Some? && secret.Some? && !SignatureMatches(hmac, secret.value, body.value) ==>
      reply == Error(400, "Invalid signature") && db.orders == old(db.orders)
    ensures body.Some? && secret.Some? && SignatureMatches(hmac, secret.value, body.value) ==>
      if updateFails then reply == Error(500, "Failed to update order") && db.orders == old(db.orders)
      else reply == Ok(true) && db.orders == OrdersAfterPayment(old(db.orders), body.value)
  {
    if body.None? || secret.None? {
      return Error(500, "Payment verification failed");
    }
    var req := body.value;
    if !SignatureMatches(hmac, secret.value, req) {
      return Error(400, "Invalid signature");
    }
    if updateFails {
      return Error(500, "Failed to update order");
    }
    db.orders := OrdersAfterPayment(db.orders, req);
    return Ok(true);
  }

  /** No order becomes `completed` unless it is the one named in the request and the signature
      matched; an order already `completed` stays so. */
  lemma CompletedOnlyWithSignature(orders: map<string, Order>, hmac: (string, string) -> string,
                                   secret: string, req: VerifyRequest, id: string)
    requires id in orders && orders[id].status == Pending
    ensures var after := if SignatureMatches(hmac, secret, req) then OrdersAfterPayment(orders, req) else orders;
      after[id].status == Completed <==> id == req.orderId && SignatureMatches(hmac, secret, req)
  {
  }

  /** The signature covers the gateway ids only, not `orderId`: a signed callback completes any
      order it is pointed at. With two orders, either one can be completed by the same signed
      pair of gateway ids. */
  lemma SignatureDoesNotBindOrder(orders: map<string, Order>, hmac: (string, string) -> string,
                                  secret: string, req: VerifyRequest, a: string, b: string)
    requires SignatureMatches(hmac, secret, req) && a in orders && b in orders && a != b
    ensures SignatureMatches(hmac, secret, req.(orderId := a)) && SignatureMatches(hmac, secret, req.(orderId := b))
    ensures OrdersAfterPayment(orders, req.(orderId := a))[a].status == Completed
    ensures OrdersAfterPayment(orders, req.(orderId := b))[b].status == Completed
  {
    assert SignedMessage(req.(orderId := a)) == SignedMessage(req) == SignedMessage(req.(orderId := b));
  }

  /** A second verify of the same callback leaves the order as the first one did. */
  lemma PaymentIdempotent(orders: map<string, Order>, req: VerifyRequest)
    ensures OrdersAfterPayment(OrdersAfterPayment(orders, req), req) == OrdersAfterPayment(orders, req)
  {
  }
}
