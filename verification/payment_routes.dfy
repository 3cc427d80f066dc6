/** The /payments routes: create a gateway order and store a pending order
    for it, then verify the gateway's signature and mark that order
    completed.

    The gateway client call becomes a parameter `gatewayReply` (the id of
    the gateway order, or `None` when the call throws), and HMAC-SHA-256 as
    defined by RFC 2104 over FIPS 180-4 becomes a function parameter
    `hmac(key, message)` returning the hex digest. */
module PaymentRoutes {
  import opened Base
  import opened OrderModel
  import OrderRoutes

  const DEFAULT_CURRENCY := "INR"
  const GATEWAY_PAYMENT_METHOD := "razorpay"

  /** The gateway client is built only when both the key id and the secret
      are set to non-empty strings. */
  predicate GatewayConfigured(keyId: Option<string>, secret: Option<string>) {
    Truthy(keyId) && Truthy(secret)
  }

  /** `!amount || amount < 1` rejects a missing amount, zero and anything
      below one. */
  predicate ValidAmount(amount: Option<int>) {
    amount.Some? && amount.value >= 1
  }

  /** The pending order exactly as the create-order route builds it: it
      omits `subtotal`, which the order schema requires. */
  function PendingDraftAsWritten(user: UserId, address: Address, amount: int, gatewayOrderId: string): OrderDraft {
    OrderDraft(
      Some(user), [], address,
      Some(GATEWAY_PAYMENT_METHOD), None,
      None, None, Some(amount),
      None, None, None, None,
      Some(Pending), Some(gatewayOrderId))
  }

  /** As written, the store refuses that order for its missing subtotal, so
      the route answers 500 after the gateway order already exists. */
  lemma AsWrittenPendingOrderRejected(user: UserId, address: Address, amount: int, gatewayOrderId: string, id: OrderId, now: int)
    ensures Create(PendingDraftAsWritten(user, address, amount, gatewayOrderId), id, now)
            == Err({SubtotalRequired})
  {
    var d := PendingDraftAsWritten(user, address, amount, gatewayOrderId);
    assert SubtotalRequired in Errors(d);
    assert Errors(d) == {SubtotalRequired};
  }

  /** The pending order with the subtotal the schema requires: the amount,
      so that with the default shipping of 0 the total is still subtotal
      plus shipping. */
  function PendingDraft(user: UserId, address: Address, amount: int, gatewayOrderId: string): OrderDraft {
    PendingDraftAsWritten(user, address, amount, gatewayOrderId).(subtotal := Some(amount))
  }

  /** The stored pending order: owned by the caller, no lines, the amount
      as total, paid through the gateway, status pending, the gateway order
      id kept for verification, and not paid. */
  function PendingOrder(user: UserId, address: Address, amount: int, gatewayOrderId: string,
                        id: OrderId, now: int): (o: Order)
    ensures o.id == id && o.user == user && o.createdAt == now
    ensures o.items == [] && o.shippingAddress == address
    ensures o.total == amount && o.subtotal == amount && o.shipping == 0
    ensures o.total == o.subtotal + o.shipping
    ensures o.paymentMethod == GATEWAY_PAYMENT_METHOD
    ensures o.paymentStatus == Some(Pending) && o.gatewayOrderId == Some(gatewayOrderId)
    ensures o.gatewayPaymentId.None? && !o.isPaid && !o.isDelivered
  {
    var d := PendingDraft(user, address, amount, gatewayOrderId);
    assert Errors(d) == {};
    Create(d, id, now).value
  }

  datatype PaymentOrderReply = PaymentOrderReply(
    orderId: OrderId,
    gatewayOrderId: string,
    amount: int,
    currency: string)

  /** POST /payments/create-order: 503 when the gateway is not configured,
      before looking at the request; 400 for an invalid amount; 500 when
      the gateway call fails; otherwise the corrected pending order
      (`PendingOrder`, which supplies the subtotal the route as written
      leaves out; see `AsWrittenPendingOrderRejected`) is stored and the
      reply carries its id, the gateway order id, the amount and the
      currency ('INR' when none is sent). As written, this last branch
      fails validation and answers 500 instead. */
  method CreatePaymentOrder(store: OrderRoutes.OrderCollection, keyId: Option<string>, secret: Option<string>,
                            user: UserId, amount: Option<int>, currency: Option<string>, address: Address,
                            gatewayReply: Option<string>, now: int)
    returns (status: nat, reply: Option<PaymentOrderReply>)
    requires store.Valid()
    modifies store
    ensures store.Valid()
    ensures !GatewayConfigured(keyId, secret) ==>
      status == UNAVAILABLE && reply.None?
      && store.orders == old(store.orders) && store.nextOrderId == old(store.nextOrderId)
    ensures GatewayConfigured(keyId, secret) && !ValidAmount(amount) ==>
      status == BAD_REQUEST && reply.None?
      && store.orders == old(store.orders) && store.nextOrderId == old(store.nextOrderId)
    ensures GatewayConfigured(keyId, secret) && ValidAmount(amount) && gatewayReply.None? ==>
      status == SERVER_ERROR && reply.None?
      && store.orders == old(store.orders) && store.nextOrderId == old(store.nextOrderId)
    ensures GatewayConfigured(keyId, secret) && ValidAmount(amount) && gatewayReply.Some? ==>
      && status == OK
      && store.orders == old(store.orders)
           + [PendingOrder(user, address, amount.value, gatewayReply.value, old(store.nextOrderId), now)]
      && store.nextOrderId == old(store.nextOrderId) + 1
      && reply == Some(PaymentOrderReply(old(store.nextOrderId), gatewayReply.value, amount.value,
                                         if currency.Some? then currency.value else DEFAULT_CURRENCY))
  {
    if !GatewayConfigured(keyId, secret) {
      return UNAVAILABLE, None;
    }
    if !ValidAmount(amount) {
      return BAD_REQUEST, None;
    }
    if gatewayReply.None? {
      return SERVER_ERROR, None;
    }
    var id := store.nextOrderId;
    var o := PendingOrder(user, address, amount.value, gatewayReply.value, id, now);
    store.Insert(o);
    var cur := if currency.Some? then currency.value else DEFAULT_CURRENCY;
    status, reply := OK, Some(PaymentOrderReply(id, gatewayReply.value, amount.value, cur));
  }

  /** The signed message: the stored gateway order id, a bar, the payment
      id. An order with no gateway order id contributes "undefined". */
  function SignedBody(o: Order, paymentId: string): (body: string)
    ensures o.gatewayOrderId.Some? ==> body == o.gatewayOrderId.value + "|" + paymentId
    ensures |body| > |paymentId| && body[|body| - |paymentId| - 1..] == "|" + paymentId
  {
    var prefix := if o.gatewayOrderId.Some? then o.gatewayOrderId.value else "undefined";
    assert (prefix + "|" + paymentId)[|prefix|..] == "|" + paymentId;
    prefix + "|" + paymentId
  }

  /** The check a supplied signature must pass. */
  predicate SignatureValid(hmac: (string, string) -> string, secret: string, o: Order, paymentId: string, signature: string) {
    signature == hmac(secret, SignedBody(o, paymentId))
  }

  /** The update on success: status completed and the payment id recorded,
      every other field as it was. */
  function MarkPaid(o: Order, paymentId: string): (p: Order)
    ensures p.paymentStatus == Some(Completed) && p.gatewayPaymentId == Some(paymentId)
    ensures p.(paymentStatus := o.paymentStatus, gatewayPaymentId := o.gatewayPaymentId) == o
    ensures p.isPaid == o.isPaid && p.total == o.total && p.user == o.user && p.id == o.id
  {
    o.(paymentStatus := Some(Completed), gatewayPaymentId := Some(paymentId))
  }

  /** Marking an order paid keeps the message its signature covers, so the
      same signature verifies again, and a second marking changes nothing:
      re-verifying a completed order leaves it completed. */
  lemma ReverifyIsStable(hmac: (string, string) -> string, secret: string, o: Order, paymentId: string, signature: string)
    requires SignatureValid(hmac, secret, o, paymentId, signature)
    ensures SignatureValid(hmac, secret, MarkPaid(o, paymentId), paymentId, signature)
    ensures MarkPaid(MarkPaid(o, paymentId), paymentId) == MarkPaid(o, paymentId)
  {
    assert MarkPaid(o, paymentId).gatewayOrderId == o.gatewayOrderId;
  }

  /** POST /payments/verify-payment: 400 when the order id, payment id or
      signature is missing or empty, before any lookup; 404 when no order
      has the id; 500 when no secret is configured (the HMAC cannot be
      keyed); 400 with success false on a signature mismatch, leaving the
      store as it was; otherwise that order becomes `MarkPaid` and nothing
      else changes. Neither the caller nor the order's prior status is
      consulted. */
  method VerifyPayment(store: OrderRoutes.OrderCollection, hmac: (string, string) -> string, secret: Option<string>,
                       orderId: Option<OrderId>, paymentId: Option<string>, signature: Option<string>)
    returns (status: nat, success: Option<bool>)
    requires store.Valid()
    modifies store
    ensures store.Valid() && store.nextOrderId == old(store.nextOrderId)
    ensures orderId.None? || !Truthy(paymentId) || !Truthy(signature) ==>
      status == BAD_REQUEST && success.None? && store.orders == old(store.orders)
    ensures orderId.Some? && Truthy(paymentId) && Truthy(signature) ==>
      var i := OrderRoutes.IndexOfOrder(old(store.orders), orderId.value);
      && (i < 0 ==> status == NOT_FOUND && success.None? && store.orders == old(store.orders))
      && (i >= 0 && secret.None? ==> status == SERVER_ERROR && success.None? && store.orders == old(store.orders))
      && (i >= 0 && secret.Some? && !SignatureValid(hmac, secret.value, old(store.orders)[i], paymentId.value, signature.value) ==>
            status == BAD_REQUEST && success == Some(false) && store.orders == old(store.orders))
      && (i >= 0 && secret.Some? && SignatureValid(hmac, secret.value, old(store.orders)[i], paymentId.value, signature.value) ==>
            status == OK && success == Some(true)
            && store.orders == old(store.orders)[i := MarkPaid(old(store.orders)[i], paymentId.value)])
  {
    if orderId.None? || !Truthy(paymentId) || !Truthy(signature) {
      return BAD_REQUEST, None;
    }
    var i := OrderRoutes.IndexOfOrder(store.orders, orderId.value);
    if i < 0 {
      return NOT_FOUND, None;
    }
    if secret.None? {
      return SERVER_ERROR, None;
    }
    var o := store.orders[i];
    if signature.value != hmac(secret.value, SignedBody(o, paymentId.value)) {
      return BAD_REQUEST, Some(false);
    }
    store.orders := store.orders[i := MarkPaid(o, paymentId.value)];
    status, success := OK, Some(true);
  }
}
