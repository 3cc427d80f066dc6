/** The order document: its line items, shipping address, totals and
    payment and delivery flags, and what the schema does when an order is
    created — the required paths, and the defaults of paymentMethod,
    shipping, isPaid and isDelivered.

    The payment routes also write `paymentStatus`, a gateway order id and a
    gateway payment id. The schema declares none of the three; the record
    below carries them because the routes rely on them. */
module OrderModel {
  import opened Base

  datatype PaymentStatus = Pending | Completed | Failed

  /** Every address part is an optional string in the schema. */
  datatype Address = Address(
    street: Option<string>,
    city: Option<string>,
    state: Option<string>,
    zipCode: Option<string>,
    country: Option<string>)

  /** An order line as a route supplies it. */
  datatype ItemDraft = ItemDraft(
    product: Option<ProductId>,
    name: Option<string>,
    price: Option<int>,
    quantity: Option<int>,
    image: Option<string>)

  /** A stored order line: the product reference is required, the copied
      name, price, quantity and image are not. */
  datatype OrderItem = OrderItem(
    product: ProductId,
    name: Option<string>,
    price: Option<int>,
    quantity: Option<int>,
    image: Option<string>)

  /** An order as a route hands it to `Order.create`. */
  datatype OrderDraft = OrderDraft(
    user: Option<UserId>,
    items: seq<ItemDraft>,
    shippingAddress: Address,
    paymentMethod: Option<string>,
    stripePaymentIntentId: Option<string>,
    subtotal: Option<int>,
    shipping: Option<int>,
    total: Option<int>,
    isPaid: Option<bool>,
    paidAt: Option<int>,
    isDelivered: Option<bool>,
    deliveredAt: Option<int>,
    paymentStatus: Option<PaymentStatus>,
    gatewayOrderId: Option<string>)

  /** A stored order. `createdAt` is the timestamp the store assigns. */
  datatype Order = Order(
    id: OrderId,
    user: UserId,
    items: seq<OrderItem>,
    shippingAddress: Address,
    paymentMethod: string,
    stripePaymentIntentId: Option<string>,
    subtotal: int,
    shipping: int,
    total: int,
    isPaid: bool,
    paidAt: Option<int>,
    isDelivered: bool,
    deliveredAt: Option<int>,
    createdAt: int,
    paymentStatus: Option<PaymentStatus>,
    gatewayOrderId: Option<string>,
    gatewayPaymentId: Option<string>)

  const DEFAULT_PAYMENT_METHOD := "card"

  datatype OrderError = UserRequired | SubtotalRequired | TotalRequired | ItemProductRequired(index: nat)

  /** Every path the schema marks required, checked after defaults are
      applied (so `shipping`, which defaults to 0, never fails). */
  function Errors(d: OrderDraft): (errs: set<OrderError>)
    ensures UserRequired in errs <==> d.user.None?
    ensures SubtotalRequired in errs <==> d.subtotal.None?
    ensures TotalRequired in errs <==> d.total.None?
    ensures forall i: nat :: ItemProductRequired(i) in errs <==> i < |d.items| && d.items[i].product.None?
  {
    (if d.user.None? then {UserRequired} else {})
    + (if d.subtotal.None? then {SubtotalRequired} else {})
    + (if d.total.None? then {TotalRequired} else {})
    + set i | 0 <= i < |d.items| && d.items[i].product.None? :: ItemProductRequired(i)
  }

  function StoredItem(d: ItemDraft): OrderItem
    requires d.product.Some?
  {
    OrderItem(d.product.value, d.name, d.price, d.quantity, d.image)
  }

  /** `Order.create`: validate, then store with the schema's defaults
      (paymentMethod 'card', shipping 0, isPaid and isDelivered false). */
  function Create(d: OrderDraft, id: OrderId, now: int): (r: Result<Order, set<OrderError>>)
    ensures r.Err? <==> Errors(d) != {}
    ensures r.Err? ==> r.error == Errors(d)
    ensures r.Ok? ==> r.value.id == id && r.value.createdAt == now
    ensures r.Ok? ==> Some(r.value.user) == d.user && Some(r.value.subtotal) == d.subtotal
                      && Some(r.value.total) == d.total
    ensures r.Ok? ==> |r.value.items| == |d.items|
                      && forall i :: 0 <= i < |d.items| ==>
                           Some(r.value.items[i].product) == d.items[i].product
                           && r.value.items[i].name == d.items[i].name
                           && r.value.items[i].price == d.items[i].price
                           && r.value.items[i].quantity == d.items[i].quantity
                           && r.value.items[i].image == d.items[i].image
    ensures r.Ok? ==> r.value.paymentMethod == (if d.paymentMethod.Some? then d.paymentMethod.value else DEFAULT_PAYMENT_METHOD)
    ensures r.Ok? ==> r.value.shipping == (if d.shipping.Some? then d.shipping.value else 0)
    ensures r.Ok? ==> (r.value.isPaid <==> d.isPaid == Some(true))
    ensures r.Ok? ==> (r.value.isDelivered <==> d.isDelivered == Some(true))
    ensures r.Ok? ==> r.value.paidAt == d.paidAt && r.value.deliveredAt == d.deliveredAt
    ensures r.Ok? ==> r.value.shippingAddress == d.shippingAddress
                      && r.value.stripePaymentIntentId == d.stripePaymentIntentId
                      && r.value.paymentStatus == d.paymentStatus
                      && r.value.gatewayOrderId == d.gatewayOrderId
                      && r.value.gatewayPaymentId.None?
  {
    var errs := Errors(d);
    if errs != {} then Err(errs)
    else
      assert forall i :: 0 <= i < |d.items| ==> d.items[i].product.Some? by {
        forall i | 0 <= i < |d.items| ensures d.items[i].product.Some? {
          assert ItemProductRequired(i) !in errs;
        }
      }
      Ok(Order(
        id,
        d.user.value,
        seq(|d.items|, i requires 0 <= i < |d.items| => StoredItem(d.items[i])),
        d.shippingAddress,
        if d.paymentMethod.Some? then d.paymentMethod.value else DEFAULT_PAYMENT_METHOD,
        d.stripePaymentIntentId,
        d.subtotal.value,
        if d.shipping.Some? then d.shipping.value else 0,
        d.total.value,
        if d.isPaid.Some? then d.isPaid.value else false,
        d.paidAt,
        if d.isDelivered.Some? then d.isDelivered.value else false,
        d.deliveredAt,
        now,
        d.paymentStatus,
        d.gatewayOrderId,
        None))
  }
}
