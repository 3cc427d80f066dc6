/** The /orders routes: list the caller's orders newest first, fetch one
    order (404 before 403), and create an order from the caller's cart —
    subtotal, shipping and total computed from live catalog prices, each
    cart line copied into an order line, then the cart emptied. */
module OrderRoutes {
  import opened Base
  import opened OrderModel
  import ProductModel
  import CartRoutes
  import Pricing

  type Catalog = map<ProductId, ProductModel.Product>

  /** Every line's product is still in the catalog, so populating the cart
      yields a product (with a price) for each line. */
  predicate AllResolve(lines: seq<CartRoutes.CartLine>, catalog: Catalog) {
    forall i :: 0 <= i < |lines| ==> lines[i].product in catalog
  }

  /** The `reduce` over the cart: the sum of price × quantity. */
  function Subtotal(lines: seq<CartRoutes.CartLine>, catalog: Catalog): int
    requires AllResolve(lines, catalog)
  {
    if lines == [] then 0
    else catalog[lines[0].product].price * lines[0].quantity + Subtotal(lines[1..], catalog)
  }

  /** The `map` over the cart: one order line per cart line, in order,
      copying the product reference, name, price, quantity and image. */
  function Snapshot(lines: seq<CartRoutes.CartLine>, catalog: Catalog): (items: seq<ItemDraft>)
    requires AllResolve(lines, catalog)
    ensures |items| == |lines|
    ensures forall i :: 0 <= i < |lines| ==>
      var p := catalog[lines[i].product];
      items[i] == ItemDraft(Some(lines[i].product), Some(p.name), Some(p.price), Some(lines[i].quantity), Some(p.image))
  {
    seq(|lines|, i requires 0 <= i < |lines| =>
      var p := catalog[lines[i].product];
      ItemDraft(Some(lines[i].product), Some(p.name), Some(p.price), Some(lines[i].quantity), Some(p.image)))
  }

  predicate Priced(items: seq<OrderItem>) {
    forall i :: 0 <= i < |items| ==> items[i].price.Some? && items[i].quantity.Some?
  }

  /** Σ price × quantity over an order's own lines. */
  function ItemsTotal(items: seq<OrderItem>): int
    requires Priced(items)
  {
    if items == [] then 0
    else items[0].price.value * items[0].quantity.value + ItemsTotal(items[1..])
  }

  /** Order lines that copy the cart's prices and quantities add up to the
      cart's subtotal: the stored order is self-consistent even after the
      catalog later changes a price. */
  lemma {:induction false} SnapshotTotal(lines: seq<CartRoutes.CartLine>, catalog: Catalog, items: seq<OrderItem>)
    requires AllResolve(lines, catalog)
    requires |items| == |lines|
    requires forall i :: 0 <= i < |lines| ==>
      items[i].price == Some(catalog[lines[i].product].price) && items[i].quantity == Some(lines[i].quantity)
    ensures Priced(items) && ItemsTotal(items) == Subtotal(lines, catalog)
  {
    if lines != [] {
      SnapshotTotal(lines[1..], catalog, items[1..]);
    }
  }

  /** The draft the create route hands to `Order.create`. */
  function CartOrderDraft(user: UserId, lines: seq<CartRoutes.CartLine>, catalog: Catalog,
                          address: Address, paymentIntentId: Option<string>): OrderDraft
    requires AllResolve(lines, catalog)
  {
    var subtotal := Subtotal(lines, catalog);
    OrderDraft(
      Some(user), Snapshot(lines, catalog), address,
      None, paymentIntentId,
      Some(subtotal), Some(Pricing.Shipping(subtotal)), Some(Pricing.Total(subtotal)),
      Some(false), None, None, None,
      None, None)
  }

  /** The order the create route stores: owned by the caller, unpaid and
      undelivered, paid by 'card', with subtotal, shipping and total by the
      threshold rule, and one line per cart line copying its product,
      name, price, quantity and image. */
  function NewOrder(user: UserId, lines: seq<CartRoutes.CartLine>, catalog: Catalog,
                    address: Address, paymentIntentId: Option<string>, id: OrderId, now: int): (o: Order)
    requires AllResolve(lines, catalog)
    ensures o.id == id && o.user == user && o.createdAt == now
    ensures !o.isPaid && !o.isDelivered && o.paidAt.None? && o.deliveredAt.None?
    ensures o.paymentMethod == DEFAULT_PAYMENT_METHOD
    ensures o.subtotal == Subtotal(lines, catalog)
    ensures o.shipping == (if o.subtotal > Pricing.FREE_SHIPPING_THRESHOLD then 0 else Pricing.FLAT_SHIPPING)
    ensures o.total == o.subtotal + o.shipping
    ensures |o.items| == |lines|
    ensures forall i :: 0 <= i < |lines| ==>
      var p := catalog[lines[i].product];
      o.items[i] == OrderItem(lines[i].product, Some(p.name), Some(p.price), Some(lines[i].quantity), Some(p.image))
    ensures Priced(o.items) && ItemsTotal(o.items) == o.subtotal
    ensures o.shippingAddress == address && o.stripePaymentIntentId == paymentIntentId
    ensures o.paymentStatus.None? && o.gatewayOrderId.None? && o.gatewayPaymentId.None?
  {
    var d := CartOrderDraft(user, lines, catalog, address, paymentIntentId);
    assert Errors(d) == {};
    var o := Create(d, id, now).value;
    SnapshotTotal(lines, catalog, o.items);
    o
  }

  /** A worked example: lines priced 100 and 60, one of each, give
      subtotal 160, free shipping and total 160. */
  lemma TwoLineExample(catalog: Catalog, a: ProductId, b: ProductId, address: Address)
    requires a in catalog && b in catalog
    requires catalog[a].price == 100 && catalog[b].price == 60
    ensures var o := NewOrder(7, [CartRoutes.CartLine(0, a, 1), CartRoutes.CartLine(1, b, 1)], catalog, address, None, 0, 0);
      o.subtotal == 160 && o.shipping == 0 && o.total == 160
  {
    var lines := [CartRoutes.CartLine(0, a, 1), CartRoutes.CartLine(1, b, 1)];
    assert lines[1..] == [CartRoutes.CartLine(1, b, 1)];
    assert lines[1..][1..] == [];
    assert Subtotal(lines[1..], catalog) == 60;
    assert Subtotal(lines, catalog) == 160;
  }

  /** Order ids are unique. */
  ghost predicate UniqueIds(orders: seq<Order>) {
    forall i, j :: 0 <= i < j < |orders| ==> orders[i].id != orders[j].id
  }

  /** `findById`: the position of the order with that id, or -1. */
  function IndexOfOrder(orders: seq<Order>, id: OrderId): (r: int)
    ensures -1 <= r < |orders|
    ensures r >= 0 ==> orders[r].id == id
    ensures r < 0 <==> forall k :: 0 <= k < |orders| ==> orders[k].id != id
  {
    if orders == [] then -1
    else if orders[0].id == id then 0
    else
      var r := IndexOfOrder(orders[1..], id);
      assert forall k :: 1 <= k < |orders| ==> orders[k] == orders[1..][k - 1];
      if r < 0 then -1 else r + 1
  }

  /** GET /orders/:id: 404 when no order has the id; otherwise 403 when the
      caller does not own it; otherwise the order. */
  function GetOrder(orders: seq<Order>, id: OrderId, caller: UserId): (r: Result<Order, nat>)
    requires UniqueIds(orders)
    ensures r.Err? ==> r.error == NOT_FOUND || r.error == FORBIDDEN
    ensures r == Err(NOT_FOUND) <==> forall k :: 0 <= k < |orders| ==> orders[k].id != id
    ensures r == Err(FORBIDDEN) <==> exists k :: 0 <= k < |orders| && orders[k].id == id && orders[k].user != caller
    ensures r.Ok? ==> r.value in orders && r.value.id == id && r.value.user == caller
    ensures (exists k :: 0 <= k < |orders| && orders[k].id == id && orders[k].user == caller) ==> r.Ok?
  {
    var i := IndexOfOrder(orders, id);
    if i < 0 then Err(NOT_FOUND)
    else if orders[i].user != caller then Err(FORBIDDEN)
    else Ok(orders[i])
  }

  /** Newest first; equal timestamps in any order. */
  predicate NewestFirst(s: seq<Order>) {
    forall i, j :: 0 <= i < j < |s| ==> s[i].createdAt >= s[j].createdAt
  }

  /** `find({ user })`: the caller's orders, in store order. */
  function OwnedBy(orders: seq<Order>, caller: UserId): (r: seq<Order>)
    ensures forall o :: o in r <==> o in orders && o.user == caller
    ensures forall o :: multiset(r)[o] == if o.user == caller then multiset(orders)[o] else 0
  {
    if orders == [] then []
    else
      var rest := OwnedBy(orders[1..], caller);
      assert orders == [orders[0]] + orders[1..];
      assert forall o :: o in orders <==> o == orders[0] || o in orders[1..];
      if orders[0].user == caller then [orders[0]] + rest else rest
  }

  /** The query works order by order: the caller's orders among two runs
      of stored orders are those of the first followed by those of the
      second, so they come in store order. */
  lemma {:induction false} OwnedByAppend(a: seq<Order>, b: seq<Order>, caller: UserId)
    ensures OwnedBy(a + b, caller) == OwnedBy(a, caller) + OwnedBy(b, caller)
  {
    if a == [] {
      assert a + b == b;
    } else {
      assert (a + b)[1..] == a[1..] + b;
      OwnedByAppend(a[1..], b, caller);
    }
  }

  function InsertNewestFirst(o: Order, s: seq<Order>): (r: seq<Order>)
    requires NewestFirst(s)
    ensures NewestFirst(r)
    ensures multiset(r) == multiset(s) + multiset{o}
    ensures |r| == |s| + 1 && (r[0] == o || (s != [] && r[0] == s[0]))
  {
    if s == [] || o.createdAt >= s[0].createdAt then [o] + s
    else
      var rest := InsertNewestFirst(o, s[1..]);
      assert s == [s[0]] + s[1..];
      assert s[0].createdAt >= rest[0].createdAt;
      [s[0]] + rest
  }

  function SortNewestFirst(s: seq<Order>): (r: seq<Order>)
    ensures NewestFirst(r)
    ensures multiset(r) == multiset(s)
  {
    if s == [] then []
    else
      assert s == [s[0]] + s[1..];
      InsertNewestFirst(s[0], SortNewestFirst(s[1..]))
  }

  /** GET /orders: exactly the caller's orders (each as often as stored),
      newest first. */
  function ListOrders(orders: seq<Order>, caller: UserId): (r: seq<Order>)
    ensures NewestFirst(r)
    ensures multiset(r) == multiset(OwnedBy(orders, caller))
    ensures forall o :: multiset(r)[o] == if o.user == caller then multiset(orders)[o] else 0
    ensures forall o :: o in r <==> o in orders && o.user == caller
  {
    var r := SortNewestFirst(OwnedBy(orders, caller));
    assert forall o :: o in r <==> o in multiset(r);
    r
  }

  /** The order collection, in insertion order, and the next free id. */
  class OrderCollection {
    var orders: seq<Order>
    var nextOrderId: OrderId

    ghost predicate Valid()
      reads this
    {
      && UniqueIds(orders)
      && forall i :: 0 <= i < |orders| ==> orders[i].id < nextOrderId
    }

    constructor ()
      ensures Valid() && orders == [] && nextOrderId == 0
    {
      orders := [];
      nextOrderId := 0;
    }

    /** Store a new order under the next id. */
    method Insert(o: Order)
      requires Valid() && o.id == nextOrderId
      modifies this
      ensures Valid()
      ensures orders == old(orders) + [o] && nextOrderId == old(nextOrderId) + 1
    {
      orders := orders + [o];
      nextOrderId := nextOrderId + 1;
    }
  }

  /** POST /orders: 400 when the caller has no cart or an empty one; 500
      when a line's product is gone from the catalog (reading its price
      throws); otherwise store `NewOrder` and empty the cart. */
  method CreateOrder(carts: CartRoutes.CartCollection, store: OrderCollection, catalog: Catalog,
                     user: UserId, address: Address, paymentIntentId: Option<string>, now: int)
    returns (status: nat, order: Option<Order>)
    requires carts.Valid() && store.Valid()
    modifies carts, store
    ensures carts.Valid() && store.Valid()
    ensures carts.nextLineId == old(carts.nextLineId)
    ensures CartRoutes.CartOf(old(carts.carts), user) == [] ==>
      status == BAD_REQUEST && order.None? && carts.carts == old(carts.carts) && store.orders == old(store.orders)
      && store.nextOrderId == old(store.nextOrderId)
    ensures var lines := CartRoutes.CartOf(old(carts.carts), user);
      lines != [] && !AllResolve(lines, catalog) ==>
        status == SERVER_ERROR && order.None? && carts.carts == old(carts.carts) && store.orders == old(store.orders)
        && store.nextOrderId == old(store.nextOrderId)
    ensures var lines := CartRoutes.CartOf(old(carts.carts), user);
      lines != [] && AllResolve(lines, catalog) ==>
        && status == CREATED
        && order == Some(NewOrder(user, lines, catalog, address, paymentIntentId, old(store.nextOrderId), now))
        && store.orders == old(store.orders) + [order.value]
        && store.nextOrderId == old(store.nextOrderId) + 1
        && carts.carts == old(carts.carts)[user := []]
  {
    if user !in carts.carts || carts.carts[user] == [] {
      return BAD_REQUEST, None;
    }
    var lines := carts.carts[user];
    if !AllResolve(lines, catalog) {
      return SERVER_ERROR, None;
    }
    var o := NewOrder(user, lines, catalog, address, paymentIntentId, store.nextOrderId, now);
    store.Insert(o);
    carts.carts := carts.carts[user := []];
    status, order := CREATED, Some(o);
  }
}
