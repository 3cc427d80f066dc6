/** The cart page: the quantity stepper, the lines it shows, and the order
    summary (subtotal, shipping, total, and the free-shipping hint). */
module CartPage {
  import opened Base
  import Api
  import Pricing

  /** The stepper asks for `max(1, current + delta)`. */
  function StepperQuantity(current: int, delta: int): (q: int)
    ensures q >= 1
    ensures q >= current + delta
    ensures q == 1 || q == current + delta
  {
    if current + delta >= 1 then current + delta else 1
  }

  /** `cart?.items || []`. */
  function ItemsOf(cart: Option<Api.CartView>): seq<Api.CartItemView> {
    if cart.Some? && cart.value.items.Some? then cart.value.items.value else []
  }

  /** The lines shown: those whose product was found, in order. */
  function Visible(items: seq<Api.CartItemView>): (r: seq<Api.CartItemView>)
    ensures |r| <= |items|
    ensures forall x :: x in r <==> x in items && x.product.Some?
    ensures forall x :: multiset(r)[x] == if x.product.Some? then multiset(items)[x] else 0
  {
    if items == [] then []
    else
      var rest := Visible(items[1..]);
      assert items == [items[0]] + items[1..];
      assert forall x :: x in items <==> x == items[0] || x in items[1..];
      if items[0].product.Some? then [items[0]] + rest else rest
  }

  /** The filter works line by line: the lines shown for two runs of lines
      are those shown for the first followed by those for the second, so
      the shown lines keep the cart's order. */
  lemma {:induction false} VisibleAppend(a: seq<Api.CartItemView>, b: seq<Api.CartItemView>)
    ensures Visible(a + b) == Visible(a) + Visible(b)
  {
    if a == [] {
      assert a + b == b;
    } else {
      assert (a + b)[1..] == a[1..] + b;
      VisibleAppend(a[1..], b);
    }
  }

  /** Σ price × quantity over the lines that have a product with a numeric
      price; every other line adds nothing. */
  function PageSubtotal(items: seq<Api.CartItemView>): int {
    if items == [] then 0
    else
      var x := items[0];
      (if x.product.Some? && x.product.value.price.Some? then x.product.value.price.value * x.quantity else 0)
      + PageSubtotal(items[1..])
  }

  /** Dropping the lines without a product does not change the subtotal:
      the filter and the guard in the sum agree. */
  lemma {:induction false} VisibleKeepsSubtotal(items: seq<Api.CartItemView>)
    ensures PageSubtotal(Visible(items)) == PageSubtotal(items)
  {
    if items != [] {
      VisibleKeepsSubtotal(items[1..]);
      if items[0].product.Some? {
        assert ([items[0]] + Visible(items[1..]))[1..] == Visible(items[1..]);
      }
    }
  }

  datatype Summary = Summary(subtotal: int, shipping: int, total: int, showHint: bool, showEmpty: bool)

  /** The summary panel: the threshold rule on the page subtotal; the
      free-shipping hint exactly when shipping is charged; the empty view
      exactly when no line is shown. */
  function Summarize(cart: Option<Api.CartView>): (s: Summary)
    ensures s.subtotal == PageSubtotal(Visible(ItemsOf(cart)))
    ensures s.shipping == 0 <==> s.subtotal > Pricing.FREE_SHIPPING_THRESHOLD
    ensures s.shipping == 0 || s.shipping == Pricing.FLAT_SHIPPING
    ensures s.total == s.subtotal + s.shipping
    ensures s.showHint <==> s.subtotal <= Pricing.FREE_SHIPPING_THRESHOLD
    ensures s.showEmpty <==> forall x :: x in ItemsOf(cart) ==> x.product.None?
  {
    var shown := Visible(ItemsOf(cart));
    var subtotal := PageSubtotal(shown);
    var shipping := Pricing.Shipping(subtotal);
    assert shown == [] <==> forall x :: x in ItemsOf(cart) ==> x.product.None? by {
      if shown != [] {
        assert shown[0] in shown;
      }
    }
    Summary(subtotal, shipping, subtotal + shipping, shipping > 0, shown == [])
  }
}
