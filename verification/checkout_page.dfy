/** The checkout page: the redirect of an empty cart, the initial shipping
    form, and what submitting the form sends — the payment request with
    the total by the same threshold rule as the displayed summary.

    Unlike the cart page, checkout sums `item.product.price * item.quantity`
    with no guard: a line without a product throws, and a price that is not
    a number turns the sum into NaN. */
module CheckoutPage {
  import opened Base
  import Api
  import Pricing
  import CartPage
  import OrderModel
  import CartRoutes
  import OrderRoutes
  import PaymentRoutes

  const CURRENCY := "INR"
  const DEFAULT_COUNTRY := "United States"

  datatype Num = Number(value: int) | NaN

  predicate AllProducts(items: seq<Api.CartItemView>) {
    forall i :: 0 <= i < |items| ==> items[i].product.Some?
  }

  predicate AllPriced(items: seq<Api.CartItemView>) {
    forall i :: 0 <= i < |items| ==> items[i].product.Some? && items[i].product.value.price.Some?
  }

  /** The checkout `reduce`: `None` when it throws. */
  function CheckoutSubtotal(items: seq<Api.CartItemView>): (r: Option<Num>)
    ensures r.None? <==> !AllProducts(items)
    ensures r == Some(NaN) <==> AllProducts(items) && !AllPriced(items)
    ensures AllPriced(items) ==> r == Some(Number(CartPage.PageSubtotal(items)))
  {
    if items == [] then Some(Number(0))
    else
      var x := items[0];
      var rest := CheckoutSubtotal(items[1..]);
      assert forall i :: 1 <= i < |items| ==> items[i] == items[1..][i - 1];
      if x.product.None? || rest.None? then None
      else if x.product.value.price.None? || rest.value.NaN? then Some(NaN)
      else Some(Number(x.product.value.price.value * x.quantity + rest.value.value))
  }

  /** `subtotal + (subtotal > 150 ? 0 : 15)`; NaN is not above the
      threshold, and NaN plus anything is NaN. */
  function CheckoutTotal(subtotal: Num): (t: Num)
    ensures subtotal.NaN? <==> t.NaN?
    ensures subtotal.Number? ==> t.value == Pricing.Total(subtotal.value)
  {
    if subtotal.NaN? then NaN else Number(Pricing.Total(subtotal.value))
  }

  /** A number serialises as itself, NaN as `null`. */
  function AsJson(n: Num): Option<int> {
    if n.Number? then Some(n.value) else None
  }

  /** The total the page displays for a loaded cart; `None` when rendering
      it throws. */
  function DisplayedTotal(items: seq<Api.CartItemView>): (t: Option<Num>)
    ensures t.None? <==> !AllProducts(items)
  {
    var s := CheckoutSubtotal(items);
    if s.None? then None else Some(CheckoutTotal(s.value))
  }

  /** The shipping form. */
  datatype ShippingForm = ShippingForm(street: string, city: string, state: string, zipCode: string, country: string)

  /** Each field starts from the saved address when that part is a
      non-empty string, else empty; the country falls back to the United
      States. */
  function InitialAddress(saved: Option<OrderModel.Address>): (f: ShippingForm)
    ensures saved.None? ==> f == ShippingForm("", "", "", "", DEFAULT_COUNTRY)
    ensures saved.Some? ==>
      && f.street == OrElse(saved.value.street, "")
      && f.city == OrElse(saved.value.city, "")
      && f.state == OrElse(saved.value.state, "")
      && f.zipCode == OrElse(saved.value.zipCode, "")
      && f.country == OrElse(saved.value.country, DEFAULT_COUNTRY)
    ensures f.country != ""
  {
    if saved.None? then ShippingForm("", "", "", "", DEFAULT_COUNTRY)
    else
      var a := saved.value;
      ShippingForm(OrElse(a.street, ""), OrElse(a.city, ""), OrElse(a.state, ""), OrElse(a.zipCode, ""),
                   OrElse(a.country, DEFAULT_COUNTRY))
  }

  function ToAddress(f: ShippingForm): OrderModel.Address {
    OrderModel.Address(Some(f.street), Some(f.city), Some(f.state), Some(f.zipCode), Some(f.country))
  }

  /** The redirect effect: nothing before a cart is loaded, back to the
      cart page when it has no lines. `None` when the effect throws on a
      cart without an items list. */
  function RedirectsToCart(cart: Option<Api.CartView>): (r: Option<bool>)
    ensures cart.None? ==> r == Some(false)
    ensures cart.Some? && cart.value.items.Some? ==> r == Some(cart.value.items.value == [])
    ensures cart.Some? && cart.value.items.None? ==> r.None?
  {
    if cart.None? then Some(false)
    else if cart.value.items.None? then None
    else Some(cart.value.items.value == [])
  }

  datatype SubmitEffect =
    | NoAction
    | Throws
    | RequestPayment(amount: Option<int>, currency: string, address: OrderModel.Address)

  /** `handleSubmit`: with no cart or an empty one, nothing happens and no
      payment order is requested; a missing product throws before the
      request; otherwise the payment order is requested for the total, in
      rupees, to the form's address. */
  function Submit(cart: Option<Api.CartView>, form: ShippingForm): (e: SubmitEffect)
    ensures cart.None? ==> e == NoAction
    ensures cart.Some? && cart.value.items == Some([]) ==> e == NoAction
    ensures cart.Some? && cart.value.items.None? ==> e == Throws
    ensures cart.Some? && cart.value.items.Some? && cart.value.items.value != [] && !AllProducts(cart.value.items.value)
      ==> e == Throws
    ensures e.RequestPayment? <==>
      cart.Some? && cart.value.items.Some? && cart.value.items.value != [] && AllProducts(cart.value.items.value)
    ensures e.RequestPayment? ==>
      && e.currency == CURRENCY && e.address == ToAddress(form)
      && e.amount == AsJson(DisplayedTotal(cart.value.items.value).value)
  {
    if cart.None? then NoAction
    else if cart.value.items.None? then Throws
    else if cart.value.items.value == [] then NoAction
    else
      var s := CheckoutSubtotal(cart.value.items.value);
      if s.None? then Throws
      else RequestPayment(AsJson(CheckoutTotal(s.value)), CURRENCY, ToAddress(form))
  }

  /** When every line is priced, checkout asks for the cart page's total. */
  lemma SubmittedMatchesCartPage(cart: Api.CartView, form: ShippingForm)
    requires cart.items.Some? && cart.items.value != [] && AllPriced(cart.items.value)
    ensures Submit(Some(cart), form).RequestPayment?
    ensures Submit(Some(cart), form).amount == Some(CartPage.Summarize(Some(cart)).total)
  {
    CartPage.VisibleKeepsSubtotal(cart.items.value);
  }

  /** A line with a non-numeric price makes the request carry no amount,
      which the payment route answers with 400. */
  lemma NaNAmountRejected(cart: Api.CartView, form: ShippingForm)
    requires cart.items.Some? && cart.items.value != []
    requires AllProducts(cart.items.value) && !AllPriced(cart.items.value)
    ensures Submit(Some(cart), form).RequestPayment?
    ensures !PaymentRoutes.ValidAmount(Submit(Some(cart), form).amount)
  {
  }

  /** The received lines show the server's lines at the catalog's prices. */
  predicate ShowsLines(items: seq<Api.CartItemView>, lines: seq<CartRoutes.CartLine>, catalog: OrderRoutes.Catalog)
  {
    && OrderRoutes.AllResolve(lines, catalog)
    && |items| == |lines|
    && forall i :: 0 <= i < |lines| ==>
         items[i].product == Some(Api.ProductView(Some(catalog[lines[i].product].price)))
         && items[i].quantity == lines[i].quantity
  }

  lemma {:induction false} SubtotalMatchesServer(items: seq<Api.CartItemView>, lines: seq<CartRoutes.CartLine>,
                                                 catalog: OrderRoutes.Catalog)
    requires ShowsLines(items, lines, catalog)
    ensures CheckoutSubtotal(items) == Some(Number(OrderRoutes.Subtotal(lines, catalog)))
  {
    if lines != [] {
      assert ShowsLines(items[1..], lines[1..], catalog);
      SubtotalMatchesServer(items[1..], lines[1..], catalog);
    }
  }

  /** For a cart showing the server's lines, the amount checkout submits
      is the total of the order the order route would create from the same
      cart, and for a non-negative subtotal the payment route accepts it. */
  lemma SubmittedMatchesServerOrder(items: seq<Api.CartItemView>, lines: seq<CartRoutes.CartLine>,
                                    catalog: OrderRoutes.Catalog, form: ShippingForm,
                                    user: UserId, id: OrderId, now: int)
    requires lines != [] && ShowsLines(items, lines, catalog)
    ensures var e := Submit(Some(Api.CartView(Some(items))), form);
      && e.RequestPayment?
      && e.amount == Some(OrderRoutes.NewOrder(user, lines, catalog, ToAddress(form), None, id, now).total)
    ensures OrderRoutes.Subtotal(lines, catalog) >= 0 ==>
      PaymentRoutes.ValidAmount(Submit(Some(Api.CartView(Some(items))), form).amount)
  {
    SubtotalMatchesServer(items, lines, catalog);
  }
}
