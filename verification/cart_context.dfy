/** The browser's shared cart state: the cart last received from the
    server, a loading flag, the refresh that fetches it, the four mutators
    that replace it with the server's answer, and the item count shown on
    the cart badge. */
module CartContext {
  import opened Base
  import Api
  import CartRoutes

  /** Σ quantity over the received lines. */
  function QuantitySum(items: seq<Api.CartItemView>): int {
    if items == [] then 0 else items[0].quantity + QuantitySum(items[1..])
  }

  /** `cartCount`: the sum of the line quantities, or 0 when there is no
      cart or it carries no items. */
  function CartCount(cart: Option<Api.CartView>): (n: int)
    ensures cart.None? || cart.value.items.None? ==> n == 0
    ensures cart.Some? && cart.value.items.Some? ==> n == QuantitySum(cart.value.items.value)
  {
    if cart.Some? && cart.value.items.Some? then QuantitySum(cart.value.items.value) else 0
  }

  /** Σ quantity over the server's lines. */
  function LinesQuantity(lines: seq<CartRoutes.CartLine>): int {
    if lines == [] then 0 else lines[0].quantity + LinesQuantity(lines[1..])
  }

  /** A received cart mirrors the server's lines: same lines, in order,
      with the same ids and quantities. */
  predicate Mirrors(view: seq<Api.CartItemView>, lines: seq<CartRoutes.CartLine>) {
    |view| == |lines|
    && forall i :: 0 <= i < |lines| ==> view[i].id == lines[i].id && view[i].quantity == lines[i].quantity
  }

  lemma {:induction false} MirrorCount(view: seq<Api.CartItemView>, lines: seq<CartRoutes.CartLine>)
    requires Mirrors(view, lines)
    ensures QuantitySum(view) == LinesQuantity(lines)
  {
    if lines != [] {
      MirrorCount(view[1..], lines[1..]);
    }
  }

  lemma {:induction false} LinesQuantityAppend(lines: seq<CartRoutes.CartLine>, line: CartRoutes.CartLine)
    ensures LinesQuantity(lines + [line]) == LinesQuantity(lines) + line.quantity
  {
    if lines != [] {
      assert (lines + [line])[1..] == lines[1..] + [line];
      LinesQuantityAppend(lines[1..], line);
    }
  }

  lemma {:induction false} LinesQuantityUpdate(lines: seq<CartRoutes.CartLine>, i: nat, line: CartRoutes.CartLine)
    requires i < |lines|
    ensures LinesQuantity(lines[i := line]) == LinesQuantity(lines) - lines[i].quantity + line.quantity
  {
    if i > 0 {
      assert lines[i := line][1..] == lines[1..][i - 1 := line];
      LinesQuantityUpdate(lines[1..], i - 1, line);
    }
  }

  /** After the server adds `quantity` of a product — merged into its line
      or appended as a new one — the badge of a cart mirroring the answer
      grows by exactly `quantity`. */
  lemma CountAfterAdd(before: seq<Api.CartItemView>, after: seq<Api.CartItemView>,
                      lines: seq<CartRoutes.CartLine>, product: ProductId, quantity: int, newId: LineId)
    requires Mirrors(before, lines)
    requires Mirrors(after, CartRoutes.Added(lines, product, quantity, newId))
    ensures QuantitySum(after) == QuantitySum(before) + quantity
  {
    MirrorCount(before, lines);
    MirrorCount(after, CartRoutes.Added(lines, product, quantity, newId));
    var i := CartRoutes.IndexOf(lines, CartRoutes.ByProduct(product));
    if i >= 0 {
      LinesQuantityUpdate(lines, i, lines[i].(quantity := lines[i].quantity + quantity));
    } else {
      LinesQuantityAppend(lines, CartRoutes.CartLine(newId, product, quantity));
    }
  }

  /** A fetched cart with no items gets an empty list; otherwise it is kept
      as received. */
  function Normalized(v: Api.CartView): (n: Api.CartView)
    ensures n.items.Some?
    ensures v.items.Some? ==> n == v
    ensures v.items.None? ==> n.items == Some([])
  {
    if v.items.None? then v.(items := Some([])) else v
  }

  datatype Mutation = AddItem | UpdateItem | RemoveItem | ClearItems

  /** The error each mutator throws when nobody is signed in. */
  function SignInMessage(m: Mutation): string {
    match m
    case AddItem => "You must be logged in to add items to cart"
    case UpdateItem => "You must be logged in to update cart"
    case RemoveItem => "You must be logged in to remove items from cart"
    case ClearItems => "You must be logged in to clear cart"
  }

  class CartState {
    var cart: Option<Api.CartView>
    var loading: bool

    constructor ()
      ensures cart.None? && loading
    {
      cart := None;
      loading := true;
    }

    /** `refreshCart`. Signed out: no cart and not loading, without asking
        the server (`fetched` is not consulted). Signed in: the fetched
        cart, normalised, or no cart when the fetch failed; loading ends
        either way. */
    method Refresh(isAuthenticated: bool, fetched: Result<Api.CartView, Api.Failure>)
      modifies this
      ensures !loading
      ensures !isAuthenticated ==> cart.None?
      ensures isAuthenticated && fetched.Ok? ==> cart == Some(Normalized(fetched.value))
      ensures isAuthenticated && fetched.Err? ==> cart.None?
      ensures cart.Some? ==> cart.value.items.Some?
    {
      if !isAuthenticated {
        cart := None;
        loading := false;
        return;
      }
      loading := true;
      if fetched.Ok? {
        cart := Some(Normalized(fetched.value));
      } else {
        cart := None;
      }
      loading := false;
    }

    /** `addToCart`, `updateCartItem`, `removeCartItem`, `clearCart`.
        Signed out: throw the mutator's message without calling the API,
        cart unchanged. Signed in: the API is called; its cart replaces the
        state, or its error is rethrown with the state unchanged. */
    method Mutate(m: Mutation, isAuthenticated: bool, response: Result<Api.CartView, Api.Failure>)
      returns (apiCalled: bool, thrown: Option<Api.Failure>)
      modifies this
      ensures loading == old(loading)
      ensures !isAuthenticated ==>
        !apiCalled && thrown == Some(Api.Failure(Api.PlainError, SignInMessage(m))) && cart == old(cart)
      ensures isAuthenticated && response.Ok? ==>
        apiCalled && thrown.None? && cart == Some(response.value)
      ensures isAuthenticated && response.Err? ==>
        apiCalled && thrown == Some(response.error) && cart == old(cart)
    {
      if !isAuthenticated {
        return false, Some(Api.Failure(Api.PlainError, SignInMessage(m)));
      }
      if response.Ok? {
        cart := Some(response.value);
        return true, None;
      }
      return true, Some(response.error);
    }
  }
}
