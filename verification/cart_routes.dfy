/** The per-user cart behind the /cart routes. Each user owns at most one
    cart, a sequence of lines (line id, product, quantity); the handlers
    fetch it (creating it on first access), add a product (merging into an
    existing line), set a line's quantity (never below 1), remove a line and
    clear the cart. */
module CartRoutes {
  import opened Base
  import ProductModel

  datatype CartLine = CartLine(id: LineId, product: ProductId, quantity: int)

  /** How a handler looks a line up: by its product (`findIndex` on the
      product reference) or by its own id (`items.id(...)`). */
  datatype Key = ByProduct(product: ProductId) | ById(id: LineId)

  predicate Matches(line: CartLine, key: Key) {
    match key
    case ByProduct(p) => line.product == p
    case ById(id) => line.id == id
  }

  /** Position of the first line matching `key`, or -1 when none does. */
  function IndexOf(items: seq<CartLine>, key: Key): (r: int)
    ensures -1 <= r < |items|
    ensures r >= 0 ==> Matches(items[r], key)
    ensures forall k :: 0 <= k < |items| && (r < 0 || k < r) ==> !Matches(items[k], key)
  {
    if items == [] then -1
    else if Matches(items[0], key) then 0
    else
      var r := IndexOf(items[1..], key);
      assert forall k :: 1 <= k < |items| ==> items[k] == items[1..][k - 1];
      if r < 0 then -1 else r + 1
  }

  /** The result of a `findIndex` for a product is the position `IndexOf`
      gives: the first match is unique. */
  lemma FirstProductIsIndexOf(items: seq<CartLine>, product: ProductId, idx: int)
    requires -1 <= idx < |items|
    requires idx >= 0 ==> items[idx].product == product
    requires forall k :: 0 <= k < |items| && (idx < 0 || k < idx) ==> items[k].product != product
    ensures idx == IndexOf(items, ByProduct(product))
  {
    var j := IndexOf(items, ByProduct(product));
    if idx >= 0 { assert Matches(items[idx], ByProduct(product)); }
    if j >= 0 { assert items[j].product == product; }
  }

  /** Every line id is below the store's next id; line ids are distinct and
      no product has two lines. */
  ghost predicate WellFormed(items: seq<CartLine>, bound: LineId) {
    && (forall i :: 0 <= i < |items| ==> items[i].id < bound)
    && (forall i, j :: 0 <= i < j < |items| ==> items[i].id != items[j].id)
    && (forall i, j :: 0 <= i < j < |items| ==> items[i].product != items[j].product)
  }

  /** The quantity an add request stands for: 1 when the body leaves it out. */
  function RequestedQuantity(quantity: Option<int>): int {
    if quantity.Some? then quantity.value else 1
  }

  /** The lines after adding `quantity` of `product`: the existing line's
      quantity grows, or one new line with id `newId` is appended. */
  function Added(items: seq<CartLine>, product: ProductId, quantity: int, newId: LineId): seq<CartLine> {
    var i := IndexOf(items, ByProduct(product));
    if i >= 0 then items[i := items[i].(quantity := items[i].quantity + quantity)]
    else items + [CartLine(newId, product, quantity)]
  }

  function Max(a: int, b: int): int {
    if a >= b then a else b
  }

  /** The lines after setting line `id` to `quantity`, clamped to at least 1. */
  function WithQuantity(items: seq<CartLine>, id: LineId, quantity: int): seq<CartLine> {
    var i := IndexOf(items, ById(id));
    if i >= 0 then items[i := items[i].(quantity := Max(1, quantity))] else items
  }

  /** The lines with position `i` dropped, the rest in order. */
  function Without(items: seq<CartLine>, i: nat): (r: seq<CartLine>)
    requires i < |items|
    ensures |r| == |items| - 1
    ensures forall k :: 0 <= k < i ==> r[k] == items[k]
    ensures forall k :: i <= k < |r| ==> r[k] == items[k + 1]
  {
    items[..i] + items[i + 1..]
  }

  /** The lines after dropping line `id`, if there is one. */
  function Removed(items: seq<CartLine>, id: LineId): seq<CartLine> {
    var i := IndexOf(items, ById(id));
    if i >= 0 then Without(items, i) else items
  }

  /** Adding a product already in the cart keeps the number of lines, adds
      to that line's quantity only, and touches no other line. */
  lemma AddExisting(items: seq<CartLine>, product: ProductId, quantity: int, newId: LineId, i: nat)
    requires i < |items| && items[i].product == product
    requires WellFormed(items, newId)
    ensures var r := Added(items, product, quantity, newId);
      && |r| == |items|
      && r[i] == items[i].(quantity := items[i].quantity + quantity)
      && forall k :: 0 <= k < |items| && k != i ==> r[k] == items[k]
  {
    var j := IndexOf(items, ByProduct(product));
    assert Matches(items[i], ByProduct(product));
    assert items[j].product == product;
  }

  /** Adding a product that is not in the cart appends exactly one line. */
  lemma AddNew(items: seq<CartLine>, product: ProductId, quantity: int, newId: LineId)
    requires forall k :: 0 <= k < |items| ==> items[k].product != product
    ensures Added(items, product, quantity, newId) == items + [CartLine(newId, product, quantity)]
  {
  }

  /** Adding keeps the cart well formed with the next id one higher. */
  lemma AddWellFormed(items: seq<CartLine>, product: ProductId, quantity: int, newId: LineId)
    requires WellFormed(items, newId)
    ensures WellFormed(Added(items, product, quantity, newId), newId + 1)
  {
    var i := IndexOf(items, ByProduct(product));
    var r := Added(items, product, quantity, newId);
    if i < 0 {
      assert r == items + [CartLine(newId, product, quantity)];
      forall a, b | 0 <= a < b < |r| ensures r[a].product != r[b].product {
        if b == |items| { assert !Matches(items[a], ByProduct(product)); }
      }
    } else {
      assert |r| == |items|;
      forall a, b | 0 <= a < b < |r| ensures r[a].id != r[b].id && r[a].product != r[b].product {
        assert r[a].id == items[a].id && r[a].product == items[a].product;
        assert r[b].id == items[b].id && r[b].product == items[b].product;
      }
    }
  }

  /** Adding the same new product twice, first q1 and then q2, leaves one
      line for it holding q1 + q2, never two lines. */
  lemma {:induction false} AddTwice(items: seq<CartLine>, product: ProductId, q1: int, q2: int, id1: LineId, id2: LineId)
    requires forall k :: 0 <= k < |items| ==> items[k].product != product
    ensures Added(Added(items, product, q1, id1), product, q2, id2) == items + [CartLine(id1, product, q1 + q2)]
  {
    AddNew(items, product, q1, id1);
    var once := items + [CartLine(id1, product, q1)];
    assert forall k :: 0 <= k < |items| ==> once[k] == items[k];
    assert Matches(once[|items|], ByProduct(product));
  }

  /** Setting a line's quantity stores max(1, requested) on that line and
      leaves the number of lines and every other line as they were. */
  lemma UpdateClamps(items: seq<CartLine>, id: LineId, quantity: int)
    requires IndexOf(items, ById(id)) >= 0
    ensures var r := WithQuantity(items, id, quantity);
      var i := IndexOf(items, ById(id));
      && |r| == |items|
      && r[i].id == id && r[i].product == items[i].product
      && r[i].quantity >= 1
      && (quantity >= 1 ==> r[i].quantity == quantity)
      && (quantity < 1 ==> r[i].quantity == 1)
      && forall k :: 0 <= k < |items| && k != i ==> r[k] == items[k]
  {
  }

  /** Removing an id that no line has leaves the lines as they were. */
  lemma RemoveMissing(items: seq<CartLine>, id: LineId)
    requires forall k :: 0 <= k < |items| ==> items[k].id != id
    ensures Removed(items, id) == items
  {
  }

  /** Removing a line that is there drops exactly that one line: the other
      lines stay, in order, and (ids being distinct) no line with that id
      is left. */
  lemma RemovePresent(items: seq<CartLine>, id: LineId, bound: LineId, i: nat)
    requires WellFormed(items, bound)
    requires i < |items| && items[i].id == id
    ensures Removed(items, id) == items[..i] + items[i + 1..]
    ensures |Removed(items, id)| == |items| - 1
    ensures multiset(Removed(items, id)) + multiset{items[i]} == multiset(items)
    ensures forall k :: 0 <= k < |items| - 1 ==> Removed(items, id)[k].id != id
  {
    var j := IndexOf(items, ById(id));
    assert Matches(items[i], ById(id));
    assert items[j].id == id;
    assert items == items[..i] + [items[i]] + items[i + 1..];
    var r := items[..i] + items[i + 1..];
    forall k | 0 <= k < |r| ensures r[k].id != id {
      if k < i { assert r[k] == items[k]; } else { assert r[k] == items[k + 1]; }
    }
  }

  /** Dropping one line keeps the cart well formed. */
  lemma WithoutWellFormed(items: seq<CartLine>, i: nat, bound: LineId)
    requires WellFormed(items, bound) && i < |items|
    ensures WellFormed(Without(items, i), bound)
  {
    var r := Without(items, i);
    forall a, b | 0 <= a < b < |r| ensures r[a].id != r[b].id && r[a].product != r[b].product {
      var a' := if a < i then a else a + 1;
      var b' := if b < i then b else b + 1;
      assert a' < b' && r[a] == items[a'] && r[b] == items[b'];
    }
  }

  /** Removing keeps the cart well formed. */
  lemma RemoveWellFormed(items: seq<CartLine>, id: LineId, bound: LineId)
    requires WellFormed(items, bound)
    ensures WellFormed(Removed(items, id), bound)
  {
    var i := IndexOf(items, ById(id));
    if i >= 0 {
      WithoutWellFormed(items, i, bound);
    }
  }

  /** A cart well formed below one id bound is well formed below any
      larger one. */
  lemma WellFormedWider(items: seq<CartLine>, bound: LineId, wider: LineId)
    requires WellFormed(items, bound) && bound <= wider
    ensures WellFormed(items, wider)
  {
  }

  /** The lines a user's cart holds, an absent cart read as empty. */
  function CartOf(carts: map<UserId, seq<CartLine>>, user: UserId): seq<CartLine> {
    if user in carts then carts[user] else []
  }

  /** The cart collection: one line sequence per user that has a cart, and
      the next free line id. */
  class CartCollection {
    var carts: map<UserId, seq<CartLine>>
    var nextLineId: LineId

    ghost predicate Valid()
      reads this
    {
      forall u | u in carts :: WellFormed(carts[u], nextLineId)
    }

    constructor ()
      ensures Valid() && carts == map[] && nextLineId == 0
    {
      carts := map[];
      nextLineId := 0;
    }

    /** `findIndex` over the cart's lines for the one holding `product`. */
    static method FindProduct(items: seq<CartLine>, product: ProductId) returns (idx: int)
      ensures -1 <= idx < |items|
      ensures idx >= 0 ==> items[idx].product == product
      ensures forall k :: 0 <= k < |items| && (idx < 0 || k < idx) ==> items[k].product != product
    {
      idx := 0;
      while idx < |items|
        invariant 0 <= idx <= |items|
        invariant forall k :: 0 <= k < idx ==> items[k].product != product
      {
        if items[idx].product == product {
          return;
        }
        idx := idx + 1;
      }
      idx := -1;
    }

    /** The body of the add handler on one cart: grow the quantity of the
        line holding `product`, or append a line for it. */
    static method MergeLine(items: seq<CartLine>, product: ProductId, quantity: int, newId: LineId)
      returns (next: seq<CartLine>)
      ensures next == Added(items, product, quantity, newId)
    {
      var i := FindProduct(items, product);
      FirstProductIsIndexOf(items, product, i);
      if i >= 0 {
        next := items[i := items[i].(quantity := items[i].quantity + quantity)];
      } else {
        next := items + [CartLine(newId, product, quantity)];
      }
    }

    /** GET /cart: the caller's cart, created empty when there is none; it
        never answers "not found". */
    method Fetch(user: UserId) returns (items: seq<CartLine>)
      requires Valid()
      modifies this
      ensures Valid()
      ensures user in carts && items == carts[user] == CartOf(old(carts), user)
      ensures carts == old(carts)[user := CartOf(old(carts), user)]
      ensures nextLineId == old(nextLineId)
    {
      if user !in carts {
        carts := carts[user := []];
      }
      items := carts[user];
    }

    /** POST /cart: 404 for a product the catalog does not hold (no cart is
        created then); otherwise merge into the line for that product or
        append one, with the quantity defaulting to 1 and not validated. */
    method Add(catalog: map<ProductId, ProductModel.Product>, user: UserId, productId: ProductId, quantity: Option<int>)
      returns (status: nat, items: seq<CartLine>)
      requires Valid()
      modifies this
      ensures Valid()
      ensures productId !in catalog ==>
        status == NOT_FOUND && items == [] && carts == old(carts) && nextLineId == old(nextLineId)
      ensures productId in catalog ==>
        && status == OK
        && carts == old(carts)[user := Added(CartOf(old(carts), user), productId, RequestedQuantity(quantity), old(nextLineId))]
        && items == carts[user]
        && nextLineId == old(nextLineId) + 1
    {
      if productId !in catalog {
        return NOT_FOUND, [];
      }
      var q := RequestedQuantity(quantity);
      var current := if user in carts then carts[user] else [];
      AddWellFormed(current, productId, q, nextLineId);
      current := MergeLine(current, productId, q, nextLineId);
      forall u | u in carts && u != user ensures WellFormed(carts[u], nextLineId + 1) {
        WellFormedWider(carts[u], nextLineId, nextLineId + 1);
      }
      carts := carts[user := current];
      nextLineId := nextLineId + 1;
      status, items := OK, current;
    }

    /** PUT /cart/:itemId: 404 when the caller has no cart or the cart has
        no such line; otherwise that line's quantity becomes max(1, quantity). */
    method Update(user: UserId, lineId: LineId, quantity: int) returns (status: nat, items: seq<CartLine>)
      requires Valid()
      modifies this
      ensures Valid() && nextLineId == old(nextLineId)
      ensures user !in old(carts) ==> status == NOT_FOUND && carts == old(carts)
      ensures user in old(carts) && IndexOf(old(carts)[user], ById(lineId)) < 0 ==>
        status == NOT_FOUND && carts == old(carts)
      ensures user in old(carts) && IndexOf(old(carts)[user], ById(lineId)) >= 0 ==>
        && status == OK
        && carts == old(carts)[user := WithQuantity(old(carts)[user], lineId, quantity)]
        && items == carts[user]
    {
      if user !in carts {
        return NOT_FOUND, [];
      }
      var i := IndexOf(carts[user], ById(lineId));
      if i < 0 {
        return NOT_FOUND, [];
      }
      items := WithQuantity(carts[user], lineId, quantity);
      assert WellFormed(items, nextLineId) by {
        var old_ := carts[user];
        assert forall k :: 0 <= k < |items| ==> items[k].id == old_[k].id && items[k].product == old_[k].product;
      }
      carts := carts[user := items];
      status := OK;
    }

    /** DELETE /cart/:itemId: 404 only when the caller has no cart; a line id
        that is not in the cart is ignored and the cart saved as it was. */
    method Remove(user: UserId, lineId: LineId) returns (status: nat, items: seq<CartLine>)
      requires Valid()
      modifies this
      ensures Valid() && nextLineId == old(nextLineId)
      ensures user !in old(carts) ==> status == NOT_FOUND && carts == old(carts)
      ensures user in old(carts) ==>
        && status == OK
        && carts == old(carts)[user := Removed(old(carts)[user], lineId)]
        && items == carts[user]
    {
      if user !in carts {
        return NOT_FOUND, [];
      }
      RemoveWellFormed(carts[user], lineId, nextLineId);
      items := Removed(carts[user], lineId);
      carts := carts[user := items];
      status := OK;
    }

    /** DELETE /cart: 404 only when the caller has no cart; otherwise the
        cart is kept and emptied, so clearing twice is the same as once. */
    method Clear(user: UserId) returns (status: nat)
      requires Valid()
      modifies this
      ensures Valid() && nextLineId == old(nextLineId)
      ensures user !in old(carts) ==> status == NOT_FOUND && carts == old(carts)
      ensures user in old(carts) ==> status == OK && carts == old(carts)[user := []]
    {
      if user !in carts {
        return NOT_FOUND;
      }
      carts := carts[user := []];
      status := OK;
    }
  }
}
