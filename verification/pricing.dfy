/** The shipping rule shared by the order route and the cart and checkout
    pages: free shipping strictly above 150 currency units, a flat 15
    otherwise. Money is in whole currency units. */
module Pricing {

  const FREE_SHIPPING_THRESHOLD: int := 150
  const FLAT_SHIPPING: int := 15

  function Shipping(subtotal: int): (fee: int)
    ensures fee == 0 || fee == FLAT_SHIPPING
    ensures fee == 0 <==> subtotal > FREE_SHIPPING_THRESHOLD
  {
    if subtotal > FREE_SHIPPING_THRESHOLD then 0 else FLAT_SHIPPING
  }

  /** What the customer pays: the subtotal plus the shipping fee. */
  function Total(subtotal: int): (total: int)
    ensures total - subtotal == Shipping(subtotal)
    ensures subtotal > FREE_SHIPPING_THRESHOLD ==> total == subtotal
  {
    subtotal + Shipping(subtotal)
  }

  /** The strict threshold makes the total non-monotone: a cart worth exactly
      the threshold costs more than one worth one unit more. */
  lemma TotalDropsAcrossThreshold()
    ensures Total(FREE_SHIPPING_THRESHOLD) == 165
    ensures Total(FREE_SHIPPING_THRESHOLD + 1) == 151
    ensures Total(0) == FLAT_SHIPPING
  {
  }
}
