/** The slide-out cart drawer: the same threshold shipping as the cart page
    but no promo discount, and an empty state. */
module CartDrawer {
  import opened Wrappers
  import opened CartContext
  import Cart

  /** The drawer's own shipping rule: free at 999 or more, otherwise 99. */
  function Shipping(subtotal: int): int {
    if subtotal >= 999 then 0 else 99
  }

  /** Subtotal plus shipping; the drawer has no discount term. */
  function Total(subtotal: int): int {
    subtotal + Shipping(subtotal)
  }

  /** The "add n more for free shipping" line, shown below the threshold. */
  function FreeShippingHint(subtotal: int): Option<int> {
    if subtotal < 999 then Some(999 - subtotal) else None
  }

  /** The drawer's hint appears exactly while shipping is charged, names
      the same amount as the cart page's hint, and that amount is the
      least top-up that makes shipping free. */
  lemma DrawerHintRule(subtotal: int, extra: int)
    ensures FreeShippingHint(subtotal).Some? <==> Shipping(subtotal) == 99
    ensures FreeShippingHint(subtotal) == Cart.FreeShippingHint(subtotal)
    ensures FreeShippingHint(subtotal).Some? ==>
      FreeShippingHint(subtotal).value > 0
      && (Shipping(subtotal + extra) == 0 <==> extra >= FreeShippingHint(subtotal).value)
  {
  }

  /** The drawer renders its empty state instead of the line list. */
  predicate ShowsEmptyState(items: seq<CartItem>) {
    |items| == 0
  }

  /** The drawer and the cart page charge the same shipping on every
      subtotal; the drawer's total differs from the page's by exactly the
      promo discount, so it is never lower and equals it without the promo,
      and it lies between the subtotal and the subtotal plus the fee. */
  lemma DrawerAgreesWithCartPage(subtotal: int, applied: bool)
    ensures Shipping(subtotal) == Cart.Shipping(subtotal)
    ensures Total(subtotal) == Cart.Total(subtotal, applied) + Cart.Discount(subtotal, applied)
    ensures Total(subtotal) == Cart.Total(subtotal, false)
    ensures subtotal >= 0 ==> Total(subtotal) >= Cart.Total(subtotal, applied)
    ensures subtotal <= Total(subtotal) <= subtotal + Cart.ShippingFee
  {
    if subtotal >= 0 {
      Cart.TotalBounds(subtotal, applied);
    }
  }

  /** The empty state is shown exactly when the badge count is 0. */
  lemma EmptyStateIffNoItems(items: seq<CartItem>)
    requires WellFormed(items)
    ensures ShowsEmptyState(items) <==> Count(items) == 0
  {
    CountAtLeastLines(items);
  }
}
