/** The floating cart button on small screens: hidden while the cart is
    empty, otherwise a count badge capped at "99+", "item"/"items", and
    the subtotal. The header's badge uses the same capping rule. */
module FloatingCartButton {
  import opened Wrappers
  import opened Decimal
  import opened CartContext
  import Cart

  /** `itemCount > 99 ? '99+' : itemCount` */
  function Badge(itemCount: int): string {
    if itemCount > 99 then "99+" else IntToString(itemCount)
  }

  /** `itemCount === 1 ? 'item' : 'items'` */
  function Label(itemCount: int): string {
    if itemCount == 1 then "item" else "items"
  }

  /** The badge never needs more than three characters; it reads "99+"
      exactly above 99 and otherwise shows the count itself, which reads
      back as the count. */
  lemma BadgeRule(itemCount: int)
    requires itemCount >= 0
    ensures |Badge(itemCount)| <= 3
    ensures Badge(itemCount) == "99+" <==> itemCount > 99
    ensures itemCount <= 99 ==> ParseInt(Badge(itemCount)) == Some(itemCount)
  {
    if itemCount <= 99 {
      ParseIntRoundTrip(itemCount);
      assert Badge(itemCount) != "99+" by {
        assert |NatToString(itemCount)| <= 2;
      }
    }
  }

  /** What the button shows. */
  datatype ButtonView = ButtonView(badge: string, count: int, noun: string, subtotal: int)

  /** The component: nothing when the count is 0, otherwise the button. */
  function Render(items: seq<CartItem>): Option<ButtonView> {
    var itemCount := Count(items);
    if itemCount == 0 then None
    else Some(ButtonView(Badge(itemCount), itemCount, Label(itemCount), Cart.Subtotal(items)))
  }

  /** For a reachable cart the button is rendered exactly when the cart
      has a line, and then shows the item count, its noun and the same
      subtotal as the cart page; "item" is used for a single unit only. */
  lemma RenderRule(items: seq<CartItem>)
    requires WellFormed(items)
    ensures Render(items).None? <==> items == []
    ensures Render(items).Some? ==>
      && Render(items).value.count == Count(items) >= |items|
      && Render(items).value.subtotal == Cart.Subtotal(items)
      && (Render(items).value.noun == "item" <==> Count(items) == 1)
  {
    CountAtLeastLines(items);
  }
}
