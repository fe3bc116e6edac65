/** The cart page: the order summary (subtotal, promo discount, threshold
    shipping, total), the free-shipping hint, the promo-code box and the
    per-line quantity buttons. */
module Cart {
  import opened Wrappers
  import opened CartContext

  /** Orders at or above this subtotal (in rupees) ship free. */
  const FreeShippingThreshold: int := 999
  /** Shipping charged below the threshold. */
  const ShippingFee: int := 99
  /** The one promo code, compared after lower-casing. */
  const PromoCode: string := "welcome10"

  // ---------------------------------------------------------------------
  // Subtotal (the same reduce appears in the drawer, at checkout and on
  // the floating cart button)

  function LineTotal(item: CartItem): int {
    item.price * item.quantity
  }

  /** `items.reduce((sum, item) => sum + item.price * item.quantity, 0)` */
  function Subtotal(items: seq<CartItem>): int {
    if |items| == 0 then 0 else Subtotal(items[..|items| - 1]) + LineTotal(items[|items| - 1])
  }

  ghost predicate PricesNonNegative(items: seq<CartItem>) {
    forall i :: 0 <= i < |items| ==> items[i].price >= 0
  }

  lemma {:induction false} SubtotalNonNegative(items: seq<CartItem>)
    requires PricesNonNegative(items) && QuantitiesPositive(items)
    ensures Subtotal(items) >= 0
  {
    if |items| > 0 {
      var init := items[..|items| - 1];
      assert PricesNonNegative(init) && QuantitiesPositive(init);
      SubtotalNonNegative(init);
    }
  }

  lemma {:induction false} SubtotalAppend(items: seq<CartItem>, extra: seq<CartItem>)
    ensures Subtotal(items + extra) == Subtotal(items) + Subtotal(extra)
    decreases |extra|
  {
    if |extra| == 0 {
      assert items + extra == items;
    } else {
      var init := extra[..|extra| - 1];
      assert (items + extra)[..|items + extra| - 1] == items + init;
      SubtotalAppend(items, init);
    }
  }

  lemma SubtotalSplitAt(items: seq<CartItem>, k: int)
    requires 0 <= k < |items|
    ensures Subtotal(items) == Subtotal(items[..k]) + LineTotal(items[k]) + Subtotal(items[k + 1..])
  {
    assert items == items[..k] + [items[k]] + items[k + 1..];
    SubtotalAppend(items[..k] + [items[k]], items[k + 1..]);
    SubtotalAppend(items[..k], [items[k]]);
    assert [items[k]][..0] == [];
  }

  lemma SubtotalAfterChangeAt(items: seq<CartItem>, k: int, q: int)
    requires 0 <= k < |items|
    ensures Subtotal(items[k := items[k].(quantity := q)])
         == Subtotal(items) - LineTotal(items[k]) + LineTotal(items[k].(quantity := q))
  {
    var changed := items[k := items[k].(quantity := q)];
    SubtotalSplitAt(items, k);
    SubtotalSplitAt(changed, k);
    assert changed[..k] == items[..k];
    assert changed[k + 1..] == items[k + 1..];
  }

  lemma AddedAt(items: seq<CartItem>, p: Product, k: int)
    requires UniqueIds(items) && 0 <= k < |items| && items[k].id == p.id
    ensures Added(items, p) == items[k := items[k].(quantity := items[k].quantity + 1)]
  {
    assert HasId(items, p.id);
    BumpedAt(items, k);
  }

  /** Adding a product already in the cart raises the subtotal by the
      unit price of the line in the cart; the price passed in is ignored. */
  lemma AddExistingSubtotal(items: seq<CartItem>, p: Product, k: int)
    requires UniqueIds(items) && 0 <= k < |items| && items[k].id == p.id
    ensures Subtotal(Added(items, p)) == Subtotal(items) + items[k].price
  {
    AddedAt(items, p, k);
    SubtotalOneMoreAt(items, k);
  }

  lemma SubtotalOneMoreAt(items: seq<CartItem>, k: int)
    requires 0 <= k < |items|
    ensures Subtotal(items[k := items[k].(quantity := items[k].quantity + 1)]) == Subtotal(items) + items[k].price
  {
    SubtotalAfterChangeAt(items, k, items[k].quantity + 1);
    LineTotalOneMore(items[k]);
  }

  lemma LineTotalOneMore(line: CartItem)
    ensures LineTotal(line.(quantity := line.quantity + 1)) == LineTotal(line) + line.price
  {
    assert line.price * (line.quantity + 1) == line.price * line.quantity + line.price;
  }

  /** Adding a new product raises the subtotal by its price. */
  lemma AddNewSubtotal(items: seq<CartItem>, p: Product)
    requires !HasId(items, p.id)
    ensures Subtotal(Added(items, p)) == Subtotal(items) + p.price
  {
    SubtotalAppend(items, [LineOf(p, 1)]);
    assert [LineOf(p, 1)][..0] == [];
  }

  /** Removing a line takes exactly that line's total off the subtotal. */
  lemma RemovedSubtotal(items: seq<CartItem>, k: int)
    requires UniqueIds(items) && 0 <= k < |items|
    ensures Subtotal(Removed(items, items[k].id)) == Subtotal(items) - LineTotal(items[k])
  {
    RemovedDeletes(items, k);
    SubtotalSplitAt(items, k);
    SubtotalAppend(items[..k], items[k + 1..]);
  }

  // ---------------------------------------------------------------------
  // Promo code

  function LowerChar(c: char): char {
    if 'A' <= c <= 'Z' then (c as int + 32) as char else c
  }

  /** `s.toLowerCase()` on the letters A-Z. */
  function ToLower(s: string): (r: string)
    ensures |r| == |s|
  {
    seq(|s|, i requires 0 <= i < |s| => LowerChar(s[i]))
  }

  predicate IsPromoCode(code: string) {
    ToLower(code) == PromoCode
  }

  /** `c` is `t` written in either case. */
  predicate SameLetterAnyCase(c: char, t: char) {
    c == t || ('a' <= t <= 'z' && c as int == t as int - 32)
  }

  /** The code is accepted exactly when it spells "welcome10" with each
      letter in either case: "WELCOME10" and "Welcome10" are accepted,
      "welcome 10" and "welcome100" are not. */
  lemma PromoCodeIgnoresCase(code: string)
    ensures IsPromoCode(code) <==>
      |code| == |PromoCode| && forall i :: 0 <= i < |code| ==> SameLetterAnyCase(code[i], PromoCode[i])
  {
    if |code| == |PromoCode| {
      forall i | 0 <= i < |code|
        ensures LowerChar(code[i]) == PromoCode[i] <==> SameLetterAnyCase(code[i], PromoCode[i])
      {
      }
      if forall i :: 0 <= i < |code| ==> SameLetterAnyCase(code[i], PromoCode[i]) {
        assert ToLower(code) == PromoCode;
      }
    }
  }

  /** The promo box: the typed code and whether the discount is on. */
  class PromoBox {
    var promoCode: string
    var isPromoApplied: bool

    constructor ()
      ensures promoCode == "" && !isPromoApplied
      ensures ApplyEnabled()
    {
      promoCode := "";
      isPromoApplied := false;
    }

    /** The input's `onChange`. */
    method SetPromoCode(code: string)
      modifies this
      ensures promoCode == code && isPromoApplied == old(isPromoApplied)
    {
      promoCode := code;
    }

    /** `applyPromoCode`: turns the discount on when the code matches;
        otherwise nothing changes. Nothing ever turns it off again. */
    method ApplyPromoCode()
      modifies this
      ensures promoCode == old(promoCode)
      ensures isPromoApplied == (old(isPromoApplied) || IsPromoCode(promoCode))
      ensures !IsPromoCode(promoCode) ==> isPromoApplied == old(isPromoApplied)
      ensures ApplyEnabled() <==> old(ApplyEnabled()) && !IsPromoCode(promoCode)
    {
      if ToLower(promoCode) == PromoCode {
        isPromoApplied := true;
      }
    }

    /** The Apply button is enabled until the promo is applied. */
    function ApplyEnabled(): bool
      reads this
    {
      !isPromoApplied
    }
  }

  // ---------------------------------------------------------------------
  // Order summary

  /** `Math.round(subtotal * 0.1)`: a tenth of the subtotal rounded to the
      nearest integer, halves rounded up. */
  function RoundedTenth(subtotal: int): (r: int)
    ensures 10 * r - 5 <= subtotal < 10 * r + 5
  {
    (subtotal + 5) / 10
  }

  function Discount(subtotal: int, applied: bool): int {
    if applied then RoundedTenth(subtotal) else 0
  }

  /** Threshold shipping on the pre-discount subtotal. */
  function Shipping(subtotal: int): int {
    if subtotal >= FreeShippingThreshold then 0 else ShippingFee
  }

  function Total(subtotal: int, applied: bool): int {
    subtotal - Discount(subtotal, applied) + Shipping(subtotal)
  }

  /** The discount never exceeds the subtotal, so the total is never
      negative; the promo never raises the total, and shipping is decided
      before the discount is taken off. */
  lemma TotalBounds(subtotal: int, applied: bool)
    requires subtotal >= 0
    ensures 0 <= Discount(subtotal, applied) <= subtotal
    ensures Total(subtotal, applied) >= 0
    ensures Total(subtotal, applied) <= Total(subtotal, false)
    ensures Shipping(subtotal) == 0 <==> subtotal >= FreeShippingThreshold
  {
    var r := RoundedTenth(subtotal);
    assert 10 * r - 5 <= subtotal;
  }

  /** The worked cases of the order summary. */
  lemma SummaryExamples()
    ensures Subtotal([]) == 0
    ensures Total(14999 + 2 * 999, false) == 16997
    ensures Total(0, false) == 99
    ensures Shipping(999) == 0 && Shipping(998) == 99
    ensures Discount(1000, true) == 100 && Total(1000, true) == 900
  {
  }

  /** "Add ₹x more for free shipping", shown only below the threshold. */
  function FreeShippingHint(subtotal: int): (r: Option<int>)
    ensures r.Some? <==> subtotal < FreeShippingThreshold
  {
    if subtotal < FreeShippingThreshold then Some(FreeShippingThreshold - subtotal) else None
  }

  /** The amount the hint shows is positive and is exactly the least
      extra spend that makes shipping free. */
  lemma HintIsLeastTopUp(subtotal: int, extra: int)
    requires FreeShippingHint(subtotal).Some?
    ensures FreeShippingHint(subtotal).value > 0
    ensures Shipping(subtotal + extra) == 0 <==> extra >= FreeShippingHint(subtotal).value
  {
  }

  // ---------------------------------------------------------------------
  // Quantity buttons: "-" sends `quantity - 1`, "+" sends `quantity + 1`

  /** "-" on a line of quantity 1 removes the line, keeping the others in
      order; on a larger quantity it lowers that line's quantity by one and
      the item count by one. */
  lemma MinusButton(items: seq<CartItem>, k: int)
    requires WellFormed(items) && 0 <= k < |items|
    ensures var after := Updated(items, items[k].id, items[k].quantity - 1);
      if items[k].quantity == 1 then after == items[..k] + items[k + 1..]
      else after == items[k := items[k].(quantity := items[k].quantity - 1)]
           && Count(after) == Count(items) - 1
  {
    if items[k].quantity == 1 {
      RemovedDeletes(items, k);
    } else {
      UpdateSetsQuantity(items, k, items[k].quantity - 1);
      CountAfterChangeAt(items, k, items[k].quantity - 1);
    }
  }
}
