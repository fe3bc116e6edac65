/** The featured-products carousel: how many cards fit the viewport, how
    many slide positions that leaves, the wrapping next/previous buttons,
    the dots, and the price text turned into a number for the cart. */
module ProductCarousel {
  import opened Wrappers
  import opened Decimal
  import CartContext

  /** `getItemsPerView()`: the breakpoints 640, 768 and 1024; `None` is the
      case where there is no window, which falls back to 4. */
  function ItemsPerView(width: Option<int>): (n: int)
    ensures 1 <= n <= 4
  {
    match width
    case None => 4
    case Some(w) => if w < 640 then 1 else if w < 768 then 2 else if w < 1024 then 3 else 4
  }

  /** A wider viewport never shows fewer cards. */
  lemma ItemsPerViewMonotone(narrow: int, wide: int)
    requires narrow <= wide
    ensures ItemsPerView(Some(narrow)) <= ItemsPerView(Some(wide))
    ensures ItemsPerView(Some(wide)) <= ItemsPerView(None)
  {
  }

  /** `Math.max(1, Math.ceil(n - itemsPerView + 1))`; both operands are
      integers, so the ceiling changes nothing. */
  function MaxSlides(n: int, itemsPerView: int): (m: int)
    ensures m >= 1
  {
    if n - itemsPerView + 1 > 1 then n - itemsPerView + 1 else 1
  }

  /** Slide `s` shifts the track by `s` cards and shows cards
      `s .. s + itemsPerView - 1`. Every slide position shows a full
      window when there are enough products, and the last one ends exactly
      at the last product; otherwise there is a single position. */
  lemma SlidesCoverProducts(n: int, itemsPerView: int, s: int)
    requires 1 <= itemsPerView
    ensures itemsPerView <= n ==> MaxSlides(n, itemsPerView) - 1 + itemsPerView == n
    ensures itemsPerView <= n && 0 <= s < MaxSlides(n, itemsPerView) ==> s + itemsPerView <= n
    ensures n <= itemsPerView ==> MaxSlides(n, itemsPerView) == 1
  {
  }

  /** The six featured products, four to a view: three positions. */
  lemma FeaturedSlides()
    ensures MaxSlides(6, ItemsPerView(None)) == 3
    ensures MaxSlides(6, ItemsPerView(Some(375))) == 6
  {
  }

  /** `(prev + 1) % maxSlides`; every operand is non-negative, so the
      remainder agrees with JavaScript's. */
  function Next(s: nat, m: int): (r: nat)
    requires m >= 1
    ensures r < m
  {
    (s + 1) % m
  }

  /** `(prev - 1 + maxSlides) % maxSlides` */
  function Prev(s: nat, m: int): (r: nat)
    requires m >= 1
    ensures r < m
  {
    (s - 1 + m) % m
  }

  lemma ModOnce(x: int, m: int)
    requires 0 <= x < 2 * m
    ensures x % m == if x < m then x else x - m
  {
    if x >= m {
      assert x == m + (x - m);
    }
  }

  /** On the positions `0 .. m - 1`, next steps forward and wraps from the
      last to the first, previous steps back and wraps from the first to
      the last, and each undoes the other. */
  lemma NextPrevInverse(s: nat, m: int)
    requires 0 <= s < m
    ensures Next(s, m) == if s == m - 1 then 0 else s + 1
    ensures Prev(s, m) == if s == 0 then m - 1 else s - 1
    ensures Prev(Next(s, m), m) == s
    ensures Next(Prev(s, m), m) == s
  {
    ModOnce(s + 1, m);
    ModOnce(s - 1 + m, m);
    var n, p := Next(s, m), Prev(s, m);
    ModOnce(n - 1 + m, m);
    ModOnce(p + 1, m);
  }

  /** The carousel's state: the current position and the cards per view. */
  class Carousel {
    const productCount: nat
    var currentSlide: nat
    var itemsPerView: int

    ghost predicate Valid()
      reads this
    {
      1 <= itemsPerView <= 4 && currentSlide < MaxSlides(productCount, itemsPerView)
    }

    /** The number of positions, and of dots rendered. */
    function Slides(): int
      reads this
    {
      MaxSlides(productCount, itemsPerView)
    }

    constructor (n: nat, width: Option<int>)
      ensures Valid()
      ensures productCount == n && currentSlide == 0 && itemsPerView == ItemsPerView(width)
    {
      productCount := n;
      currentSlide := 0;
      itemsPerView := ItemsPerView(width);
    }

    method NextSlide()
      requires Valid()
      modifies this
      ensures Valid()
      ensures currentSlide == Next(old(currentSlide), Slides()) && itemsPerView == old(itemsPerView)
    {
      currentSlide := Next(currentSlide, Slides());
    }

    method PrevSlide()
      requires Valid()
      modifies this
      ensures Valid()
      ensures currentSlide == Prev(old(currentSlide), Slides()) && itemsPerView == old(itemsPerView)
    {
      currentSlide := Prev(currentSlide, Slides());
    }

    /** Clicking dot `index`; one dot is rendered per position. */
    method SelectDot(index: nat)
      requires Valid() && index < Slides()
      modifies this
      ensures Valid()
      ensures currentSlide == index && itemsPerView == old(itemsPerView)
    {
      currentSlide := index;
    }

    /** The resize handler, with the current position brought back to the
        last position when the new width leaves fewer of them. */
    method Resize(width: Option<int>)
      requires Valid()
      modifies this
      ensures Valid()
      ensures itemsPerView == ItemsPerView(width)
      ensures currentSlide == if old(currentSlide) < Slides() then old(currentSlide) else Slides() - 1
    {
      itemsPerView := ItemsPerView(width);
      var m := MaxSlides(productCount, itemsPerView);
      if currentSlide >= m {
        currentSlide := m - 1;
      }
    }
  }

  /** The position after a resize as the handler is written: it sets the
      cards per view and leaves the position alone. */
  function SlideAfterResizeAsWritten(currentSlide: nat, width: Option<int>): nat {
    currentSlide
  }

  /** Six products at 700 pixels (two per view) on the last position, 4;
      widening to 1200 pixels leaves three positions, so position 4 is out
      of range: its window holds only two of four cards, no dot matches it,
      and previous-after-next no longer returns to it. */
  lemma ResizeStrandsSlide()
    ensures MaxSlides(6, ItemsPerView(Some(700))) == 5
    ensures var s := SlideAfterResizeAsWritten(4, Some(1200));
      var m := MaxSlides(6, ItemsPerView(Some(1200)));
      && s >= m
      && s + ItemsPerView(Some(1200)) > 6
      && Prev(Next(s, m), m) != s
  {
  }

  // ---------------------------------------------------------------------
  // Price text

  /** `s.replace(c, '')` with a one-character pattern: only the first
      occurrence goes. */
  function RemoveFirst(s: string, c: char): (r: string)
    ensures |r| == |s| || |r| == |s| - 1
    ensures c !in s ==> r == s
  {
    if |s| == 0 then []
    else if s[0] == c then s[1..]
    else [s[0]] + RemoveFirst(s[1..], c)
  }

  /** When `c` occurs, exactly one character goes. */
  lemma {:induction false} RemoveFirstDropsOne(s: string, c: char)
    requires c in s
    ensures |RemoveFirst(s, c)| == |s| - 1
    decreases |s|
  {
    if s[0] != c {
      assert c in s[1..] by {
        var i :| 0 <= i < |s| && s[i] == c;
        assert s[1..][i - 1] == c;
      }
      RemoveFirstDropsOne(s[1..], c);
    }
  }

  lemma {:induction false} RemoveFirstSplits(x: string, c: char, y: string)
    requires c !in x
    ensures RemoveFirst(x + [c] + y, c) == x + y
    decreases |x|
  {
    if |x| == 0 {
      assert x + [c] + y == [c] + y;
    } else {
      assert (x + [c] + y)[1..] == x[1..] + [c] + y;
      RemoveFirstSplits(x[1..], c, y);
    }
  }

  const Rupee: char := '₹'

  /** `parseInt(price.replace('₹', '').replace(',', ''))` */
  function ParsePrice(text: string): Option<int> {
    ParseInt(RemoveFirst(RemoveFirst(text, Rupee), ','))
  }

  lemma StripRupee(tail: string)
    ensures RemoveFirst([Rupee] + tail, Rupee) == tail
  {
  }

  lemma StripComma(digits: string, rest: string)
    requires AllDigits(digits)
    ensures RemoveFirst(digits + "," + rest, ',') == digits + rest
  {
    assert ',' !in digits by {
      forall i | 0 <= i < |digits| ensures digits[i] != ',' {
        assert IsDigit(digits[i]);
      }
    }
    RemoveFirstSplits(digits, ',', rest);
  }

  /** A price written as "₹" + thousands + "," + rest reads as the digits
      run together. */
  lemma ParsePriceGrouped(thousands: string, rest: string)
    requires |thousands| > 0 && AllDigits(thousands) && AllDigits(rest)
    ensures ParsePrice([Rupee] + thousands + "," + rest) == Some(DigitsValue(thousands + rest))
  {
    var tail := thousands + "," + rest;
    assert [Rupee] + thousands + "," + rest == [Rupee] + tail;
    StripRupee(tail);
    StripComma(thousands, rest);
    ParseIntReadsLeadingRun(thousands + rest, []);
    assert thousands + rest + [] == thousands + rest;
  }

  /** Only the first comma is removed, so `parseInt` stops at a second
      one: an Indian-style "₹1,23,456" reads as 123. */
  lemma ParsePriceStopsAtSecondComma(lakhs: string, thousands: string, rest: string)
    requires |lakhs| > 0 && AllDigits(lakhs) && AllDigits(thousands)
    ensures ParsePrice([Rupee] + lakhs + "," + thousands + "," + rest) == Some(DigitsValue(lakhs + thousands))
  {
    var afterComma := thousands + "," + rest;
    var tail := lakhs + "," + afterComma;
    assert [Rupee] + lakhs + "," + thousands + "," + rest == [Rupee] + tail;
    ParsePriceOfTail(tail);
    StripComma(lakhs, afterComma);
    ReadsUpToComma(lakhs, thousands, rest);
  }

  /** With the rupee sign gone, only the comma is left to strip. */
  lemma ParsePriceOfTail(tail: string)
    ensures ParsePrice([Rupee] + tail) == ParseInt(RemoveFirst(tail, ','))
  {
    StripRupee(tail);
  }

  lemma ReadsUpToComma(lakhs: string, thousands: string, rest: string)
    requires |lakhs| > 0 && AllDigits(lakhs) && AllDigits(thousands)
    ensures AllDigits(lakhs + thousands)
    ensures ParseInt(lakhs + (thousands + "," + rest)) == Some(DigitsValue(lakhs + thousands))
  {
    assert lakhs + (thousands + "," + rest) == (lakhs + thousands) + ("," + rest);
    ParseIntReadsLeadingRun(lakhs + thousands, "," + rest);
  }

  /** The product handed to `addToCart`; no category is passed, and `None`
      stands for a price text `parseInt` cannot read. */
  function ToCartProduct(id: int, name: string, priceText: string, image: string): (p: Option<CartContext.Product>)
    ensures p.Some? <==> ParsePrice(priceText).Some?
    ensures p.Some? ==> p.value.id == id && p.value.price == ParsePrice(priceText).value && p.value.category.None?
  {
    match ParsePrice(priceText)
    case None => None
    case Some(v) => Some(CartContext.Product(id, name, v, image, None))
  }

  /** The first featured product's price text reads as 14999 rupees. */
  lemma FeaturedPriceReads()
    ensures ParsePrice("₹14,999") == Some(14999)
  {
    assert "₹14,999" == [Rupee] + "14" + "," + "999";
    ParsePriceGrouped("14", "999");
    NatToStringRoundTrip(14999);
    FeaturedPriceDigits();
  }

  lemma FeaturedPriceDigits()
    ensures NatToString(14999) == "14" + "999"
  {
    assert NatToString(1) == "1";
    assert NatToString(14) == "1" + "4";
    assert NatToString(149) == "14" + "9";
    assert NatToString(1499) == "149" + "9";
    assert NatToString(14999) == "1499" + "9";
  }
}
