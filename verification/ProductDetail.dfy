/** The product detail page: the image gallery, the size picker, the
    quantity stepper that never goes below 1, the low-stock warning, the
    size-gated purchase buttons and the wishlist toggle. */
module ProductDetail {
  import opened Wrappers
  import opened Decimal
  import opened ProductCarousel

  /** The product on the page has four images and two left in stock. */
  const ImageCount: nat := 4
  const StockCount: int := 2

  /** The "Only n left in stock!" warning is shown. */
  predicate LowStock(stockCount: int) {
    stockCount <= 5
  }

  const NoticePrefix: string := "Only "
  const NoticeSuffix: string := " left in stock!"

  /** The warning's text, or `None` when it is not rendered. */
  function StockNotice(stockCount: int): Option<string> {
    if LowStock(stockCount) then Some(NoticePrefix + IntToString(stockCount) + NoticeSuffix) else None
  }

  /** The "-" button: `Math.max(1, quantity - 1)`. */
  function Decremented(quantity: int): int {
    if quantity - 1 > 1 then quantity - 1 else 1
  }

  /** The "+" button. */
  function Incremented(quantity: int): int {
    quantity + 1
  }

  /** The stepper never shows less than 1: "-" stops at 1 and otherwise
      undoes "+", and "+" undoes "-" above 1. */
  lemma StepperRule(quantity: int)
    requires quantity >= 1
    ensures Decremented(quantity) >= 1 && Incremented(quantity) >= 1
    ensures Decremented(Incremented(quantity)) == quantity
    ensures quantity > 1 ==> Incremented(Decremented(quantity)) == quantity
    ensures Decremented(1) == 1
  {
  }

  /** The warning is rendered exactly up to 5 in stock, and the number
      written in it reads back as the stock count; the page's product,
      with 2 left, shows "Only 2 left in stock!". */
  lemma StockNoticeRule(stockCount: int)
    ensures StockNotice(stockCount).Some? <==> stockCount < 6
    ensures StockNotice(stockCount).Some? ==>
      var text := StockNotice(stockCount).value;
      && text[..|NoticePrefix|] == NoticePrefix
      && ParseInt(text[|NoticePrefix|..]) == Some(stockCount)
    ensures StockNotice(StockCount) == Some("Only 2 left in stock!")
  {
    if stockCount < 6 {
      var text := StockNotice(stockCount).value;
      assert text[|NoticePrefix|..] == IntToString(stockCount) + NoticeSuffix;
      ParseIntReadsIntToString(stockCount, NoticeSuffix);
    }
    assert IntToString(StockCount) == "2";
    assert NoticePrefix + "2" + NoticeSuffix == "Only 2 left in stock!";
  }

  /** The state of the product page. */
  class ProductView {
    var selectedImage: nat
    var selectedSize: string
    var quantity: int
    var isWishlisted: bool

    ghost predicate Valid()
      reads this
    {
      selectedImage < ImageCount && quantity >= 1
    }

    constructor ()
      ensures Valid()
      ensures selectedImage == 0 && selectedSize == "" && quantity == 1 && !isWishlisted
      ensures PurchaseDisabled()
    {
      selectedImage := 0;
      selectedSize := "";
      quantity := 1;
      isWishlisted := false;
    }

    /** `(prev + 1) % product.images.length` */
    method NextImage()
      requires Valid()
      modifies this
      ensures Valid()
      ensures selectedImage == Next(old(selectedImage), ImageCount)
      ensures selectedSize == old(selectedSize) && quantity == old(quantity) && isWishlisted == old(isWishlisted)
    {
      selectedImage := Next(selectedImage, ImageCount);
    }

    /** `(prev - 1 + product.images.length) % product.images.length` */
    method PrevImage()
      requires Valid()
      modifies this
      ensures Valid()
      ensures selectedImage == Prev(old(selectedImage), ImageCount)
      ensures selectedSize == old(selectedSize) && quantity == old(quantity) && isWishlisted == old(isWishlisted)
    {
      selectedImage := Prev(selectedImage, ImageCount);
    }

    /** Clicking thumbnail `index`; one thumbnail is rendered per image. */
    method SelectImage(index: nat)
      requires Valid() && index < ImageCount
      modifies this
      ensures Valid()
      ensures selectedImage == index
      ensures selectedSize == old(selectedSize) && quantity == old(quantity) && isWishlisted == old(isWishlisted)
    {
      selectedImage := index;
    }

    method SelectSize(size: string)
      requires Valid()
      modifies this
      ensures Valid()
      ensures selectedSize == size
      ensures PurchaseDisabled() <==> size == ""
      ensures selectedImage == old(selectedImage) && quantity == old(quantity) && isWishlisted == old(isWishlisted)
    {
      selectedSize := size;
    }

    method DecrementQuantity()
      requires Valid()
      modifies this
      ensures Valid()
      ensures quantity == Decremented(old(quantity))
      ensures selectedImage == old(selectedImage) && selectedSize == old(selectedSize) && isWishlisted == old(isWishlisted)
    {
      quantity := Decremented(quantity);
    }

    method IncrementQuantity()
      requires Valid()
      modifies this
      ensures Valid()
      ensures quantity == Incremented(old(quantity))
      ensures selectedImage == old(selectedImage) && selectedSize == old(selectedSize) && isWishlisted == old(isWishlisted)
    {
      quantity := Incremented(quantity);
    }

    /** `setIsWishlisted(!isWishlisted)`: two presses restore the state. */
    method ToggleWishlist()
      requires Valid()
      modifies this
      ensures Valid()
      ensures isWishlisted == !old(isWishlisted)
      ensures selectedImage == old(selectedImage) && selectedSize == old(selectedSize) && quantity == old(quantity)
    {
      isWishlisted := !isWishlisted;
    }

    /** "Add to Cart" and "Buy Now" are disabled while no size is chosen. */
    function PurchaseDisabled(): bool
      reads this
    {
      selectedSize == ""
    }
  }

  /** Previous undoes next on the gallery and the other way round, for
      every image. */
  lemma GalleryNavigation(i: nat)
    requires i < ImageCount
    ensures Prev(Next(i, ImageCount), ImageCount) == i
    ensures Next(Prev(i, ImageCount), ImageCount) == i
    ensures Next(ImageCount - 1, ImageCount) == 0 && Prev(0, ImageCount) == ImageCount - 1
  {
    NextPrevInverse(i, ImageCount);
    NextPrevInverse(ImageCount - 1, ImageCount);
    NextPrevInverse(0, ImageCount);
  }
}
