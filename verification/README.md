# Storefront cart, pricing, catalogue and counters — a Dafny model

This project models the logic of a small React storefront for women's clothing:

- **The cart store.** It is an ordered list of line items keyed by product id, with add, remove, set-quantity and clear operations and a derived item count.
- **Three pricing policies.** They are kept separate on purpose:
  - the cart page has a case-insensitive `welcome10` promo worth a rounded 10 %, and free shipping from 999 rupees, otherwise 99;
  - the cart drawer uses the same shipping threshold, with no discount;
  - checkout charges 199 for express delivery and nothing for standard delivery, whatever the subtotal.
- **The checkout submit procedure.** It checks the required fields first and an empty cart second, hands the payment widget an amount in paise, and resets its submitting flag on dismissal or error.
- **The catalogue listing.** It filters by category, size, colour and an inclusive price range, then applies one of four stable sorts. It also has selection toggles, a clear button, an active-filter count and the colour-swatch lookup.
- **Small counters and formatters.**
  - the carousel's cards-per-view, slide count, wrapping next/previous and dots, and the price text it parses for the cart;
  - the product page's image gallery, its quantity stepper clamped at 1, the low-stock warning, size-gated purchase buttons and the wishlist toggle;
  - the floating cart button's `99+` badge and its item/items label.

Modules follow the source files:

- `CartContext`: a `CartStore` class whose `items` field the methods reassign, specified by pure functions `Added`, `Removed` and `Updated`.
- `Cart`: the order summary and the `PromoBox` class.
- `CartDrawer`.
- `Checkout`: a `CheckoutPage` class with the form record and `isSubmitting`.
- `CategoryPage` and `Shop`: `CategoryFilters` and `ShopFilters` classes. Their `FilteredProducts` copies the filtered products into a fresh array and sorts it in place.
- `ProductCarousel`: a `Carousel` class.
- `ProductDetail`: a `ProductView` class.
- `FloatingCartButton`.

Three shared modules support them:

- `EcmaArray` holds `Array.prototype.filter` and the in-place sort. The sort is an insertion sort proved equal to a functional stable sort, because section 23.1.3.30 of ECMA-262 (ECMAScript 2023) requires `Array.prototype.sort` to be stable.
- `Decimal` holds the number-to-text conversion and `parseInt`.
- `Wrappers` holds `Option`.

All four comparators in the source have the form `(a, b) => key(a) - key(b)`, so each is modelled as an ascending integer key:

- `price-low` sorts by `price`;
- `price-high` sorts by `-price`;
- `bestselling` sorts by 0 for bestsellers and 1 otherwise;
- any other value sorts the same way on `isNew`.

Two behaviours of the code are worth stating plainly:

- At checkout, standard delivery is free whatever the subtotal, unlike the cart page's 999 threshold.
- The promo flag, once set, stays set while the cart page is mounted; changing the cart does not clear it. The flag is local state of the page (src/pages/Cart.tsx:14-15), so it starts false again when the page is mounted again; `PromoBox` models one mounting.

## Model

| member | source | states |
|---|---|---|
| CartContext.CartStore.constructor | src/contexts/CartContext.tsx:37 | the cart starts empty and satisfies the store invariant: unique ids, quantities at least 1 |
| CartContext.CartStore.ItemCount | src/contexts/CartContext.tsx:39 | the count of units is at least the number of lines, and is 0 exactly for the empty cart |
| CartContext.CartStore.AddToCart | src/contexts/CartContext.tsx:41-71 | the new list is `Added(old list, product)`; unique ids and positive quantities are preserved |
| CartContext.CartStore.RemoveFromCart | src/contexts/CartContext.tsx:73-75 | the new list is the old one filtered on `id != removed id`; the invariant is preserved |
| CartContext.CartStore.UpdateQuantity | src/contexts/CartContext.tsx:77-88 | the new list is `Updated`: for a quantity at most 0 it is exactly the removal, otherwise the matching line gets that quantity; the invariant is preserved |
| CartContext.CartStore.ClearCart | src/contexts/CartContext.tsx:90-92 | the list is empty afterwards, whatever it held, so a repeated call leaves the same empty cart; this is also the call the order-success page makes from its effect (src/pages/OrderSuccess.tsx:17-19) |
| CartContext.CountAtLeastLines | src/contexts/CartContext.tsx:39 | with positive quantities, the unit count is at least the number of lines and is 0 only for the empty list |
| CartContext.CountAppend | src/contexts/CartContext.tsx:39 | the count of a concatenation is the sum of the counts |
| CartContext.CountAfterChangeAt | src/contexts/CartContext.tsx:83-87 | changing one line's quantity changes the count by exactly the difference |
| CartContext.BumpedAt | src/contexts/CartContext.tsx:46-50 | with unique ids, the increment map changes only the matching line, adding 1 to its quantity |
| CartContext.AddNewAppends | src/contexts/CartContext.tsx:60-68 | adding an absent id appends exactly one line, with quantity 1, at the end; earlier lines are unchanged |
| CartContext.AddExistingBumps | src/contexts/CartContext.tsx:43-50 | adding a present id keeps the length and raises that line's quantity by 1, keeping its name, price, image, category and position; every other line is unchanged; the new call's price is ignored |
| CartContext.AddedWellFormed | src/contexts/CartContext.tsx:43-68 | adding preserves unique ids and positive quantities |
| CartContext.AddedCount | src/contexts/CartContext.tsx:39-68 | adding raises the item count by exactly 1 |
| CartContext.AddTwiceSameId | src/contexts/CartContext.tsx:43-68 | adding the same id twice to an empty cart gives one line of quantity 2 that keeps the first call's fields |
| CartContext.AddDistinct | src/contexts/CartContext.tsx:60-68 | adding n products with distinct new ids adds n lines and n units |
| CartContext.RemovedAbsent | src/contexts/CartContext.tsx:74 | removing an absent id changes nothing |
| CartContext.RemovedDeletes | src/contexts/CartContext.tsx:74 | removing a present id deletes exactly that line and keeps the rest in order |
| CartContext.RemovedWellFormed | src/contexts/CartContext.tsx:74 | removal preserves the invariant, and the id is absent afterwards |
| CartContext.WithQuantityWellFormed | src/contexts/CartContext.tsx:83-87 | setting a positive quantity preserves the invariant |
| CartContext.UpdateSetsQuantity | src/contexts/CartContext.tsx:83-87 | a positive quantity replaces the matching line's quantity (it does not add); nothing else changes |
| CartContext.UpdateAbsentIsNoop | src/contexts/CartContext.tsx:77-88 | updating an absent id changes nothing, for any quantity |
| CartContext.PlusIsAddAgain | src/pages/Cart.tsx:138 | the "+" button (`quantity + 1`) has the same effect as adding that product again; the drawer's "+" at src/components/CartDrawer.tsx:105 is the same call |
| Cart.SubtotalNonNegative | src/pages/Cart.tsx:23 | with non-negative prices and positive quantities, the subtotal is non-negative |
| Cart.SubtotalAppend | src/pages/Cart.tsx:23 | the subtotal of a concatenation is the sum of the subtotals |
| Cart.SubtotalSplitAt | src/pages/Cart.tsx:23 | the subtotal is the lines before k, plus line k's price times quantity, plus the lines after k |
| Cart.SubtotalAfterChangeAt | src/pages/Cart.tsx:23 | changing one line's quantity changes the subtotal by that line's total difference |
| Cart.AddedAt | src/contexts/CartContext.tsx:43-50 | adding a present id is the point update of that line's quantity + 1 |
| Cart.AddExistingSubtotal | src/pages/Cart.tsx:23 | adding a present product raises the subtotal by the stored line's price (not the new call's) |
| Cart.LineTotalOneMore | src/pages/Cart.tsx:23 | one more unit adds the line's price to its total |
| Cart.AddNewSubtotal | src/pages/Cart.tsx:23 | adding an absent product raises the subtotal by its price |
| Cart.RemovedSubtotal | src/pages/Cart.tsx:23 | removing a line lowers the subtotal by exactly its line total |
| Cart.ToLower | src/pages/Cart.tsx:18 | lower-casing keeps the length |
| Cart.PromoCodeIgnoresCase | src/pages/Cart.tsx:18 | a code is accepted exactly when it has nine characters and each matches `welcome10` ignoring ASCII case |
| Cart.PromoBox.constructor | src/pages/Cart.tsx:14-15 | the code is empty, no promo is applied, and the Apply button is enabled |
| Cart.PromoBox.SetPromoCode | src/pages/Cart.tsx:167 | the typed code is stored and the applied flag is untouched |
| Cart.PromoBox.ApplyPromoCode | src/pages/Cart.tsx:17-21 | the flag becomes set when the lower-cased code is `welcome10`; any other code leaves the state unchanged; a set flag stays set; the Apply button (`disabled={isPromoApplied}`, line 173) is disabled afterwards exactly when it was already disabled or the code matched |
| Cart.RoundedTenth | src/pages/Cart.tsx:24 | the result is the integer nearest to a tenth of the subtotal, halves rounded up |
| Cart.TotalBounds | src/pages/Cart.tsx:24-26 | for a non-negative subtotal: 0 ≤ discount ≤ subtotal, the total is never negative and never above the undiscounted total, and shipping is 0 exactly when the pre-discount subtotal is at least 999 |
| Cart.SummaryExamples | src/pages/Cart.tsx:23-26 | worked examples: 0 for the empty list, 16997 for 14999 + 2 × 999 with no promo, 99 for an empty subtotal, the inclusive 999 threshold, and 100 off 1000 for a total of 900 |
| Cart.FreeShippingHint | src/pages/Cart.tsx:209-211 | the hint is shown exactly when the subtotal is below 999 |
| Cart.HintIsLeastTopUp | src/pages/Cart.tsx:209-211 | the hinted amount is positive, and adding at least that amount is exactly what makes shipping free |
| Cart.MinusButton | src/pages/Cart.tsx:129 | "-" on a quantity-1 line removes it and keeps the others in order; on a larger quantity it lowers that line and the count by one (the drawer's "-", src/components/CartDrawer.tsx:96, is the same call) |
| CartDrawer.DrawerAgreesWithCartPage | src/components/CartDrawer.tsx:17-19 | the drawer charges the cart page's shipping (0 from 999 up, else 99); its total is subtotal + shipping, exceeds the page's total by exactly the promo discount, and lies between the subtotal and the subtotal + 99 |
| CartDrawer.DrawerHintRule | src/components/CartDrawer.tsx:134-137 | the hint is shown exactly while shipping is charged, matches the cart page's hint, and is the least top-up to free shipping |
| CartDrawer.EmptyStateIffNoItems | src/components/CartDrawer.tsx:55-57 | the empty state is shown exactly when the item count is 0 |
| Checkout.MissingInformationRule | src/pages/Checkout.tsx:79-87 | the guard fires exactly when one of the eight required fields is empty; the apartment line never affects it |
| Checkout.InitialFormComplete | src/pages/Checkout.tsx:28-42 | the initial record has every field, uses standard delivery, and fails the guard |
| Checkout.CheckoutShippingPolicy | src/pages/Checkout.tsx:47-49 | the total is subtotal + (199 for express, else 0) with no discount; this matches the cart page's shipping exactly for standard delivery at 999 or more; for standard delivery it is never above the cart page's undiscounted total |
| Checkout.PaiseAmount | src/pages/Checkout.tsx:111 | the paise amount is a whole number of rupees and divides back to the total |
| Checkout.CheckoutPage.constructor | src/pages/Checkout.tsx:27-42 | the form is the initial record and nothing is being submitted |
| Checkout.CheckoutPage.HandleInputChange | src/pages/Checkout.tsx:60-62 | only the named field changes |
| Checkout.CheckoutPage.HandleSubmit | src/pages/Checkout.tsx:75-159 | the missing-information notice comes first and the empty-cart notice second; both leave `isSubmitting` alone; otherwise the widget receives 100 × total; `isSubmitting` ends false on a missing SDK, on a throw and on dismissal; the submit button (line 474) is left disabled exactly while the widget is open or has paid, and for an empty cart; the cart is never changed |
| EcmaArray.Filter | src/pages/Shop.tsx:104-111 | filtering never lengthens the list |
| EcmaArray.FilterExactly | src/pages/Shop.tsx:104-111 | the filtered list holds only elements of the input that pass, and every passing element is in it |
| EcmaArray.StableSortPermutes | src/pages/Shop.tsx:114-128 | sorting is a permutation |
| EcmaArray.StableSortSorts | src/pages/Shop.tsx:114-128 | the sorted list is non-decreasing in the key |
| EcmaArray.StableSortKeepsTies | src/pages/Shop.tsx:114-128 | elements with equal keys keep their input order (stability) |
| EcmaArray.TwoClassSort | src/components/CategoryPage.tsx:62-70 | with a 0/1 key, the sort is the key-0 elements in order followed by the key-1 elements in order |
| EcmaArray.SinkInto | src/components/CategoryPage.tsx:58-72 | one insertion step: the prefix up to i becomes `Insert` of the old element into the sorted prefix; the rest is untouched |
| EcmaArray.SortInPlace | src/components/CategoryPage.tsx:58-72 | the array afterwards equals the stable sort of its old contents |
| CategoryPage.MatchesRule | src/components/CategoryPage.tsx:50-51 | an empty selection passes everything; otherwise a product passes when it offers a selected value, and only then |
| CategoryPage.SortOrder | src/components/CategoryPage.tsx:58-72 | the result is a permutation; `price-low` gives non-decreasing and `price-high` non-increasing prices; `bestselling` and `newest` (and any unknown value) give flagged products first, then the rest, each in catalogue order |
| CategoryPage.ListedProducts | src/components/CategoryPage.tsx:48-55 | the listing is a permutation of exactly the products passing the size, colour and inclusive price tests |
| CategoryPage.ToggleFlips | src/components/CategoryPage.tsx:77-91 | a toggle flips its value's membership and no other value's; toggling an absent value twice restores the list |
| CategoryPage.ColorValueRule | src/components/CategoryPage.tsx:101-113 | every swatch is `#` plus six characters; `#E5E7EB` is returned exactly for unlisted names |
| CategoryPage.OpeningListing | src/components/CategoryPage.tsx:37-72 | with the opening state (no size or colour, [0, 15000], the default sort of line 40) the page lists the products priced within range, new arrivals first on `new-arrivals` and bestsellers first on every other category, each group in catalogue order |
| CategoryPage.CategoryFilters.constructor | src/components/CategoryPage.tsx:37-40 | no sizes or colours selected, range [0, 15000], the default sort |
| CategoryPage.CategoryFilters.ToggleSize | src/components/CategoryPage.tsx:77-83 | the size selection is toggled; the rest is unchanged |
| CategoryPage.CategoryFilters.ToggleColor | src/components/CategoryPage.tsx:85-91 | the colour selection is toggled; the rest is unchanged |
| CategoryPage.CategoryFilters.SetPriceRange | src/components/CategoryPage.tsx:165 | the slider sets both bounds and nothing else |
| CategoryPage.CategoryFilters.SetSortBy | src/components/CategoryPage.tsx:268 | the dropdown sets the sort and nothing else |
| CategoryPage.CategoryFilters.ClearFilters | src/components/CategoryPage.tsx:93-99 | both selections are emptied, the range goes back to [0, 15000], the sort is kept, and the active-filter count is 0 |
| CategoryPage.CategoryFilters.FilteredProducts | src/components/CategoryPage.tsx:48-75 | the array filtered and sorted in place holds exactly the filter-then-stable-sort of the products |
| Shop.ShopExtendsCategoryPage | src/pages/Shop.tsx:104-111 | the shop's test is the category test and the listing's tests; with no category selected, both pages list the same products in the same order |
| Shop.ShopListedProducts | src/pages/Shop.tsx:103-131 | the listing is a permutation of exactly the products passing all four tests |
| Shop.ShopFilters.constructor | src/pages/Shop.tsx:17-21 | nothing selected, range [0, 50000], sorted by `newest` |
| Shop.ShopFilters.ToggleCategory | src/pages/Shop.tsx:133-139 | the category selection is toggled; the rest is unchanged |
| Shop.ShopFilters.ToggleSize | src/pages/Shop.tsx:141-147 | the size selection is toggled; the rest is unchanged |
| Shop.ShopFilters.ToggleColor | src/pages/Shop.tsx:149-155 | the colour selection is toggled; the rest is unchanged |
| Shop.ShopFilters.SetPriceRange | src/pages/Shop.tsx:232-238 | the slider sets both bounds and nothing else |
| Shop.ShopFilters.SetSortBy | src/pages/Shop.tsx:322 | the dropdown sets the sort and nothing else |
| Shop.ShopFilters.ClearFilters | src/pages/Shop.tsx:157-164 | all three selections are emptied, the range goes back to [0, 50000], and the active-filter count (which ignores price) is 0 |
| Shop.ShopFilters.FilteredProducts | src/pages/Shop.tsx:103-131 | the array filtered and sorted in place holds exactly the filter-then-stable-sort of the products |
| ProductCarousel.ItemsPerView | src/components/ProductCarousel.tsx:11-19 | between 1 and 4 cards per view |
| ProductCarousel.ItemsPerViewMonotone | src/components/ProductCarousel.tsx:11-19 | a wider viewport never shows fewer cards; the no-window fallback is the maximum, 4 |
| ProductCarousel.MaxSlides | src/components/ProductCarousel.tsx:75 | there is always at least one position |
| ProductCarousel.SlidesCoverProducts | src/components/ProductCarousel.tsx:75 | every position shows a full window and the last one ends at the last product; with no more products than cards there is one position |
| ProductCarousel.FeaturedSlides | src/components/ProductCarousel.tsx:30-75 | the six featured products give 3 positions at 4 per view and 6 at 1 per view |
| ProductCarousel.Next | src/components/ProductCarousel.tsx:77-79 | the next position stays in range |
| ProductCarousel.Prev | src/components/ProductCarousel.tsx:81-83 | the previous position stays in range |
| ProductCarousel.NextPrevInverse | src/components/ProductCarousel.tsx:77-83 | next steps forward and wraps from the last position to 0; previous steps back and wraps from 0 to the last; each undoes the other |
| ProductCarousel.Carousel.constructor | src/components/ProductCarousel.tsx:7-21 | the carousel starts on position 0 with the cards per view of the current width |
| ProductCarousel.Carousel.NextSlide | src/components/ProductCarousel.tsx:77-79 | the position advances, wrapping, and stays in range |
| ProductCarousel.Carousel.PrevSlide | src/components/ProductCarousel.tsx:81-83 | the position steps back, wrapping, and stays in range |
| ProductCarousel.Carousel.SelectDot | src/components/ProductCarousel.tsx:196-199 | one dot per position; clicking dot i sets position i |
| ProductCarousel.Carousel.Resize | src/components/ProductCarousel.tsx:24-28 | corrected resize: new cards per view, the position kept when still valid and otherwise moved to the last position |
| ProductCarousel.ResizeStrandsSlide | src/components/ProductCarousel.tsx:24-28 | the handler as written leaves position 4 of six products on 3 positions: out of range, a partial window, and no longer undone by previous-after-next |
| ProductCarousel.RemoveFirst | src/components/ProductCarousel.tsx:166 | `replace` removes at most one character, and returns the text unchanged when the character does not occur (as for "₹999" and `,`) |
| ProductCarousel.RemoveFirstDropsOne | src/components/ProductCarousel.tsx:166 | when the character occurs, `replace` removes exactly one character |
| ProductCarousel.RemoveFirstSplits | src/components/ProductCarousel.tsx:166 | only the first occurrence of the character is removed |
| ProductCarousel.ParsePriceGrouped | src/components/ProductCarousel.tsx:166 | `₹` + digits + `,` + digits reads as the digits run together |
| ProductCarousel.ParsePriceStopsAtSecondComma | src/components/ProductCarousel.tsx:166 | a second comma stops the parse: `₹1,23,456` reads as 123 |
| ProductCarousel.ToCartProduct | src/components/ProductCarousel.tsx:163-168 | for a price text that parses, the product handed to the cart carries that price, the given id and no category; `None` stands for a text `parseInt` reads as `NaN`, for which the source still adds a line priced `NaN` |
| ProductCarousel.FeaturedPriceReads | src/components/ProductCarousel.tsx:166 | `₹14,999` reads as 14999 |
| ProductDetail.StepperRule | src/pages/ProductDetail.tsx:285-294 | "-" is `max(1, q - 1)` and "+" is `q + 1`; both stay at 1 or more, "-" undoes "+", and "+" undoes "-" above 1 |
| ProductDetail.StockNoticeRule | src/pages/ProductDetail.tsx:236-242 | the "Only n left in stock!" notice is rendered exactly up to 5 in stock, the number written in it reads back as the stock count, and the page's product (2 left, line 33) shows "Only 2 left in stock!" |
| ProductDetail.ProductView.constructor | src/pages/ProductDetail.tsx:12-15 | first image, no size, quantity 1, not wishlisted; "Add to Cart" and "Buy Now" start disabled |
| ProductDetail.ProductView.NextImage | src/pages/ProductDetail.tsx:117-119 | the image index advances modulo 4 and stays in range |
| ProductDetail.ProductView.PrevImage | src/pages/ProductDetail.tsx:121-123 | the image index steps back modulo 4 and stays in range |
| ProductDetail.ProductView.SelectImage | src/pages/ProductDetail.tsx:195 | clicking a thumbnail selects that image |
| ProductDetail.ProductView.SelectSize | src/pages/ProductDetail.tsx:266 | the chosen size is stored and nothing else changes; the purchase buttons (`disabled={!selectedSize}`, lines 307 and 326) are then disabled exactly when the chosen size is empty |
| ProductDetail.ProductView.DecrementQuantity | src/pages/ProductDetail.tsx:285 | the quantity becomes `max(1, q - 1)` and stays at least 1 |
| ProductDetail.ProductView.IncrementQuantity | src/pages/ProductDetail.tsx:294 | the quantity becomes `q + 1` |
| ProductDetail.ProductView.ToggleWishlist | src/pages/ProductDetail.tsx:313 | the flag is negated and nothing else changes, so two presses restore it |
| ProductDetail.GalleryNavigation | src/pages/ProductDetail.tsx:117-123 | previous undoes next and next undoes previous on every image, wrapping at both ends |
| FloatingCartButton.BadgeRule | src/components/FloatingCartButton.tsx:28 | the badge has at most three characters, reads `99+` exactly above 99, and otherwise reads back as the count (the header's badge, src/components/Header.tsx:71, is the same rule) |
| FloatingCartButton.RenderRule | src/components/FloatingCartButton.tsx:11-32 | nothing is rendered exactly for an empty cart; otherwise it shows the item count, the cart page's subtotal, and `item` exactly for a single unit |
| Decimal.NatToString | src/components/FloatingCartButton.tsx:28 | the decimal text is non-empty digits without a leading zero; one digit below 10, at most two below 100 |
| Decimal.NatToStringRoundTrip | src/components/FloatingCartButton.tsx:28 | reading the printed digits gives the number back |
| Decimal.LeadingDigits | src/components/ProductCarousel.tsx:166 | the longest digit prefix: a prefix, all digits, followed by a non-digit or the end |
| Decimal.ParseInt | src/components/ProductCarousel.tsx:166 | `parseInt` yields a number exactly when a digit follows the optional sign |
| Decimal.ParseIntReadsLeadingRun | src/components/ProductCarousel.tsx:166 | `parseInt` reads a digit run up to the first non-digit |
| Decimal.ParseIntRoundTrip | src/components/FloatingCartButton.tsx:28 | `parseInt` of a printed integer gives the integer back |
| Decimal.ParseIntReadsIntToString | src/pages/ProductDetail.tsx:240 | `parseInt` of a printed integer followed by text that does not start with a digit reads the integer |

## Left out

- Payment widget: script loading and the widget itself are not modelled. Its behaviour enters `HandleSubmit` as a `Gateway` outcome (missing SDK, throw on open, still open, paid, dismissed).
- The `SS` + `Date.now()` order number and the navigation to the success page after payment: the order number depends on the clock and navigation is routing.
- Toast notifications are not modelled. They appear only as the `Outcome` of a submit.
- React plumbing is not modelled: `createContext`, the `useCart` error outside a provider, `useMemo`/`useEffect`, routing, and the window resize listener itself. Resize is a method called with the new width.
- Cart.RoundedTenth: `Math.round(subtotal * 0.1)` in floating point is modelled as exact integer half-up rounding, `(subtotal + 5) / 10`. Binary rounding of `subtotal * 0.1` is not modelled.
- Cart.ToLower: lower-cases ASCII letters only. Unicode case mappings of `toLowerCase` are not modelled, including the few non-ASCII characters that lower-case to ASCII letters (such as the Kelvin sign).
- ProductCarousel.ToCartProduct: a cart line priced `NaN` is not modelled; the quick-add still adds one when the price text does not parse, which cannot happen for the six literal prices of the carousel.
- Decimal.ParseInt: reads an optional sign and a decimal digit run. Leading whitespace, `0x` prefixes and non-ASCII digits are not modelled. `NaN` is `None`.
- Prices are integers. Fractional prices and `toLocaleString` formatting are not modelled.
- Checkout.CheckoutPage.HandleInputChange: the field is one of the thirteen keys of the form record (`Field`), not an arbitrary string. Writing an unknown key would add a property the page never reads.
- The Radix checkbox's `indeterminate` state is not modelled. The checkbox values are booleans.
- The checkout `currentStep` state is never changed by the page and is not modelled.
- Floating-point display code is not modelled: the carousel's `translateX` percentage, the discount-percent badge, star filling and `toLocaleString`.
- The header's cart badge uses the same rule as `FloatingCartButton.Badge` and has no separate member.
- Re-rendering is not modelled. The order-success page calls `clearCart` from an effect keyed on `clearCart` (src/pages/OrderSuccess.tsx:17-19). The provider creates `clearCart` anew on every render (src/contexts/CartContext.tsx:90-92), and `setItems([])` stores a new array each time, which causes another render. So the effect runs again after every render for as long as the page is shown. The model covers one call, `CartContext.CartStore.ClearCart`. Repeated calls leave the same empty cart, but the repeated renders themselves are not captured.
- The cart page's empty view and all static markup are not modelled: footer, hero, about, Instagram feed, category grid, home page.
- The e-mail sign-up is a simulated timer with no logic and is not modelled.
- src/data/products is not part of this model. The six category wrapper pages only fetch a product list from it, so products are an input sequence.
- `colorMap[color]` also finds inherited object keys such as `constructor`. The lookup is modelled as a plain map of the eight names.

## Findings

| source | as written | input that shows it | evidently intended | confidence | as-written member | corrected member |
|---|---|---|---|---|---|---|
| src/components/ProductCarousel.tsx:24-28 | the resize handler sets `itemsPerView` and leaves `currentSlide` unchanged, though `maxSlides` may shrink | six products at 700 px (2 per view, 5 positions) on position 4, then widen to 1200 px (4 per view, 3 positions): position 4 is out of range, its window holds two of four cards, no dot is active, and previous-after-next lands on 1 instead of 4 | bring the position back into `[0, maxSlides)` after a resize | not executed | ProductCarousel.ResizeStrandsSlide | ProductCarousel.Carousel.Resize |
