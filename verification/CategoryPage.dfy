/** The category listing: size, colour and price filters, the four sort
    orders, the selection toggles and the colour swatch lookup. The shop
    page reuses the product shape, the tests, the toggle and the sort keys. */
module CategoryPage {
  import opened Wrappers
  import opened EcmaArray

  datatype Product = Product(
    id: int,
    name: string,
    category: string,
    price: int,
    originalPrice: Option<int>,
    image: string,
    sizes: seq<string>,
    colors: seq<string>,
    isNew: bool,
    isBestseller: bool)

  // ---------------------------------------------------------------------
  // Filter tests

  /** `selected.length === 0 || selected.some(v => offered.includes(v))` */
  predicate Matches(selected: seq<string>, offered: seq<string>) {
    |selected| == 0 || exists i :: 0 <= i < |selected| && selected[i] in offered
  }

  /** Both ends of the price range are inclusive. */
  predicate InPriceRange(p: Product, low: int, high: int) {
    low <= p.price <= high
  }

  /** The predicate passed to `products.filter`: no category test here. */
  function Keeps(sizes: seq<string>, colors: seq<string>, low: int, high: int): Product -> bool {
    (p: Product) => Matches(sizes, p.sizes) && Matches(colors, p.colors) && InPriceRange(p, low, high)
  }

  /** An empty selection passes every product; otherwise the product must
      offer at least one selected value. */
  lemma MatchesRule(selected: seq<string>, offered: seq<string>, v: string)
    ensures |selected| == 0 ==> Matches(selected, offered)
    ensures v in selected && v in offered ==> Matches(selected, offered)
    ensures (forall i :: 0 <= i < |selected| ==> selected[i] !in offered) ==>
              (Matches(selected, offered) <==> |selected| == 0)
  {
    if v in selected && v in offered {
      var i :| 0 <= i < |selected| && selected[i] == v;
    }
  }

  // ---------------------------------------------------------------------
  // Sort orders

  /** The comparator chosen by `sortBy`, as the key it sorts ascending by:
      `a.price - b.price`, `b.price - a.price`, and bestsellers or new
      arrivals first. Any other value sorts as "newest". */
  function SortKey(sortBy: string): Product -> int {
    if sortBy == "price-low" then (p: Product) => p.price
    else if sortBy == "price-high" then (p: Product) => -p.price
    else if sortBy == "bestselling" then (p: Product) => if p.isBestseller then 0 else 1
    else (p: Product) => if p.isNew then 0 else 1
  }

  /** Filter, then stable sort: the products the page lists. */
  function FilterAndSort(products: seq<Product>, sizes: seq<string>, colors: seq<string>,
                         low: int, high: int, sortBy: string): seq<Product>
  {
    StableSort(Filter(products, Keeps(sizes, colors, low, high)), SortKey(sortBy))
  }

  function IsBestseller(p: Product): bool { p.isBestseller }
  function IsNew(p: Product): bool { p.isNew }
  function Not(flag: Product -> bool): Product -> bool { (p: Product) => !flag(p) }

  /** What sorting `kept` by `sortBy` promises: a permutation of `kept`;
      prices non-decreasing for "price-low" and non-increasing for
      "price-high"; for "bestselling" and for "newest" (and any unknown
      value) the flagged products first, then the rest, each group in its
      original order. */
  lemma SortOrder(kept: seq<Product>, sortBy: string)
    ensures var r := StableSort(kept, SortKey(sortBy));
      && multiset(r) == multiset(kept)
      && (sortBy == "price-low" ==> forall i, j :: 0 <= i < j < |r| ==> r[i].price <= r[j].price)
      && (sortBy == "price-high" ==> forall i, j :: 0 <= i < j < |r| ==> r[i].price >= r[j].price)
      && (sortBy == "bestselling" ==> r == Filter(kept, IsBestseller) + Filter(kept, Not(IsBestseller)))
      && (sortBy != "price-low" && sortBy != "price-high" && sortBy != "bestselling" ==>
            r == Filter(kept, IsNew) + Filter(kept, Not(IsNew)))
  {
    var key := SortKey(sortBy);
    var r := StableSort(kept, key);
    StableSortPermutes(kept, key);
    StableSortSorts(kept, key);
    if sortBy == "price-low" {
      forall i, j | 0 <= i < j < |r|
        ensures r[i].price <= r[j].price
      {
        assert key(r[i]) <= key(r[j]);
      }
    } else if sortBy == "price-high" {
      forall i, j | 0 <= i < j < |r|
        ensures r[i].price >= r[j].price
      {
        assert key(r[i]) <= key(r[j]);
      }
    } else if sortBy == "bestselling" {
      TwoClassSort(kept, key);
      FilterSamePredicate(kept, KeyIs(key, 0), IsBestseller);
      FilterSamePredicate(kept, KeyIs(key, 1), Not(IsBestseller));
    } else {
      TwoClassSort(kept, key);
      FilterSamePredicate(kept, KeyIs(key, 0), IsNew);
      FilterSamePredicate(kept, KeyIs(key, 1), Not(IsNew));
    }
  }

  /** The listed products are a permutation of exactly the products that
      pass all the tests, ordered as `SortOrder` says. */
  lemma ListedProducts(products: seq<Product>, sizes: seq<string>, colors: seq<string>,
                       low: int, high: int, sortBy: string)
    ensures var kept := Filter(products, Keeps(sizes, colors, low, high));
      && multiset(FilterAndSort(products, sizes, colors, low, high, sortBy)) == multiset(kept)
      && (forall i :: 0 <= i < |kept| ==> kept[i] in products && Keeps(sizes, colors, low, high)(kept[i]))
      && (forall i :: 0 <= i < |products| && Keeps(sizes, colors, low, high)(products[i]) ==> products[i] in kept)
  {
    var kept := Filter(products, Keeps(sizes, colors, low, high));
    StableSortPermutes(kept, SortKey(sortBy));
    FilterExactly(products, Keeps(sizes, colors, low, high));
  }

  // ---------------------------------------------------------------------
  // Selection toggles and the colour swatch

  /** `prev.includes(v) ? prev.filter(x => x !== v) : [...prev, v]` */
  function Toggle(selected: seq<string>, v: string): seq<string> {
    if v in selected then Filter(selected, (x: string) => x != v) else selected + [v]
  }

  /** A toggle flips the membership of its argument and of nothing else;
      toggling an absent value twice restores the list. */
  lemma ToggleFlips(selected: seq<string>, v: string, w: string)
    ensures v in Toggle(selected, v) <==> v !in selected
    ensures w != v ==> (w in Toggle(selected, v) <==> w in selected)
    ensures v !in selected ==> Toggle(Toggle(selected, v), v) == selected
  {
    var notV := (x: string) => x != v;
    if v in selected {
      FilterExactly(selected, notV);
    } else {
      var once := selected + [v];
      assert v in once;
      FilterSnoc(selected, v, notV);
      FilterKeepsAll(selected, notV);
    }
  }

  /** Swatch colours for the eight listed colour names. */
  const ColorMap: map<string, string> := map[
    "Rose" := "#F8BBD9", "Blush" := "#FEC5BB", "Cream" := "#FAF0E6", "Sage" := "#9CAF88",
    "Lavender" := "#E6E6FA", "Navy" := "#2E3440", "Black" := "#2B2B2B", "White" := "#FFFFFF"]

  const DefaultSwatch: string := "#E5E7EB"

  /** `colorMap[color] || '#E5E7EB'` */
  function GetColorValue(color: string): string {
    if color in ColorMap then ColorMap[color] else DefaultSwatch
  }

  /** Every swatch is a `#RRGGBB` string; an unlisted name gets the grey
      default and a listed one never does. */
  lemma ColorValueRule(color: string)
    ensures |GetColorValue(color)| == 7 && GetColorValue(color)[0] == '#'
    ensures GetColorValue(color) == DefaultSwatch <==> color !in ColorMap
    ensures GetColorValue("Rose") == "#F8BBD9" && GetColorValue("Navy") == "#2E3440"
  {
  }

  /** The sort the page opens with. */
  function DefaultSortBy(categoryName: string): string {
    if categoryName == "new-arrivals" then "newest" else "bestselling"
  }

  const MaxPrice: int := 15000

  /** The listing a page opens with (no size or colour chosen, the full
      price range, the default sort): the products priced within
      [0, 15000], new arrivals first on the new-arrivals page and
      bestsellers first on every other, each group in catalogue order. */
  lemma OpeningListing(products: seq<Product>, categoryName: string)
    ensures var inRange := Filter(products, (p: Product) => 0 <= p.price <= MaxPrice);
      var listed := FilterAndSort(products, [], [], 0, MaxPrice, DefaultSortBy(categoryName));
      && (categoryName == "new-arrivals" ==> listed == Filter(inRange, IsNew) + Filter(inRange, Not(IsNew)))
      && (categoryName != "new-arrivals" ==>
            listed == Filter(inRange, IsBestseller) + Filter(inRange, Not(IsBestseller)))
  {
    var inRange := Filter(products, (p: Product) => 0 <= p.price <= MaxPrice);
    FilterSamePredicate(products, Keeps([], [], 0, MaxPrice), (p: Product) => 0 <= p.price <= MaxPrice);
    SortOrder(inRange, DefaultSortBy(categoryName));
  }

  /** The filter state of one category listing. */
  class CategoryFilters {
    var selectedSizes: seq<string>
    var selectedColors: seq<string>
    var low: int
    var high: int
    var sortBy: string

    constructor (categoryName: string)
      ensures selectedSizes == [] && selectedColors == []
      ensures low == 0 && high == MaxPrice
      ensures sortBy == DefaultSortBy(categoryName)
    {
      selectedSizes := [];
      selectedColors := [];
      low, high := 0, MaxPrice;
      sortBy := DefaultSortBy(categoryName);
    }

    method ToggleSize(size: string)
      modifies this
      ensures selectedSizes == Toggle(old(selectedSizes), size)
      ensures selectedColors == old(selectedColors) && low == old(low) && high == old(high)
      ensures sortBy == old(sortBy)
    {
      selectedSizes := Toggle(selectedSizes, size);
    }

    method ToggleColor(color: string)
      modifies this
      ensures selectedColors == Toggle(old(selectedColors), color)
      ensures selectedSizes == old(selectedSizes) && low == old(low) && high == old(high)
      ensures sortBy == old(sortBy)
    {
      selectedColors := Toggle(selectedColors, color);
    }

    /** The price slider's `onValueChange`. */
    method SetPriceRange(newLow: int, newHigh: int)
      modifies this
      ensures low == newLow && high == newHigh
      ensures selectedSizes == old(selectedSizes) && selectedColors == old(selectedColors)
      ensures sortBy == old(sortBy)
    {
      low, high := newLow, newHigh;
    }

    /** The sort dropdown's `onValueChange`. */
    method SetSortBy(value: string)
      modifies this
      ensures sortBy == value
      ensures selectedSizes == old(selectedSizes) && selectedColors == old(selectedColors)
      ensures low == old(low) && high == old(high)
    {
      sortBy := value;
    }

    /** Empties both selections and restores the full price range; the
        sort order is kept. */
    method ClearFilters()
      modifies this
      ensures selectedSizes == [] && selectedColors == []
      ensures low == 0 && high == MaxPrice
      ensures sortBy == old(sortBy)
      ensures ActiveFiltersCount() == 0
    {
      selectedSizes := [];
      selectedColors := [];
      low, high := 0, MaxPrice;
    }

    /** The badge on the filter button; the price range is not counted. */
    function ActiveFiltersCount(): int
      reads this
    {
      |selectedSizes| + |selectedColors|
    }

    /** `filteredProducts`: filter into a fresh array, then sort it in place. */
    method FilteredProducts(products: seq<Product>) returns (r: seq<Product>)
      ensures r == FilterAndSort(products, selectedSizes, selectedColors, low, high, sortBy)
    {
      var filtered := Filter(products, Keeps(selectedSizes, selectedColors, low, high));
      var a := new Product[|filtered|](i requires 0 <= i < |filtered| => filtered[i]);
      assert a[..] == filtered;
      SortInPlace(a, SortKey(sortBy));
      r := a[..];
    }
  }
}
