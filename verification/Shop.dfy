/** The shop page: the category listing's filters plus a category test,
    a wider price range and "newest" as the opening sort. */
module Shop {
  import opened EcmaArray
  import opened CategoryPage

  /** `selectedCategories.length === 0 || selectedCategories.includes(product.category)` */
  predicate CategoryMatch(categories: seq<string>, p: Product) {
    |categories| == 0 || p.category in categories
  }

  /** The predicate passed to `products.filter` on the shop page. */
  function ShopKeeps(categories: seq<string>, sizes: seq<string>, colors: seq<string>,
                     low: int, high: int): Product -> bool
  {
    (p: Product) => CategoryMatch(categories, p) && Matches(sizes, p.sizes)
                    && Matches(colors, p.colors) && InPriceRange(p, low, high)
  }

  function ShopFilterAndSort(products: seq<Product>, categories: seq<string>, sizes: seq<string>,
                             colors: seq<string>, low: int, high: int, sortBy: string): seq<Product>
  {
    StableSort(Filter(products, ShopKeeps(categories, sizes, colors, low, high)), SortKey(sortBy))
  }

  /** The shop's test is the category listing's test with the category
      test in front; with no category selected the two pages list the
      same products in the same order. */
  lemma ShopExtendsCategoryPage(products: seq<Product>, categories: seq<string>, sizes: seq<string>,
                                colors: seq<string>, low: int, high: int, sortBy: string, p: Product)
    ensures ShopKeeps(categories, sizes, colors, low, high)(p)
        <==> CategoryMatch(categories, p) && Keeps(sizes, colors, low, high)(p)
    ensures |categories| == 0 ==>
      ShopFilterAndSort(products, categories, sizes, colors, low, high, sortBy)
        == FilterAndSort(products, sizes, colors, low, high, sortBy)
  {
    if |categories| == 0 {
      FilterSamePredicate(products, ShopKeeps(categories, sizes, colors, low, high), Keeps(sizes, colors, low, high));
    }
  }

  /** The listed products are a permutation of exactly the products that
      pass all four tests, in the order `SortOrder` describes. */
  lemma ShopListedProducts(products: seq<Product>, categories: seq<string>, sizes: seq<string>,
                           colors: seq<string>, low: int, high: int, sortBy: string)
    ensures var keep := ShopKeeps(categories, sizes, colors, low, high);
      var kept := Filter(products, keep);
      && multiset(ShopFilterAndSort(products, categories, sizes, colors, low, high, sortBy)) == multiset(kept)
      && (forall i :: 0 <= i < |kept| ==> kept[i] in products && keep(kept[i]))
      && (forall i :: 0 <= i < |products| && keep(products[i]) ==> products[i] in kept)
  {
    var keep := ShopKeeps(categories, sizes, colors, low, high);
    StableSortPermutes(Filter(products, keep), SortKey(sortBy));
    FilterExactly(products, keep);
  }

  const ShopMaxPrice: int := 50000

  /** The filter state of the shop page. */
  class ShopFilters {
    var selectedCategories: seq<string>
    var selectedSizes: seq<string>
    var selectedColors: seq<string>
    var low: int
    var high: int
    var sortBy: string

    constructor ()
      ensures selectedCategories == [] && selectedSizes == [] && selectedColors == []
      ensures low == 0 && high == ShopMaxPrice && sortBy == "newest"
    {
      selectedCategories, selectedSizes, selectedColors := [], [], [];
      low, high := 0, ShopMaxPrice;
      sortBy := "newest";
    }

    method ToggleCategory(category: string)
      modifies this
      ensures selectedCategories == Toggle(old(selectedCategories), category)
      ensures selectedSizes == old(selectedSizes) && selectedColors == old(selectedColors)
      ensures low == old(low) && high == old(high) && sortBy == old(sortBy)
    {
      selectedCategories := Toggle(selectedCategories, category);
    }

    method ToggleSize(size: string)
      modifies this
      ensures selectedSizes == Toggle(old(selectedSizes), size)
      ensures selectedCategories == old(selectedCategories) && selectedColors == old(selectedColors)
      ensures low == old(low) && high == old(high) && sortBy == old(sortBy)
    {
      selectedSizes := Toggle(selectedSizes, size);
    }

    method ToggleColor(color: string)
      modifies this
      ensures selectedColors == Toggle(old(selectedColors), color)
      ensures selectedCategories == old(selectedCategories) && selectedSizes == old(selectedSizes)
      ensures low == old(low) && high == old(high) && sortBy == old(sortBy)
    {
      selectedColors := Toggle(selectedColors, color);
    }

    method SetPriceRange(newLow: int, newHigh: int)
      modifies this
      ensures low == newLow && high == newHigh
      ensures selectedCategories == old(selectedCategories) && selectedSizes == old(selectedSizes)
      ensures selectedColors == old(selectedColors) && sortBy == old(sortBy)
    {
      low, high := newLow, newHigh;
    }

    method SetSortBy(value: string)
      modifies this
      ensures sortBy == value
      ensures selectedCategories == old(selectedCategories) && selectedSizes == old(selectedSizes)
      ensures selectedColors == old(selectedColors) && low == old(low) && high == old(high)
    {
      sortBy := value;
    }

    /** Empties all three selections and restores [0, 50000]. */
    method ClearFilters()
      modifies this
      ensures selectedCategories == [] && selectedSizes == [] && selectedColors == []
      ensures low == 0 && high == ShopMaxPrice && sortBy == old(sortBy)
      ensures ActiveFiltersCount() == 0
    {
      selectedCategories, selectedSizes, selectedColors := [], [], [];
      low, high := 0, ShopMaxPrice;
    }

    /** The three selection lengths; the price range is not counted. */
    function ActiveFiltersCount(): int
      reads this
    {
      |selectedCategories| + |selectedSizes| + |selectedColors|
    }

    /** `filteredProducts`: filter into a fresh array, then sort it in place. */
    method FilteredProducts(products: seq<Product>) returns (r: seq<Product>)
      ensures r == ShopFilterAndSort(products, selectedCategories, selectedSizes, selectedColors, low, high, sortBy)
    {
      var filtered := Filter(products, ShopKeeps(selectedCategories, selectedSizes, selectedColors, low, high));
      var a := new Product[|filtered|](i requires 0 <= i < |filtered| => filtered[i]);
      assert a[..] == filtered;
      SortInPlace(a, SortKey(sortBy));
      r := a[..];
    }
  }
}
