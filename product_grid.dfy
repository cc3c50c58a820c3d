/**
 * The filter-and-sort block of the product grid (src/pages/ProductGrid.jsx):
 * copy the catalog, keep one category unless the filter is "" or "All",
 * then sort the copy in place by one of four keys.
 */
module ProductGrid {
  import opened JsBuiltins
  import opened Catalog
  import opened RecommendationLogic

  /** The sort options of the grid's dropdown, and "no sorting". */
  datatype SortKey = PriceLowHigh | PriceHighLow | NameAToZ | NameZToA | Unsorted

  /** The four values the sort dropdown offers. */
  const SortOptions: seq<string> := ["price-low-high", "price-high-low", "name-a-z", "name-z-a"]

  /** The `switch (sortBy)`: four known values; "" and any other value leave the order alone. */
  function ParseSortKey(sortBy: string): (key: SortKey)
    ensures key == Unsorted <==> sortBy !in SortOptions
  {
    if sortBy == "price-low-high" then PriceLowHigh
    else if sortBy == "price-high-low" then PriceHighLow
    else if sortBy == "name-a-z" then NameAToZ
    else if sortBy == "name-z-a" then NameZToA
    else Unsorted
  }

  /** `filterBy && filterBy !== 'All'`. */
  predicate CategoryFilterApplies(filterBy: string)
    ensures filterBy in Categories ==> CategoryFilterApplies(filterBy)
  {
    filterBy != "" && filterBy != "All"
  }

  /** The list the grid shows before it is sorted. */
  function FilteredCatalog(catalog: seq<Product>, filterBy: string): (r: seq<Product>)
    ensures !CategoryFilterApplies(filterBy) ==> r == catalog
    ensures CategoryFilterApplies(filterBy) ==> SelectsExactly(r, catalog, CategoryIs(filterBy))
    ensures r == [] <==>
      (forall p :: p in catalog ==> CategoryFilterApplies(filterBy) && p.category != filterBy)
  {
    if CategoryFilterApplies(filterBy) then
      FilterSelectsExactly(catalog, CategoryIs(filterBy));
      FilterEmpty(catalog, CategoryIs(filterBy));
      Filter(catalog, CategoryIs(filterBy))
    else
      assert catalog != [] ==> catalog[0] in catalog;
      catalog
  }

  /**
   * `precedes(a, b)` stands for `a.localeCompare(b) <= 0`: a collation that
   * compares every two names and is transitive.
   */
  ghost predicate NameOrder(precedes: (string, string) -> bool)
  {
    && (forall a, b :: precedes(a, b) || precedes(b, a))
    && (forall a, b, c :: precedes(a, b) && precedes(b, c) ==> precedes(a, c))
  }

  /** `x` may stand before `y` under the comparator chosen by `key`. */
  predicate InOrder(key: SortKey, precedes: (string, string) -> bool, x: Product, y: Product)
  {
    match key
    case PriceLowHigh => x.price <= y.price
    case PriceHighLow => y.price <= x.price
    case NameAToZ => precedes(x.name, y.name)
    case NameZToA => precedes(y.name, x.name)
    case Unsorted => true
  }

  /** Every earlier element may stand before every later one. */
  ghost predicate SortedBy(key: SortKey, precedes: (string, string) -> bool, s: seq<Product>)
  {
    forall i, j :: 0 <= i < j < |s| ==> InOrder(key, precedes, s[i], s[j])
  }

  /** Each of the grid's comparators compares every two products ... */
  lemma InOrderTotal(key: SortKey, precedes: (string, string) -> bool, x: Product, y: Product)
    requires NameOrder(precedes)
    ensures InOrder(key, precedes, x, y) || InOrder(key, precedes, y, x)
  {
  }

  /** ... and is transitive. */
  lemma InOrderTransitive(key: SortKey, precedes: (string, string) -> bool, x: Product, y: Product, z: Product)
    requires NameOrder(precedes)
    requires InOrder(key, precedes, x, y) && InOrder(key, precedes, y, z)
    ensures InOrder(key, precedes, x, z)
  {
  }

  /** `array.sort(comparator)`: an insertion sort, in place. */
  method SortInPlace(a: array<Product>, key: SortKey, precedes: (string, string) -> bool)
    requires NameOrder(precedes)
    modifies a
    ensures SortedBy(key, precedes, a[..])
    ensures multiset(a[..]) == multiset(old(a[..]))
  {
    var i := 0;
    while i < a.Length
      invariant 0 <= i <= a.Length
      invariant forall p, q :: 0 <= p < q < i ==> InOrder(key, precedes, a[p], a[q])
      invariant multiset(a[..]) == multiset(old(a[..]))
    {
      InsertLast(a, i, key, precedes);
      i := i + 1;
    }
  }

  /** One insertion step: `a[i]` moves left into the sorted prefix `a[..i]`. */
  method InsertLast(a: array<Product>, i: nat, key: SortKey, precedes: (string, string) -> bool)
    requires NameOrder(precedes)
    requires i < a.Length
    requires forall p, q :: 0 <= p < q < i ==> InOrder(key, precedes, a[p], a[q])
    modifies a
    ensures forall p, q :: 0 <= p < q <= i ==> InOrder(key, precedes, a[p], a[q])
    ensures a[i + 1..] == old(a[i + 1..])
    ensures multiset(a[..]) == multiset(old(a[..]))
  {
    var j := i;
    while j > 0 && !InOrder(key, precedes, a[j - 1], a[j])
      invariant 0 <= j <= i
      invariant forall p, q :: 0 <= p < q <= i && q != j ==> InOrder(key, precedes, a[p], a[q])
      invariant forall q :: j < q <= i ==> InOrder(key, precedes, a[j], a[q])
      invariant a[i + 1..] == old(a[i + 1..])
      invariant multiset(a[..]) == multiset(old(a[..]))
    {
      InOrderTotal(key, precedes, a[j - 1], a[j]);
      a[j - 1], a[j] := a[j], a[j - 1];
      j := j - 1;
    }
    if j > 0 {
      forall p | 0 <= p < j - 1
        ensures InOrder(key, precedes, a[p], a[j])
      {
        InOrderTransitive(key, precedes, a[p], a[j - 1], a[j]);
      }
    }
  }

  /** `let filteredProducts = [...products]`, then the category filter: a fresh array. */
  method CopyFiltered(catalog: array<Product>, filterBy: string) returns (a: array<Product>)
    ensures fresh(a)
    ensures a[..] == FilteredCatalog(catalog[..], filterBy)
  {
    a := new Product[catalog.Length](k reads catalog requires 0 <= k < catalog.Length => catalog[k]);
    assert a[..] == catalog[..];
    if CategoryFilterApplies(filterBy) {
      var kept := Filter(a[..], CategoryIs(filterBy));
      a := new Product[|kept|](k requires 0 <= k < |kept| => kept[k]);
      assert a[..] == kept;
    }
  }

  /**
   * The grid's product list: a copy of the catalog, filtered by category
   * unless `filterBy` is "" or "All", then sorted by `sortBy`. The catalog
   * array itself is only read.
   */
  method ShowProducts(catalog: array<Product>, filterBy: string, sortBy: string,
                      precedes: (string, string) -> bool)
    returns (shown: seq<Product>)
    requires NameOrder(precedes)
    ensures multiset(shown) == multiset(FilteredCatalog(catalog[..], filterBy))
    ensures SortedBy(ParseSortKey(sortBy), precedes, shown)
    ensures ParseSortKey(sortBy) == Unsorted ==> shown == FilteredCatalog(catalog[..], filterBy)
    ensures shown == [] <==> FilteredCatalog(catalog[..], filterBy) == []
  {
    var a := CopyFiltered(catalog, filterBy);
    ghost var filtered := a[..];
    var key := ParseSortKey(sortBy);
    if key != Unsorted {
      SortInPlace(a, key, precedes);
      shown := a[..];
    } else {
      shown := a[..];
      UnsortedAcceptsAnyOrder(shown, precedes);
    }
    PermutationKeepsEmptiness(shown, filtered);
  }

  /** Without a sort key every arrangement counts as sorted. */
  lemma UnsortedAcceptsAnyOrder(s: seq<Product>, precedes: (string, string) -> bool)
    ensures SortedBy(Unsorted, precedes, s)
  {
  }

  /** Two arrangements of the same elements are both empty or both not. */
  lemma PermutationKeepsEmptiness<T>(s: seq<T>, t: seq<T>)
    requires multiset(s) == multiset(t)
    ensures s == [] <==> t == []
  {
    assert |s| == |multiset(s)| == |multiset(t)| == |t|;
  }

  /** No two elements share a price. */
  ghost predicate DistinctPrices(s: seq<Product>)
  {
    forall i, j :: 0 <= i < j < |s| ==> s[i].price != s[j].price
  }

  /**
   * With distinct prices, sorting by price leaves no choice: two price-sorted
   * arrangements of the same products are the same sequence.
   */
  lemma {:induction false} PriceSortIsDetermined(s: seq<Product>, t: seq<Product>, key: SortKey,
                                                 precedes: (string, string) -> bool)
    requires key == PriceLowHigh || key == PriceHighLow
    requires multiset(s) == multiset(t)
    requires SortedBy(key, precedes, s) && SortedBy(key, precedes, t)
    requires DistinctPrices(s)
    ensures s == t
  {
    assert |s| == |multiset(s)| == |multiset(t)| == |t|;
    if s != [] {
      SortedHeadsAgree(s, t, key, precedes);
      TailMultisets(s, t);
      assert SortedBy(key, precedes, s[1..]) && SortedBy(key, precedes, t[1..]);
      assert DistinctPrices(s[1..]);
      PriceSortIsDetermined(s[1..], t[1..], key, precedes);
      assert s == [s[0]] + s[1..] && t == [t[0]] + t[1..];
    }
  }

  /** Both price-sorted arrangements start with the same, cheapest (or dearest) product. */
  lemma SortedHeadsAgree(s: seq<Product>, t: seq<Product>, key: SortKey,
                         precedes: (string, string) -> bool)
    requires key == PriceLowHigh || key == PriceHighLow
    requires s != [] && t != []
    requires multiset(s) == multiset(t)
    requires SortedBy(key, precedes, s) && SortedBy(key, precedes, t)
    requires DistinctPrices(s)
    ensures s[0] == t[0]
  {
    assert s[0] in multiset(t) && t[0] in multiset(s);
    var j :| 0 <= j < |t| && t[j] == s[0];
    var i :| 0 <= i < |s| && s[i] == t[0];
    HeadComesFirst(s, i, key, precedes);
    HeadComesFirst(t, j, key, precedes);
    assert s[i].price == s[0].price;
  }

  /** The head of a price-sorted sequence may stand before any of its elements. */
  lemma HeadComesFirst(s: seq<Product>, k: nat, key: SortKey, precedes: (string, string) -> bool)
    requires key == PriceLowHigh || key == PriceHighLow
    requires k < |s|
    requires SortedBy(key, precedes, s)
    ensures InOrder(key, precedes, s[0], s[k])
  {
  }

  /** Removing the same first element from two permutations leaves two permutations. */
  lemma TailMultisets<T>(s: seq<T>, t: seq<T>)
    requires s != [] && t != [] && s[0] == t[0]
    requires multiset(s) == multiset(t)
    ensures multiset(s[1..]) == multiset(t[1..])
  {
    assert s == [s[0]] + s[1..] && t == [t[0]] + t[1..];
    assert multiset(s) == multiset{s[0]} + multiset(s[1..]);
    assert multiset(t) == multiset{s[0]} + multiset(t[1..]);
    assert multiset(s[1..]) == multiset(s) - multiset{s[0]};
    assert multiset(t[1..]) == multiset(t) - multiset{s[0]};
  }

  /** The bundled catalog sorted by price, low to high. */
  const ByPriceLowHigh: seq<Product> := [SereneNecklace, DropEarrings, StarCrossedNecklace, WanderlustNecklace]

  /** Any low-to-high price sort of the bundled catalog is 12,500, 45,000, 68,963, 814,282. */
  lemma PriceLowHighExample(s: seq<Product>, precedes: (string, string) -> bool)
    requires multiset(s) == multiset(Products)
    requires SortedBy(PriceLowHigh, precedes, s)
    ensures s == ByPriceLowHigh
  {
    SwapHalves(StarCrossedNecklace, WanderlustNecklace, SereneNecklace, DropEarrings);
    ByPriceLowHighIsSorted(precedes);
    PriceSortIsDetermined(ByPriceLowHigh, s, PriceLowHigh, precedes);
  }

  lemma SwapHalves<T>(a: T, b: T, c: T, d: T)
    ensures multiset([a, b, c, d]) == multiset([c, d, a, b])
  {
    assert [a, b, c, d] == [a, b] + [c, d] && [c, d, a, b] == [c, d] + [a, b];
  }

  lemma ByPriceLowHighIsSorted(precedes: (string, string) -> bool)
    ensures SortedBy(PriceLowHigh, precedes, ByPriceLowHigh)
    ensures DistinctPrices(ByPriceLowHigh)
  {
    var prices := [12500, 45000, 68963, 814282];
    assert forall k :: 0 <= k < 4 ==> ByPriceLowHigh[k].price == prices[k];
  }

  /** The grid on the bundled catalog, unfiltered, sorted "price-low-high". */
  method BundledCatalogByPrice(catalog: array<Product>) returns (shown: seq<Product>)
    requires catalog[..] == Products
    ensures shown == ByPriceLowHigh
  {
    var anyOrder := (a: string, b: string) => true;
    shown := ShowProducts(catalog, "All", "price-low-high", anyOrder);
    PriceLowHighExample(shown, anyOrder);
  }
}
