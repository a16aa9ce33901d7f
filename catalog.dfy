/**
 * The customer catalog page: a search box, a category select, a price-range select and a
 * sort select. The filter effect narrows the loaded products through a chain of filters
 * and then sorts the result in place with the selected comparator.
 */
module Catalog {
  import opened Common
  import opened Seqs
  import opened Text
  import opened Products

  /** The four controls above the product grid, as the strings the selects hold. */
  datatype Filters = Filters(searchTerm: string, category: string, priceRange: string, sortBy: string)

  /** The controls' initial values, which `clearFilters` restores. */
  const DefaultFilters := Filters("", "all", "all", "name")

  /** The catalog search: the name or the description contains the term, ignoring case. */
  predicate SearchMatches(p: Product, term: string) {
    ContainsIgnoreCase(p.name, term) || ContainsIgnoreCase(p.description, term)
  }

  /** An empty search term applies no filter. */
  function BySearch(ps: seq<Product>, term: string): seq<Product> {
    if term == "" then ps else Filter(ps, (p: Product) => SearchMatches(p, term))
  }

  /** The category "all" applies no filter. */
  function ByCategory(ps: seq<Product>, category: string): seq<Product> {
    if category == "all" then ps else Filter(ps, (p: Product) => p.category == category)
  }

  /** The "under-50" range: below $50.00. */
  predicate UnderFifty(p: Product) { p.price < 5000 }

  /** The "50-200" range: $50.00 to $200.00, both included. */
  predicate FiftyToTwoHundred(p: Product) { p.price >= 5000 && p.price <= 20000 }

  /** The "over-200" range: above $200.00. */
  predicate OverTwoHundred(p: Product) { p.price > 20000 }

  /** "all" and any value the switch does not list apply no price filter. */
  function ByPrice(ps: seq<Product>, range: string): seq<Product> {
    if range == "under-50" then Filter(ps, UnderFifty)
    else if range == "50-200" then Filter(ps, FiftyToTwoHundred)
    else if range == "over-200" then Filter(ps, OverTwoHundred)
    else ps
  }

  /** The products the filter effect keeps, in their loaded order, before sorting. */
  function Matching(ps: seq<Product>, f: Filters): (r: seq<Product>)
    ensures |r| <= |ps|
    ensures forall p :: p in r ==>
      && p in ps && PriceKept(p, f.priceRange) && (f.category == "all" || p.category == f.category)
  {
    ByPrice(ByCategory(BySearch(ps, f.searchTerm), f.category), f.priceRange)
  }

  /** Whether the price select keeps a product. */
  predicate PriceKept(p: Product, range: string) {
    if range == "under-50" then UnderFifty(p)
    else if range == "50-200" then FiftyToTwoHundred(p)
    else if range == "over-200" then OverTwoHundred(p)
    else true
  }

  /**
   * A product survives the filter chain exactly when it was loaded, the search term is
   * empty or found in its name or description, the category is "all" or its own, and the
   * price range keeps it.
   */
  lemma MatchingExactly(ps: seq<Product>, f: Filters, p: Product)
    ensures p in Matching(ps, f) <==>
      && p in ps
      && (f.searchTerm == "" || SearchMatches(p, f.searchTerm))
      && (f.category == "all" || p.category == f.category)
      && PriceKept(p, f.priceRange)
  {
  }

  /** The filter chain only deletes products: its result is a subsequence of the loaded list. */
  lemma MatchingIsSubsequence(ps: seq<Product>, f: Filters)
    ensures IsSubsequence(Matching(ps, f), ps)
  {
    var s1 := BySearch(ps, f.searchTerm);
    var s2 := ByCategory(s1, f.category);
    var s3 := ByPrice(s2, f.priceRange);
    if f.searchTerm == "" {
      SubsequenceReflexive(ps);
    } else {
      FilterIsSubsequence(ps, (p: Product) => SearchMatches(p, f.searchTerm));
    }
    if f.category == "all" {
      SubsequenceReflexive(s1);
    } else {
      FilterIsSubsequence(s1, (p: Product) => p.category == f.category);
    }
    if f.priceRange == "under-50" {
      FilterIsSubsequence(s2, UnderFifty);
    } else if f.priceRange == "50-200" {
      FilterIsSubsequence(s2, FiftyToTwoHundred);
    } else if f.priceRange == "over-200" {
      FilterIsSubsequence(s2, OverTwoHundred);
    } else {
      SubsequenceReflexive(s2);
    }
    SubsequenceTransitive(s2, s1, ps);
    SubsequenceTransitive(s3, s2, ps);
  }

  /** The initial (and cleared) controls keep every loaded product. */
  lemma DefaultFiltersKeepAll(ps: seq<Product>)
    ensures Matching(ps, DefaultFilters) == ps
  {
  }

  /** Every price falls in exactly one of the three ranges, so their counts add up to the whole catalog. */
  lemma PriceRangesPartition(ps: seq<Product>)
    ensures forall p: Product :: ExactlyOne(UnderFifty(p), FiftyToTwoHundred(p), OverTwoHundred(p))
    ensures |ByPrice(ps, "under-50")| + |ByPrice(ps, "50-200")| + |ByPrice(ps, "over-200")| == |ps|
  {
    FilterPartition3(ps, UnderFifty, FiftyToTwoHundred, OverTwoHundred);
  }

  // ----- Sorting -----

  datatype SortKey = ByName | ByPriceLow | ByPriceHigh | ByRating

  /** The sort switch: "name" and any unlisted value sort by name. */
  function SortKeyOf(sortBy: string): SortKey {
    if sortBy == "price-low" then ByPriceLow
    else if sortBy == "price-high" then ByPriceHigh
    else if sortBy == "rating" then ByRating
    else ByName
  }

  /** `product.rating || 0`: a missing rating counts as zero. */
  function RatingOrZero(p: Product): int { p.rating.GetOr(0) }

  /** The comparator returns at most zero for `(a, b)`: `a` may be listed before `b`. */
  predicate InOrder(a: Product, b: Product, key: SortKey) {
    match key
    case ByName => NameLeq(a.name, b.name)
    case ByPriceLow => a.price - b.price <= 0
    case ByPriceHigh => b.price - a.price <= 0
    case ByRating => RatingOrZero(b) - RatingOrZero(a) <= 0
  }

  /** Every neighbouring pair is in comparator order. */
  ghost predicate Sorted(s: seq<Product>, key: SortKey) {
    forall i :: 0 < i < |s| ==> InOrder(s[i - 1], s[i], key)
  }

  /** Every comparator is total: of two products, one may come before the other. */
  lemma InOrderTotal(a: Product, b: Product, key: SortKey)
    ensures InOrder(a, b, key) || InOrder(b, a, key)
  {
    if key == ByName {
      NameLeqTotal(a.name, b.name);
    }
  }

  lemma InOrderTransitive(a: Product, b: Product, c: Product, key: SortKey)
    requires InOrder(a, b, key) && InOrder(b, c, key)
    ensures InOrder(a, c, key)
  {
    if key == ByName {
      NameLeqTransitive(a.name, b.name, c.name);
    }
  }

  /** In a sorted list every earlier product is in order with every later one, not only its neighbour. */
  lemma {:induction false} SortedPairwise(s: seq<Product>, key: SortKey, i: int, j: int)
    requires Sorted(s, key) && 0 <= i < j < |s|
    ensures InOrder(s[i], s[j], key)
    decreases j - i
  {
    if j > i + 1 {
      SortedPairwise(s, key, i, j - 1);
      InOrderTransitive(s[i], s[j - 1], s[j], key);
    }
  }

  /**
   * What each sort order means: "price-low" gives prices that never decrease, "price-high"
   * prices that never increase, "rating" ratings (missing as zero) that never increase,
   * and "name" names in character-code order.
   */
  lemma SortedMeaning(s: seq<Product>, sortBy: string)
    requires Sorted(s, SortKeyOf(sortBy))
    ensures sortBy == "price-low" ==> forall i, j :: 0 <= i < j < |s| ==> s[i].price <= s[j].price
    ensures sortBy == "price-high" ==> forall i, j :: 0 <= i < j < |s| ==> s[i].price >= s[j].price
    ensures sortBy == "rating" ==> forall i, j :: 0 <= i < j < |s| ==> RatingOrZero(s[i]) >= RatingOrZero(s[j])
    ensures SortKeyOf(sortBy) == ByName ==> forall i, j :: 0 <= i < j < |s| ==> NameLeq(s[i].name, s[j].name)
  {
    forall i, j | 0 <= i < j < |s| ensures InOrder(s[i], s[j], SortKeyOf(sortBy)) {
      SortedPairwise(s, SortKeyOf(sortBy), i, j);
    }
  }

  /** Exchanges the neighbours at `j - 1` and `j`, leaving every other slot alone. */
  method SwapAdjacent(a: array<Product>, j: int)
    requires 0 < j < a.Length
    modifies a
    ensures a[j - 1] == old(a[j]) && a[j] == old(a[j - 1])
    ensures forall k :: 0 <= k < a.Length && k != j - 1 && k != j ==> a[k] == old(a[k])
    ensures multiset(a[..]) == multiset(old(a[..]))
  {
    a[j - 1], a[j] := a[j], a[j - 1];
  }

  /** `filtered.sort(comparator)`: an insertion sort that swaps a product left past every product it must precede. */
  method SortInPlace(a: array<Product>, key: SortKey)
    modifies a
    ensures Sorted(a[..], key)
    ensures multiset(a[..]) == multiset(old(a[..]))
  {
    var i := 0;
    while i < a.Length
      invariant 0 <= i <= a.Length
      invariant forall k :: 0 < k < i ==> InOrder(a[k - 1], a[k], key)
      invariant multiset(a[..]) == multiset(old(a[..]))
    {
      var j := i;
      while j > 0 && !InOrder(a[j - 1], a[j], key)
        invariant 0 <= j <= i
        invariant forall k :: 0 < k <= i && k != j ==> InOrder(a[k - 1], a[k], key)
        invariant 0 < j < i ==> InOrder(a[j - 1], a[j + 1], key)
        invariant multiset(a[..]) == multiset(old(a[..]))
      {
        InOrderTotal(a[j - 1], a[j], key);
        SwapAdjacent(a, j);
        j := j - 1;
      }
      i := i + 1;
    }
  }

  /**
   * The filter effect: the matching products, sorted by the selected key. The result is a
   * permutation of the filter chain's result, so it holds only loaded products.
   */
  method FilterAndSort(products: seq<Product>, f: Filters) returns (r: seq<Product>)
    ensures multiset(r) == multiset(Matching(products, f))
    ensures Sorted(r, SortKeyOf(f.sortBy))
    ensures forall p :: p in r ==> p in products
  {
    var m := Matching(products, f);
    var a := new Product[|m|](i requires 0 <= i < |m| => m[i]);
    assert a[..] == m;
    SortInPlace(a, SortKeyOf(f.sortBy));
    r := a[..];
    forall p | p in r ensures p in products {
      assert p in multiset(r);
      assert p in m;
    }
  }

  /** `data.map((product) => product.category)`: the category of every product, in order. */
  function CategoryList(ps: seq<Product>): seq<string> {
    seq(|ps|, i requires 0 <= i < |ps| => ps[i].category)
  }

  lemma CategoriesOfProducts(ps: seq<Product>)
    ensures forall c :: c in CategoryList(ps) <==> exists p :: p in ps && p.category == c
  {
    var cs := CategoryList(ps);
    forall c ensures c in cs <==> exists p :: p in ps && p.category == c {
      if c in cs {
        var i :| 0 <= i < |cs| && cs[i] == c;
        assert ps[i] in ps;
      }
      if exists p :: p in ps && p.category == c {
        var p :| p in ps && p.category == c;
        var i :| 0 <= i < |ps| && ps[i] == p;
        assert cs[i] == c;
      }
    }
  }

  /** `[...new Set(data.map((product) => product.category))]`: each category of the loaded products exactly once. */
  function Categories(ps: seq<Product>): (r: seq<string>)
    ensures forall c :: c in r <==> exists p :: p in ps && p.category == c
    ensures forall i, j :: 0 <= i < j < |r| ==> r[i] != r[j]
  {
    CategoriesOfProducts(ps);
    Distinct(CategoryList(ps))
  }

  /** The catalog page's state: the loaded products, the controls, and what the grid shows. */
  class CatalogPage {
    var products: seq<Product>
    var filteredProducts: seq<Product>
    var filters: Filters
    var categories: seq<string>

    /** The grid shows the matching products, sorted by the selected key. */
    ghost predicate Valid()
      reads this
    {
      && multiset(filteredProducts) == multiset(Matching(products, filters))
      && Sorted(filteredProducts, SortKeyOf(filters.sortBy))
    }

    constructor ()
      ensures products == [] && filteredProducts == [] && categories == []
      ensures filters == DefaultFilters && Valid()
    {
      products, filteredProducts, categories := [], [], [];
      filters := DefaultFilters;
    }

    /** The filter effect, run whenever the products or a control change. */
    method Recompute()
      modifies this
      ensures Valid()
      ensures products == old(products) && filters == old(filters) && categories == old(categories)
    {
      filteredProducts := FilterAndSort(products, filters);
    }

    /**
     * The load effect: on success the fixture becomes the product list and its categories
     * the category list; on failure both product lists are emptied.
     */
    method Load(fetched: Option<seq<Product>>)
      modifies this
      ensures fetched.Some? ==> products == fetched.value && categories == Categories(fetched.value)
      ensures fetched.None? ==> products == [] && filteredProducts == [] && categories == old(categories)
      ensures filters == old(filters) && Valid()
    {
      match fetched
      case Some(data) =>
        products := data;
        categories := Categories(data);
        Recompute();
      case None =>
        products := [];
        Recompute();
    }

    /** Changing any of the four controls, followed by the filter effect. */
    method SetFilters(f: Filters)
      modifies this
      ensures filters == f && Valid()
      ensures products == old(products) && categories == old(categories)
    {
      filters := f;
      Recompute();
    }

    /** `clearFilters`: every control back to its initial value, so the grid shows every product again. */
    method ClearFilters()
      modifies this
      ensures filters == DefaultFilters && Valid()
      ensures products == old(products) && categories == old(categories)
      ensures multiset(filteredProducts) == multiset(products)
    {
      filters := DefaultFilters;
      Recompute();
      DefaultFiltersKeepAll(products);
    }
  }
}
