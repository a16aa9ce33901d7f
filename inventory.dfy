/**
 * The inventory dashboard: stock counts taken when the products load, a product table
 * narrowed by a search box and stock and category selects, editable stock counts, a
 * featured toggle, and restock buttons on the stock alerts.
 */
module Inventory {
  import opened Common
  import opened Seqs
  import opened Products
  import Catalog

  /** The four cards at the top of the dashboard. */
  datatype InventoryStats = InventoryStats(totalProducts: int, lowStockItems: int, outOfStockItems: int, featuredItems: int)

  predicate IsFeatured(p: Product) { p.featured }

  /** An empty search term applies no filter; otherwise the name or the category must contain it. */
  function BySearch(ps: seq<Product>, term: string): seq<Product> {
    if term == "" then ps else Filter(ps, (p: Product) => MatchesNameOrCategory(p, term))
  }

  /** The stock select: "low", "out" and "in-stock" filter; "all" and any other value do not. */
  function ByStock(ps: seq<Product>, stockFilter: string): seq<Product> {
    if stockFilter == "low" then Filter(ps, IsLowStock)
    else if stockFilter == "out" then Filter(ps, IsOutOfStock)
    else if stockFilter == "in-stock" then Filter(ps, IsWellStocked)
    else ps
  }

  function ByCategory(ps: seq<Product>, category: string): seq<Product> {
    if category == "all" then ps else Filter(ps, (p: Product) => p.category == category)
  }

  /** The filter effect: search, then stock, then category. */
  function Visible(ps: seq<Product>, searchTerm: string, stockFilter: string, categoryFilter: string): (r: seq<Product>)
    ensures |r| <= |ps|
    ensures forall p :: p in r ==>
      && p in ps && StockKept(p, stockFilter) && (categoryFilter == "all" || p.category == categoryFilter)
  {
    ByCategory(ByStock(BySearch(ps, searchTerm), stockFilter), categoryFilter)
  }

  /** Whether the stock select keeps a product. */
  predicate StockKept(p: Product, stockFilter: string) {
    if stockFilter == "low" then IsLowStock(p)
    else if stockFilter == "out" then IsOutOfStock(p)
    else if stockFilter == "in-stock" then IsWellStocked(p)
    else true
  }

  /**
   * A product is listed exactly when it is loaded, the search term is empty or found in its
   * name or category (not its description), the stock select keeps it, and the category
   * select is "all" or its category.
   */
  lemma VisibleExactly(ps: seq<Product>, searchTerm: string, stockFilter: string, categoryFilter: string, p: Product)
    ensures p in Visible(ps, searchTerm, stockFilter, categoryFilter) <==>
      && p in ps
      && (searchTerm == "" || MatchesNameOrCategory(p, searchTerm))
      && StockKept(p, stockFilter)
      && (categoryFilter == "all" || p.category == categoryFilter)
  {
  }

  /** The table only ever drops products: it is a subsequence of the loaded list. */
  lemma VisibleIsSubsequence(ps: seq<Product>, searchTerm: string, stockFilter: string, categoryFilter: string)
    ensures IsSubsequence(Visible(ps, searchTerm, stockFilter, categoryFilter), ps)
  {
    var s1 := BySearch(ps, searchTerm);
    var s2 := ByStock(s1, stockFilter);
    if searchTerm == "" {
      SubsequenceReflexive(ps);
    } else {
      FilterIsSubsequence(ps, (p: Product) => MatchesNameOrCategory(p, searchTerm));
    }
    if stockFilter == "low" {
      FilterIsSubsequence(s1, IsLowStock);
    } else if stockFilter == "out" {
      FilterIsSubsequence(s1, IsOutOfStock);
    } else if stockFilter == "in-stock" {
      FilterIsSubsequence(s1, IsWellStocked);
    } else {
      SubsequenceReflexive(s1);
    }
    if categoryFilter == "all" {
      SubsequenceReflexive(s2);
    } else {
      FilterIsSubsequence(s2, (p: Product) => p.category == categoryFilter);
    }
    SubsequenceTransitive(s2, s1, ps);
    SubsequenceTransitive(Visible(ps, searchTerm, stockFilter, categoryFilter), s2, ps);
  }

  /** The counts the load step computes from the fetched products. */
  function LoadStats(data: seq<Product>): InventoryStats {
    InventoryStats(|data|, |Filter(data, IsLowStock)|, |Filter(data, IsOutOfStock)|, |Filter(data, IsFeatured)|)
  }

  /**
   * The load-time counts are the sizes of the "low" and "out" views of the full list with
   * no search and every category, and, when no stock is negative, the low, out-of-stock and
   * "in-stock" counts add up to the total.
   */
  lemma LoadStatsMatchViews(data: seq<Product>)
    ensures LoadStats(data).lowStockItems == |Visible(data, "", "low", "all")|
    ensures LoadStats(data).outOfStockItems == |Visible(data, "", "out", "all")|
    ensures LoadStats(data).totalProducts == |Visible(data, "", "all", "all")|
    ensures (forall p :: p in data ==> p.stock >= 0) ==>
      LoadStats(data).lowStockItems + LoadStats(data).outOfStockItems + |Visible(data, "", "in-stock", "all")|
        == LoadStats(data).totalProducts
  {
    if forall p :: p in data ==> p.stock >= 0 {
      StockFiltersPartition(data);
    }
  }

  /** `updateStock(productId, newStock)`: the matching product gets the new stock. */
  function SetStock(ps: seq<Product>, productId: int, newStock: int): seq<Product> {
    UpdateKey(ps, ProductId, productId, (p: Product) => p.(stock := newStock))
  }

  /**
   * Setting a stock keeps the length and the order, changes only the stock field, and only
   * of the products with that id.
   */
  lemma SetStockChangesOnlyStock(ps: seq<Product>, productId: int, newStock: int)
    ensures |SetStock(ps, productId, newStock)| == |ps|
    ensures forall i :: 0 <= i < |ps| ==>
      && SetStock(ps, productId, newStock)[i].(stock := ps[i].stock) == ps[i]
      && SetStock(ps, productId, newStock)[i].stock == (if ps[i].id == productId then newStock else ps[i].stock)
  {
  }

  /** Flips a product's featured flag. */
  function FlipFeatured(p: Product): Product { p.(featured := !p.featured) }

  /** `toggleFeatured(productId)`. */
  function ToggleFeatured(ps: seq<Product>, productId: int): seq<Product> {
    UpdateKey(ps, ProductId, productId, FlipFeatured)
  }

  /**
   * Toggling flips the flag of exactly the products with that id and changes nothing else,
   * and toggling twice restores the list.
   */
  lemma ToggleFeaturedProperties(ps: seq<Product>, productId: int)
    ensures |ToggleFeatured(ps, productId)| == |ps|
    ensures forall i :: 0 <= i < |ps| ==>
      && ToggleFeatured(ps, productId)[i].(featured := ps[i].featured) == ps[i]
      && ToggleFeatured(ps, productId)[i].featured == (if ps[i].id == productId then !ps[i].featured else ps[i].featured)
    ensures ToggleFeatured(ToggleFeatured(ps, productId), productId) == ps
  {
    UpdateTwice(ps, ProductId, productId, FlipFeatured);
  }

  /** `Number.parseInt(value) || 0`: text that does not parse becomes zero; a negative number is kept. */
  function StockInput(parsed: Option<int>): (r: int)
    ensures parsed.None? ==> r == 0
    ensures parsed.Some? ==> r == parsed.value
  {
    match parsed
    case None => 0
    case Some(n) => n
  }

  /**
   * A negative number typed into a product's stock box is stored as it is: the product is
   * then badged "Low Stock", yet none of the "low", "out" and "in-stock" filters keeps it.
   */
  lemma NegativeStockEntry(ps: seq<Product>, i: int, n: int)
    requires 0 <= i < |ps| && n < 0
    ensures SetStock(ps, ps[i].id, StockInput(Some(n)))[i].stock == n
    ensures StockStatus(SetStock(ps, ps[i].id, StockInput(Some(n)))[i].stock) == LowStock
    ensures forall stockFilter :: stockFilter in ["low", "out", "in-stock"] ==>
      !StockKept(SetStock(ps, ps[i].id, StockInput(Some(n)))[i], stockFilter)
  {
    SetStockChangesOnlyStock(ps, ps[i].id, n);
  }

  /**
   * The "Restock" button of an out-of-stock alert sets the stock to 10, which moves the
   * product to "In Stock" and shortens the out-of-stock list by one.
   */
  lemma RestockOut(ps: seq<Product>, i: int)
    requires UniqueKeys(ps, ProductId) && 0 <= i < |ps| && IsOutOfStock(ps[i])
    ensures SetStock(ps, ps[i].id, 10)[i].stock == 10
    ensures StockStatus(SetStock(ps, ps[i].id, 10)[i].stock) == InStock
    ensures |Filter(SetStock(ps, ps[i].id, 10), IsOutOfStock)| == |Filter(ps, IsOutOfStock)| - 1
  {
    var f := (p: Product) => p.(stock := 10);
    assert SetStock(ps, ps[i].id, 10) == UpdateKey(ps, ProductId, ps[i].id, f);
    CountAfterUpdate(ps, ProductId, ps[i].id, f, IsOutOfStock, i);
  }

  /**
   * The "Restock" button of a low-stock alert adds 20, which moves the product to
   * "In Stock" and shortens the low-stock list by one.
   */
  lemma RestockLow(ps: seq<Product>, i: int)
    requires UniqueKeys(ps, ProductId) && 0 <= i < |ps| && IsLowStock(ps[i])
    ensures SetStock(ps, ps[i].id, ps[i].stock + 20)[i].stock == ps[i].stock + 20
    ensures StockStatus(SetStock(ps, ps[i].id, ps[i].stock + 20)[i].stock) == InStock
    ensures |Filter(SetStock(ps, ps[i].id, ps[i].stock + 20), IsLowStock)| == |Filter(ps, IsLowStock)| - 1
  {
    var n := ps[i].stock + 20;
    var f := (p: Product) => p.(stock := n);
    assert SetStock(ps, ps[i].id, n) == UpdateKey(ps, ProductId, ps[i].id, f);
    CountAfterUpdate(ps, ProductId, ps[i].id, f, IsLowStock, i);
  }

  class InventoryDashboard {
    var products: seq<Product>
    var filteredProducts: seq<Product>
    var searchTerm: string
    var stockFilter: string
    var categoryFilter: string
    var categories: seq<string>
    var stats: InventoryStats

    /** The table shows what the filter effect computes from the products and the controls. */
    ghost predicate Valid()
      reads this
    {
      filteredProducts == Visible(products, searchTerm, stockFilter, categoryFilter)
    }

    constructor ()
      ensures products == [] && filteredProducts == [] && categories == []
      ensures searchTerm == "" && stockFilter == "all" && categoryFilter == "all"
      ensures stats == InventoryStats(0, 0, 0, 0) && Valid()
    {
      products, filteredProducts, categories := [], [], [];
      searchTerm, stockFilter, categoryFilter := "", "all", "all";
      stats := InventoryStats(0, 0, 0, 0);
    }

    /** The load effect; a failed fetch is only logged and changes nothing. */
    method Load(fetched: Option<seq<Product>>)
      modifies this
      ensures fetched.Some? ==>
        products == fetched.value && categories == Catalog.Categories(fetched.value) && stats == LoadStats(fetched.value)
      ensures fetched.None? ==> products == old(products) && categories == old(categories) && stats == old(stats)
      ensures searchTerm == old(searchTerm) && stockFilter == old(stockFilter) && categoryFilter == old(categoryFilter)
      ensures old(Valid()) ==> Valid()
      ensures fetched.Some? ==> Valid()
    {
      if fetched.Some? {
        var data := fetched.value;
        products := data;
        categories := Catalog.Categories(data);
        stats := LoadStats(data);
        filteredProducts := Visible(products, searchTerm, stockFilter, categoryFilter);
      }
    }

    /** Changing the search box or either select, followed by the filter effect. */
    method SetFilters(term: string, stock: string, category: string)
      modifies this
      ensures searchTerm == term && stockFilter == stock && categoryFilter == category && Valid()
      ensures products == old(products) && categories == old(categories) && stats == old(stats)
    {
      searchTerm, stockFilter, categoryFilter := term, stock, category;
      filteredProducts := Visible(products, searchTerm, stockFilter, categoryFilter);
    }

    /** `updateStock`; the stat cards keep their load-time counts. */
    method UpdateStock(productId: int, newStock: int)
      modifies this
      ensures products == SetStock(old(products), productId, newStock) && Valid()
      ensures stats == old(stats) && categories == old(categories)
      ensures searchTerm == old(searchTerm) && stockFilter == old(stockFilter) && categoryFilter == old(categoryFilter)
    {
      products := SetStock(products, productId, newStock);
      filteredProducts := Visible(products, searchTerm, stockFilter, categoryFilter);
    }

    /**
     * The stock box of a product's row: `updateStock(id, Number.parseInt(value) || 0)`, so
     * text that does not parse stores zero and a negative number is stored as typed.
     */
    method EnterStock(productId: int, parsed: Option<int>)
      modifies this
      ensures products == SetStock(old(products), productId, StockInput(parsed)) && Valid()
      ensures stats == old(stats) && categories == old(categories)
      ensures searchTerm == old(searchTerm) && stockFilter == old(stockFilter) && categoryFilter == old(categoryFilter)
    {
      UpdateStock(productId, StockInput(parsed));
    }

    /** `toggleFeatured`; the featured card keeps its load-time count. */
    method ToggleFeaturedFlag(productId: int)
      modifies this
      ensures products == ToggleFeatured(old(products), productId) && Valid()
      ensures stats == old(stats) && categories == old(categories)
      ensures searchTerm == old(searchTerm) && stockFilter == old(stockFilter) && categoryFilter == old(categoryFilter)
    {
      products := ToggleFeatured(products, productId);
      filteredProducts := Visible(products, searchTerm, stockFilter, categoryFilter);
    }
  }
}
