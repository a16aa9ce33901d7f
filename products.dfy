/**
 * The product record that the catalog, the cart, the inventory and the vendor pages share,
 * and the stock classification that the inventory and vendor product pages both define.
 */
module Products {
  import opened Common
  import opened Seqs
  import opened Text

  /**
   * A product as loaded from the product fixture. Prices are integer cents and ratings
   * integer tenths of a star; a rating may be missing.
   */
  datatype Product = Product(
    id: int,
    name: string,
    description: string,
    price: int,
    stock: int,
    category: string,
    image: string,
    rating: Option<int>,
    reviews: int,
    featured: bool,
    vendorId: int)

  function ProductId(p: Product): int { p.id }

  /** The three badges a stock count is shown with. */
  datatype StockLevel = OutOfStock | LowStock | InStock

  /** `getStockStatus(stock)`: zero is out of stock, anything below ten is low, the rest is in stock. */
  function StockStatus(stock: int): (r: StockLevel)
    ensures r == OutOfStock <==> stock == 0
    ensures r == InStock <==> stock >= 10
    ensures stock < 0 ==> r == LowStock
  {
    if stock == 0 then OutOfStock
    else if stock < 10 then LowStock
    else InStock
  }

  /** The "out" stock filter. */
  predicate IsOutOfStock(p: Product) { p.stock == 0 }

  /** The "low" stock filter. */
  predicate IsLowStock(p: Product) { p.stock > 0 && p.stock < 10 }

  /** The "in-stock" stock filter. */
  predicate IsWellStocked(p: Product) { p.stock >= 10 }

  /**
   * The badge agrees with the stock filters: out of stock exactly when the "out" filter
   * keeps the product, and, for a stock that is not negative, low exactly when "low" keeps
   * it and in stock exactly when "in-stock" keeps it. A negative stock is badged low
   * although no filter keeps it.
   */
  lemma StockStatusAgreesWithFilters(p: Product)
    ensures StockStatus(p.stock) == OutOfStock <==> IsOutOfStock(p)
    ensures p.stock >= 0 ==> (StockStatus(p.stock) == LowStock <==> IsLowStock(p))
    ensures p.stock >= 0 ==> (StockStatus(p.stock) == InStock <==> IsWellStocked(p))
    ensures p.stock < 0 ==> StockStatus(p.stock) == LowStock && !IsOutOfStock(p) && !IsLowStock(p) && !IsWellStocked(p)
  {
  }

  /** Every product with a stock that is not negative is kept by exactly one stock filter. */
  lemma StockFiltersPartition(ps: seq<Product>)
    requires forall p :: p in ps ==> p.stock >= 0
    ensures |Filter(ps, IsOutOfStock)| + |Filter(ps, IsLowStock)| + |Filter(ps, IsWellStocked)| == |ps|
  {
    FilterPartition3(ps, IsOutOfStock, IsLowStock, IsWellStocked);
  }

  /** The inventory and vendor search: the name or the category contains the term, ignoring case. */
  predicate MatchesNameOrCategory(p: Product, term: string) {
    ContainsIgnoreCase(p.name, term) || ContainsIgnoreCase(p.category, term)
  }
}
