/**
 * The vendor's product list: the fetched products narrowed to the signed-in vendor (the
 * page assumes vendor 1), a search box over name and category, and a delete button.
 */
module VendorProducts {
  import opened Common
  import opened Seqs
  import opened Products

  /** The vendor id the page assumes for the signed-in vendor. */
  const CurrentVendor := 1

  predicate OwnedByCurrentVendor(p: Product) { p.vendorId == CurrentVendor }

  /** `data.filter((product) => product.vendorId === 1)`. */
  function VendorProductsOf(data: seq<Product>): seq<Product> {
    Filter(data, OwnedByCurrentVendor)
  }

  /** The loaded list is exactly the fetched products of vendor 1, in their fetched order. */
  lemma VendorProductsExactly(data: seq<Product>)
    ensures forall p :: p in VendorProductsOf(data) <==> p in data && p.vendorId == 1
    ensures IsSubsequence(VendorProductsOf(data), data)
    ensures (forall p :: p in data ==> p.vendorId == 1) ==> VendorProductsOf(data) == data
  {
    FilterIsSubsequence(data, OwnedByCurrentVendor);
    if forall p :: p in data ==> p.vendorId == 1 {
      FilterKeepsAll(data, OwnedByCurrentVendor);
    }
  }

  /** The search effect: an empty term shows every vendor product. */
  function Searched(ps: seq<Product>, term: string): seq<Product> {
    if term == "" then ps else Filter(ps, (p: Product) => MatchesNameOrCategory(p, term))
  }

  /**
   * An empty term keeps the whole list; any other keeps, in order, exactly the products
   * whose name or category contains it, ignoring case.
   */
  lemma SearchedExactly(ps: seq<Product>, term: string)
    ensures term == "" ==> Searched(ps, term) == ps
    ensures forall p :: p in Searched(ps, term) <==> p in ps && (term == "" || MatchesNameOrCategory(p, term))
    ensures IsSubsequence(Searched(ps, term), ps)
  {
    if term == "" {
      SubsequenceReflexive(ps);
    } else {
      FilterIsSubsequence(ps, (p: Product) => MatchesNameOrCategory(p, term));
    }
  }

  /** `handleDeleteProduct(productId)`. */
  function DeleteProduct(ps: seq<Product>, productId: int): seq<Product> {
    WithoutKey(ps, ProductId, productId)
  }

  /**
   * Deleting removes every product with that id, keeps the rest in order, is a no-op for an
   * absent id, and shortens a list with unique ids by exactly one when the id is present.
   */
  lemma DeleteProductProperties(ps: seq<Product>, productId: int)
    ensures forall p :: p in DeleteProduct(ps, productId) <==> p in ps && p.id != productId
    ensures IsSubsequence(DeleteProduct(ps, productId), ps)
    ensures !HasKey(ps, ProductId, productId) ==> DeleteProduct(ps, productId) == ps
    ensures UniqueKeys(ps, ProductId) && HasKey(ps, ProductId, productId) ==> |DeleteProduct(ps, productId)| == |ps| - 1
  {
    WithoutKeyIsSubsequence(ps, ProductId, productId);
    if !HasKey(ps, ProductId, productId) {
      WithoutAbsentKey(ps, ProductId, productId);
    }
    if UniqueKeys(ps, ProductId) && HasKey(ps, ProductId, productId) {
      WithoutUniqueKeyLength(ps, ProductId, productId);
    }
  }

  class VendorProductsPage {
    var products: seq<Product>
    var filteredProducts: seq<Product>
    var searchTerm: string

    /** The table shows the search effect's result. */
    ghost predicate Valid()
      reads this
    {
      filteredProducts == Searched(products, searchTerm)
    }

    constructor ()
      ensures products == [] && filteredProducts == [] && searchTerm == "" && Valid()
    {
      products, filteredProducts, searchTerm := [], [], "";
    }

    /** The load effect: vendor 1's products on success, both lists empty on failure. */
    method Load(fetched: Option<seq<Product>>)
      modifies this
      ensures fetched.Some? ==> products == VendorProductsOf(fetched.value)
      ensures fetched.None? ==> products == [] && filteredProducts == []
      ensures searchTerm == old(searchTerm) && Valid()
    {
      if fetched.Some? {
        products := VendorProductsOf(fetched.value);
      } else {
        products := [];
      }
      filteredProducts := Searched(products, searchTerm);
    }

    method SetSearch(term: string)
      modifies this
      ensures searchTerm == term && products == old(products) && Valid()
    {
      searchTerm := term;
      filteredProducts := Searched(products, searchTerm);
    }

    method Delete(productId: int)
      modifies this
      ensures products == DeleteProduct(old(products), productId)
      ensures searchTerm == old(searchTerm) && Valid()
    {
      products := DeleteProduct(products, productId);
      filteredProducts := Searched(products, searchTerm);
    }
  }
}
