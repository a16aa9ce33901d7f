/**
 * The cart and wishlist store (`CartProvider`): a list of cart lines with at most one
 * line per product id, a list of wishlisted products, and the two totals. Every action
 * replaces a list with a new one computed by `find`/`map`/`filter`, and the store writes
 * both lists back to local storage after every change.
 */
module Cart {
  import opened Common
  import opened Seqs
  import opened Products

  /** A cart line: the product's own fields (`...product`) and the quantity chosen. */
  datatype CartItem = CartItem(product: Product, quantity: int)

  function LineId(l: CartItem): int { l.product.id }

  /** At most one line per product id, and every quantity at least one. */
  ghost predicate WellFormed(items: seq<CartItem>) {
    UniqueKeys(items, LineId) && forall l :: l in items ==> l.quantity >= 1
  }

  /**
   * `addToCart(product, quantity)`: when a line for the product exists its quantity grows
   * by `quantity` (the line keeps its own copy of the product); otherwise a new line is
   * appended. No check is made against stock.
   */
  function AddLine(items: seq<CartItem>, product: Product, quantity: int): (r: seq<CartItem>)
    ensures HasKey(r, LineId, product.id)
    ensures |r| == if HasKey(items, LineId, product.id) then |items| else |items| + 1
  {
    if HasKey(items, LineId, product.id) then
      UpdateKey(items, LineId, product.id, (l: CartItem) => l.(quantity := l.quantity + quantity))
    else
      var r := items + [CartItem(product, quantity)];
      assert LineId(r[|items|]) == product.id;
      r
  }

  /**
   * Adding a product that already has a line keeps the number of lines, raises that line's
   * quantity by the amount added and leaves its product and every other line as they were.
   */
  lemma AddExistingProduct(items: seq<CartItem>, product: Product, quantity: int, i: int)
    requires UniqueKeys(items, LineId) && 0 <= i < |items| && LineId(items[i]) == product.id
    ensures |AddLine(items, product, quantity)| == |items|
    ensures AddLine(items, product, quantity)[i] == CartItem(items[i].product, items[i].quantity + quantity)
    ensures forall j :: 0 <= j < |items| && j != i ==> AddLine(items, product, quantity)[j] == items[j]
  {
  }

  /** Adding a product with no line appends exactly one line, at the end, and touches no other. */
  lemma AddNewProduct(items: seq<CartItem>, product: Product, quantity: int)
    requires !HasKey(items, LineId, product.id)
    ensures |AddLine(items, product, quantity)| == |items| + 1
    ensures AddLine(items, product, quantity)[..|items|] == items
    ensures AddLine(items, product, quantity)[|items|] == CartItem(product, quantity)
  {
  }

  /** Adding keeps one line per product id; with a positive amount it keeps every quantity positive. */
  lemma AddPreservesWellFormed(items: seq<CartItem>, product: Product, quantity: int)
    requires UniqueKeys(items, LineId)
    ensures UniqueKeys(AddLine(items, product, quantity), LineId)
    ensures WellFormed(items) && quantity >= 1 ==> WellFormed(AddLine(items, product, quantity))
  {
    var r := AddLine(items, product, quantity);
    if HasKey(items, LineId, product.id) {
      UpdateKeepsKeys(items, LineId, product.id, (l: CartItem) => l.(quantity := l.quantity + quantity));
      if WellFormed(items) && quantity >= 1 {
        forall l | l in r ensures l.quantity >= 1 {
          var i :| 0 <= i < |r| && r[i] == l;
          assert items[i] in items;
        }
      }
    } else {
      forall i, j | 0 <= i < j < |r| ensures LineId(r[i]) != LineId(r[j]) {
        if j == |items| {
          assert LineId(r[j]) == product.id;
        }
      }
    }
  }

  /** `removeFromCart(productId)`: every line for the product goes, the others stay in order. */
  function RemoveLine(items: seq<CartItem>, productId: int): (r: seq<CartItem>)
    ensures !HasKey(r, LineId, productId)
    ensures forall l :: l in r <==> l in items && LineId(l) != productId
  {
    WithoutKey(items, LineId, productId)
  }

  /**
   * Removing leaves no line for the product, keeps the other lines in their order, and is
   * a no-op when the product has no line.
   */
  lemma RemoveLineProperties(items: seq<CartItem>, productId: int)
    ensures !HasKey(RemoveLine(items, productId), LineId, productId)
    ensures IsSubsequence(RemoveLine(items, productId), items)
    ensures forall l :: l in items && LineId(l) != productId ==> l in RemoveLine(items, productId)
    ensures !HasKey(items, LineId, productId) ==> RemoveLine(items, productId) == items
  {
    WithoutKeyIsSubsequence(items, LineId, productId);
    if !HasKey(items, LineId, productId) {
      WithoutAbsentKey(items, LineId, productId);
    }
  }

  lemma RemovePreservesWellFormed(items: seq<CartItem>, productId: int)
    requires WellFormed(items)
    ensures WellFormed(RemoveLine(items, productId))
  {
    WithoutKeyKeepsUniqueKeys(items, LineId, productId);
  }

  /**
   * `updateQuantity(productId, quantity)`: a quantity of zero or less removes the line;
   * any other quantity overwrites the matching line's quantity.
   */
  function SetQuantity(items: seq<CartItem>, productId: int, quantity: int): (r: seq<CartItem>)
    ensures quantity <= 0 ==> !HasKey(r, LineId, productId)
    ensures quantity > 0 ==> |r| == |items| && (HasKey(r, LineId, productId) <==> HasKey(items, LineId, productId))
  {
    if quantity <= 0 then RemoveLine(items, productId)
    else UpdateKey(items, LineId, productId, (l: CartItem) => l.(quantity := quantity))
  }

  /**
   * A positive quantity changes only the matching line's quantity and keeps the length;
   * a quantity of zero or less is exactly a removal.
   */
  lemma SetQuantityProperties(items: seq<CartItem>, productId: int, quantity: int)
    ensures quantity <= 0 ==> SetQuantity(items, productId, quantity) == RemoveLine(items, productId)
    ensures quantity > 0 ==> |SetQuantity(items, productId, quantity)| == |items|
    ensures quantity > 0 ==> forall i :: 0 <= i < |items| ==>
      SetQuantity(items, productId, quantity)[i]
        == if LineId(items[i]) == productId then CartItem(items[i].product, quantity) else items[i]
  {
  }

  lemma SetQuantityPreservesWellFormed(items: seq<CartItem>, productId: int, quantity: int)
    requires WellFormed(items)
    ensures WellFormed(SetQuantity(items, productId, quantity))
  {
    if quantity <= 0 {
      RemovePreservesWellFormed(items, productId);
    } else {
      var r := SetQuantity(items, productId, quantity);
      UpdateKeepsKeys(items, LineId, productId, (l: CartItem) => l.(quantity := quantity));
      forall l | l in r ensures l.quantity >= 1 {
        var i :| 0 <= i < |r| && r[i] == l;
        assert items[i] in items;
      }
    }
  }

  /** `addToWishlist(product)`: appended unless a product with that id is already listed. */
  function AddWish(wishlist: seq<Product>, product: Product): seq<Product> {
    if HasKey(wishlist, ProductId, product.id) then wishlist else wishlist + [product]
  }

  /** Adding to the wishlist twice is the same as adding once, and the ids stay unique. */
  lemma AddWishIdempotent(wishlist: seq<Product>, product: Product)
    ensures AddWish(AddWish(wishlist, product), product) == AddWish(wishlist, product)
    ensures HasKey(AddWish(wishlist, product), ProductId, product.id)
    ensures UniqueKeys(wishlist, ProductId) ==> UniqueKeys(AddWish(wishlist, product), ProductId)
  {
    var w := AddWish(wishlist, product);
    if !HasKey(wishlist, ProductId, product.id) {
      assert ProductId(w[|wishlist|]) == product.id;
      forall i, j | 0 <= i < j < |w| && UniqueKeys(wishlist, ProductId) ensures ProductId(w[i]) != ProductId(w[j]) {
        if j == |wishlist| {
          assert ProductId(w[j]) == product.id;
        }
      }
    }
  }

  /** `removeFromWishlist(productId)`: a filter on the id. */
  function RemoveWish(wishlist: seq<Product>, productId: int): seq<Product> {
    WithoutKey(wishlist, ProductId, productId)
  }

  function Subtotal(l: CartItem): int { l.product.price * l.quantity }

  /** `getTotalItems()`: the sum of the quantities; at least the number of lines when every quantity is positive. */
  function TotalItems(items: seq<CartItem>): (r: int)
    ensures items == [] ==> r == 0
    ensures (forall l :: l in items ==> l.quantity >= 1) ==> r >= |items|
  {
    if items == [] then 0 else items[0].quantity + TotalItems(items[1..])
  }

  /** `getTotalPrice()`: the sum of price times quantity; never negative when prices and quantities are not. */
  function TotalPrice(items: seq<CartItem>): (r: int)
    ensures items == [] ==> r == 0
    ensures (forall l :: l in items ==> l.quantity >= 0 && l.product.price >= 0) ==> r >= 0
  {
    if items == [] then 0 else Subtotal(items[0]) + TotalPrice(items[1..])
  }

  /** Changing the one line for a product moves each total by that line's change. */
  lemma {:induction false} TotalsAfterUpdate(items: seq<CartItem>, productId: int, f: CartItem -> CartItem, i: int)
    requires UniqueKeys(items, LineId) && 0 <= i < |items| && LineId(items[i]) == productId
    ensures TotalItems(UpdateKey(items, LineId, productId, f)) == TotalItems(items) - items[i].quantity + f(items[i]).quantity
    ensures TotalPrice(UpdateKey(items, LineId, productId, f)) == TotalPrice(items) - Subtotal(items[i]) + Subtotal(f(items[i]))
    decreases |items|
  {
    var t := items[1..];
    var r := UpdateKey(items, LineId, productId, f);
    assert r[1..] == UpdateKey(t, LineId, productId, f);
    assert TotalItems(r) == r[0].quantity + TotalItems(r[1..]);
    assert TotalPrice(r) == Subtotal(r[0]) + TotalPrice(r[1..]);
    UniqueKeysTail(items, LineId);
    if i == 0 {
      UpdateAbsentKey(t, LineId, productId, f);
    } else {
      assert t[i - 1] == items[i];
      TotalsAfterUpdate(t, productId, f, i - 1);
    }
  }

  lemma {:induction false} TotalsOfAppend(items: seq<CartItem>, l: CartItem)
    ensures TotalItems(items + [l]) == TotalItems(items) + l.quantity
    ensures TotalPrice(items + [l]) == TotalPrice(items) + Subtotal(l)
    decreases |items|
  {
    if items != [] {
      assert (items + [l])[1..] == items[1..] + [l];
      TotalsOfAppend(items[1..], l);
    }
  }

  /**
   * Adding `quantity` of a product raises the item count by `quantity`; when the product
   * has no line yet, it raises the total price by `quantity` times its price.
   */
  lemma TotalsAfterAdd(items: seq<CartItem>, product: Product, quantity: int)
    requires UniqueKeys(items, LineId)
    ensures TotalItems(AddLine(items, product, quantity)) == TotalItems(items) + quantity
    ensures !HasKey(items, LineId, product.id) ==>
      TotalPrice(AddLine(items, product, quantity)) == TotalPrice(items) + product.price * quantity
  {
    if HasKey(items, LineId, product.id) {
      var i :| 0 <= i < |items| && LineId(items[i]) == product.id;
      TotalsAfterUpdate(items, product.id, (l: CartItem) => l.(quantity := l.quantity + quantity), i);
    } else {
      TotalsOfAppend(items, CartItem(product, quantity));
    }
  }

  /**
   * When the product already has a line, adding raises the total price by `quantity`
   * times the price stored on that line, which keeps its own copy of the product.
   */
  lemma TotalPriceAfterAddExisting(items: seq<CartItem>, product: Product, quantity: int, i: int)
    requires UniqueKeys(items, LineId) && 0 <= i < |items| && LineId(items[i]) == product.id
    ensures TotalPrice(AddLine(items, product, quantity)) == TotalPrice(items) + items[i].product.price * quantity
  {
    var f := (l: CartItem) => l.(quantity := l.quantity + quantity);
    var l := items[i];
    var r := UpdateKey(items, LineId, product.id, f);
    TotalsAfterUpdate(items, product.id, f, i);
    assert f(l) == CartItem(l.product, l.quantity + quantity);
    SubtotalGrows(l, quantity);
    assert TotalPrice(r) == TotalPrice(items) + l.product.price * quantity;
    assert HasKey(items, LineId, product.id);
    assert AddLine(items, product, quantity) == r;
  }

  /** Setting a positive quantity on a product's one line moves each total by that line's change. */
  lemma TotalsAfterSetQuantity(items: seq<CartItem>, i: int, quantity: int)
    requires UniqueKeys(items, LineId) && 0 <= i < |items| && quantity > 0
    ensures TotalItems(SetQuantity(items, LineId(items[i]), quantity)) == TotalItems(items) - items[i].quantity + quantity
    ensures TotalPrice(SetQuantity(items, LineId(items[i]), quantity))
      == TotalPrice(items) - Subtotal(items[i]) + Subtotal(CartItem(items[i].product, quantity))
  {
    var f := (l: CartItem) => l.(quantity := quantity);
    assert SetQuantity(items, LineId(items[i]), quantity) == UpdateKey(items, LineId, LineId(items[i]), f);
    TotalsAfterUpdate(items, LineId(items[i]), f, i);
  }

  /** Raising a line's quantity by `n` raises its subtotal by `n` times its price. */
  lemma SubtotalGrows(l: CartItem, n: int)
    ensures Subtotal(CartItem(l.product, l.quantity + n)) == Subtotal(l) + l.product.price * n
  {
    var p, q := l.product.price, l.quantity;
    assert p * (q + n) == p * q + p * n;
  }

  /** Removing a product's one line lowers the item count by that line's quantity and the price by its subtotal. */
  lemma {:induction false} TotalsAfterRemove(items: seq<CartItem>, i: int)
    requires UniqueKeys(items, LineId) && 0 <= i < |items|
    ensures TotalItems(RemoveLine(items, LineId(items[i]))) == TotalItems(items) - items[i].quantity
    ensures TotalPrice(RemoveLine(items, LineId(items[i]))) == TotalPrice(items) - Subtotal(items[i])
    decreases |items|
  {
    var k := LineId(items[i]);
    var t := items[1..];
    UniqueKeysTail(items, LineId);
    assert RemoveLine(items, k) == (if LineId(items[0]) != k then [items[0]] else []) + RemoveLine(t, k);
    if i == 0 {
      WithoutAbsentKey(t, LineId, k);
    } else {
      assert t[i - 1] == items[i];
      TotalsAfterRemove(t, i - 1);
    }
  }

  /** Adding the same product twice gives one line whose quantity is the sum (1 then 2 gives 3). */
  lemma SameProductTwice(product: Product)
    ensures |AddLine(AddLine([], product, 1), product, 2)| == 1
    ensures AddLine(AddLine([], product, 1), product, 2)[0].quantity == 3
  {
    var c := AddLine([], product, 1);
    assert LineId(c[0]) == product.id;
  }

  /** One unit at $199.99 and two at $34.99 make three items costing $269.97. */
  lemma TwoProductTotals(a: Product, b: Product)
    requires a.id == 1 && a.price == 19999 && b.id == 6 && b.price == 3499
    ensures TotalItems(AddLine(AddLine([], a, 1), b, 2)) == 3
    ensures TotalPrice(AddLine(AddLine([], a, 1), b, 2)) == 26997
  {
    var c := AddLine([], a, 1);
    assert c == [CartItem(a, 1)];
    assert !HasKey(c, LineId, b.id);
    assert AddLine(c, b, 2) == [CartItem(a, 1), CartItem(b, 2)];
  }

  /**
   * The store behind `useCart()`. `savedCart` and `savedWishlist` stand for the local storage
   * keys "cart" and "wishlist" (`None` when a key is absent); the store rewrites them after
   * every change.
   */
  class CartStore {
    var items: seq<CartItem>
    var wishlist: seq<Product>
    var savedCart: Option<seq<CartItem>>
    var savedWishlist: Option<seq<Product>>

    /** Local storage holds exactly the current lists. */
    ghost predicate Persisted()
      reads this
    {
      savedCart == Some(items) && savedWishlist == Some(wishlist)
    }

    /** Mounting the provider: saved lists are loaded when present, then written back. */
    constructor (savedCart: Option<seq<CartItem>>, savedWishlist: Option<seq<Product>>)
      ensures items == savedCart.GetOr([]) && wishlist == savedWishlist.GetOr([])
      ensures Persisted()
    {
      items := savedCart.GetOr([]);
      wishlist := savedWishlist.GetOr([]);
      this.savedCart := Some(savedCart.GetOr([]));
      this.savedWishlist := Some(savedWishlist.GetOr([]));
    }

    method AddToCart(product: Product, quantity: int)
      modifies this
      ensures items == AddLine(old(items), product, quantity) && wishlist == old(wishlist)
      ensures old(WellFormed(items)) && quantity >= 1 ==> WellFormed(items)
      ensures Persisted()
    {
      if old(WellFormed(items)) {
        AddPreservesWellFormed(items, product, quantity);
      }
      items := AddLine(items, product, quantity);
      savedCart, savedWishlist := Some(items), Some(wishlist);
    }

    method RemoveFromCart(productId: int)
      modifies this
      ensures items == RemoveLine(old(items), productId) && wishlist == old(wishlist)
      ensures old(WellFormed(items)) ==> WellFormed(items)
      ensures Persisted()
    {
      if WellFormed(items) {
        RemovePreservesWellFormed(items, productId);
      }
      items := RemoveLine(items, productId);
      savedCart, savedWishlist := Some(items), Some(wishlist);
    }

    method UpdateQuantity(productId: int, quantity: int)
      modifies this
      ensures items == SetQuantity(old(items), productId, quantity) && wishlist == old(wishlist)
      ensures old(WellFormed(items)) ==> WellFormed(items)
      ensures Persisted()
    {
      if quantity <= 0 {
        RemoveFromCart(productId);
        return;
      }
      if WellFormed(items) {
        SetQuantityPreservesWellFormed(items, productId, quantity);
      }
      items := SetQuantity(items, productId, quantity);
      savedCart, savedWishlist := Some(items), Some(wishlist);
    }

    method ClearCart()
      modifies this
      ensures items == [] && wishlist == old(wishlist)
      ensures Persisted()
    {
      items := [];
      savedCart, savedWishlist := Some(items), Some(wishlist);
    }

    method AddToWishlist(product: Product)
      modifies this
      ensures wishlist == AddWish(old(wishlist), product) && items == old(items)
      ensures Persisted()
    {
      wishlist := AddWish(wishlist, product);
      savedCart, savedWishlist := Some(items), Some(wishlist);
    }

    method RemoveFromWishlist(productId: int)
      modifies this
      ensures wishlist == RemoveWish(old(wishlist), productId) && items == old(items)
      ensures Persisted()
    {
      wishlist := RemoveWish(wishlist, productId);
      savedCart, savedWishlist := Some(items), Some(wishlist);
    }

    function GetTotalPrice(): int
      reads this
    {
      TotalPrice(items)
    }

    function GetTotalItems(): int
      reads this
    {
      TotalItems(items)
    }
  }
}
