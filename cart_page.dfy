/**
 * The customer cart page: every line has a minus button, a number input and a plus button,
 * and all three go through `handleQuantityChange`, which removes the line below one and
 * otherwise asks the store to set the new quantity.
 */
module CartPage {
  import opened Common
  import opened Seqs
  import opened Cart

  /** `handleQuantityChange(productId, newQuantity)`: what it does to the cart lines. */
  function QuantityChange(items: seq<CartItem>, productId: int, newQuantity: int): (r: seq<CartItem>)
    ensures newQuantity < 1 ==> !HasKey(r, LineId, productId)
    ensures newQuantity >= 1 ==> |r| == |items|
  {
    if newQuantity < 1 then RemoveLine(items, productId) else SetQuantity(items, productId, newQuantity)
  }

  /**
   * The page's guard (below one removes) and the store's guard (zero or less removes) agree
   * on whole numbers, so the dispatcher changes the cart exactly as `updateQuantity` would.
   */
  lemma QuantityChangeIsSetQuantity(items: seq<CartItem>, productId: int, newQuantity: int)
    ensures QuantityChange(items, productId, newQuantity) == SetQuantity(items, productId, newQuantity)
    ensures newQuantity < 1 ==> QuantityChange(items, productId, newQuantity) == RemoveLine(items, productId)
  {
  }

  /**
   * `Number.parseInt(e.target.value) || 1`: an input that does not parse (`None`, NaN) or
   * parses to zero becomes one.
   */
  function InputQuantity(parsed: Option<int>): (q: int)
    ensures q != 0
    ensures parsed == None || parsed == Some(0) ==> q == 1
    ensures parsed.Some? && parsed.value != 0 ==> q == parsed.value
  {
    match parsed
    case None => 1
    case Some(n) => if n == 0 then 1 else n
  }

  /** Typing into the quantity box removes the line only when a negative number is entered. */
  lemma InputRemovesOnlyWhenNegative(parsed: Option<int>)
    ensures InputQuantity(parsed) < 1 <==> parsed.Some? && parsed.value < 0
  {
  }

  /** Pressing minus on a line of one removes that line, and with it one line and its subtotal. */
  lemma MinusOnSingleRemoves(items: seq<CartItem>, i: int)
    requires WellFormed(items) && 0 <= i < |items| && items[i].quantity == 1
    ensures QuantityChange(items, LineId(items[i]), items[i].quantity - 1) == RemoveLine(items, LineId(items[i]))
    ensures |QuantityChange(items, LineId(items[i]), items[i].quantity - 1)| == |items| - 1
    ensures TotalItems(QuantityChange(items, LineId(items[i]), items[i].quantity - 1)) == TotalItems(items) - 1
    ensures TotalPrice(QuantityChange(items, LineId(items[i]), items[i].quantity - 1)) == TotalPrice(items) - items[i].product.price
  {
    assert HasKey(items, LineId, LineId(items[i]));
    WithoutUniqueKeyLength(items, LineId, LineId(items[i]));
    TotalsAfterRemove(items, i);
  }

  /**
   * Pressing plus (`item.quantity + 1`) raises only that line's quantity, by exactly one,
   * and keeps the number of lines.
   */
  lemma PlusAddsOne(items: seq<CartItem>, i: int)
    requires WellFormed(items) && 0 <= i < |items|
    ensures |QuantityChange(items, LineId(items[i]), items[i].quantity + 1)| == |items|
    ensures QuantityChange(items, LineId(items[i]), items[i].quantity + 1)[i] == CartItem(items[i].product, items[i].quantity + 1)
    ensures forall j :: 0 <= j < |items| && j != i ==> QuantityChange(items, LineId(items[i]), items[i].quantity + 1)[j] == items[j]
  {
    assert items[i] in items;
    SetQuantityProperties(items, LineId(items[i]), items[i].quantity + 1);
  }

  /**
   * The dispatcher's effect on the totals, for the one line of a product: a new quantity
   * below one takes the line's quantity and subtotal away; any other replaces them with
   * the new quantity and its subtotal.
   */
  lemma QuantityChangeTotals(items: seq<CartItem>, i: int, newQuantity: int)
    requires UniqueKeys(items, LineId) && 0 <= i < |items|
    ensures newQuantity < 1 ==>
      && TotalItems(QuantityChange(items, LineId(items[i]), newQuantity)) == TotalItems(items) - items[i].quantity
      && TotalPrice(QuantityChange(items, LineId(items[i]), newQuantity)) == TotalPrice(items) - Subtotal(items[i])
    ensures newQuantity >= 1 ==>
      && TotalItems(QuantityChange(items, LineId(items[i]), newQuantity)) == TotalItems(items) - items[i].quantity + newQuantity
      && TotalPrice(QuantityChange(items, LineId(items[i]), newQuantity))
           == TotalPrice(items) - Subtotal(items[i]) + items[i].product.price * newQuantity
  {
    if newQuantity < 1 {
      TotalsAfterRemove(items, i);
    } else {
      TotalsAfterSetQuantity(items, i, newQuantity);
    }
  }

  /**
   * The dispatcher on the store: the lines change as `QuantityChange` says, the wishlist
   * does not, both lists are saved, and a well-formed cart stays well-formed.
   */
  method HandleQuantityChange(store: CartStore, productId: int, newQuantity: int)
    modifies store
    ensures store.items == QuantityChange(old(store.items), productId, newQuantity)
    ensures store.wishlist == old(store.wishlist) && store.Persisted()
    ensures old(WellFormed(store.items)) ==> WellFormed(store.items)
  {
    if newQuantity < 1 {
      store.RemoveFromCart(productId);
    } else {
      store.UpdateQuantity(productId, newQuantity);
    }
  }

  /** The minus button of line `i`. */
  method PressMinus(store: CartStore, i: int)
    requires 0 <= i < |store.items|
    modifies store
    ensures store.items == QuantityChange(old(store.items), LineId(old(store.items)[i]), old(store.items)[i].quantity - 1)
    ensures store.wishlist == old(store.wishlist) && store.Persisted()
    ensures old(WellFormed(store.items)) ==> WellFormed(store.items)
  {
    var id, q := LineId(store.items[i]), store.items[i].quantity - 1;
    HandleQuantityChange(store, id, q);
  }

  /** The plus button of line `i`. */
  method PressPlus(store: CartStore, i: int)
    requires 0 <= i < |store.items|
    modifies store
    ensures store.items == QuantityChange(old(store.items), LineId(old(store.items)[i]), old(store.items)[i].quantity + 1)
    ensures store.wishlist == old(store.wishlist) && store.Persisted()
    ensures old(WellFormed(store.items)) ==> WellFormed(store.items)
  {
    var id, q := LineId(store.items[i]), store.items[i].quantity + 1;
    HandleQuantityChange(store, id, q);
  }

  /** The quantity box of line `i`, given what `parseInt` made of the text typed. */
  method EnterQuantity(store: CartStore, i: int, parsed: Option<int>)
    requires 0 <= i < |store.items|
    modifies store
    ensures store.items == QuantityChange(old(store.items), LineId(old(store.items)[i]), InputQuantity(parsed))
    ensures store.wishlist == old(store.wishlist) && store.Persisted()
    ensures old(WellFormed(store.items)) ==> WellFormed(store.items)
  {
    HandleQuantityChange(store, LineId(store.items[i]), InputQuantity(parsed));
  }
}
