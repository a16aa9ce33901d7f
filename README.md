# Clothify storefront state, in Dafny

A model of the in-memory state logic of a demo multi-role e-commerce front end. The front end
has customer, vendor, inventory, delivery, moderator and admin pages, and it has no backend.
Each handler is one synchronous update of component state. The model makes each page a
`class` whose fields are `seq`s of records and whose methods are those handlers. It also gives
each handler a pure function from the old state to the new one, with lemmas that state what
the source promises about that function.

Modules, one per source file, plus four shared ones:

- `Common`: `Option` and `Result`.
- `Seqs`: the list operations the pages build on.
  - `Filter` is `Array.prototype.filter`.
  - `WithoutKey` is the `filter` by id that removes an entry.
  - `UpdateKey` is the `map` that rewrites the entries with an id.
  - `Distinct` is `[...new Set(...)]`.
  - The module also defines subsequences and counting lemmas.
- `Text`: `toLowerCase` on ASCII letters, `includes`, and the name order used in place of `localeCompare`.
- `Products`: the product record and `getStockStatus`, which the inventory and vendor pages both define.
- `Cart` (`context/CartContext.js`): the cart and wishlist store, with local storage as two fields.
- `Auth` (`context/AuthContext.js`): the session store.
- `Catalog`: the catalog's filter chain, its in-place sort on an `array`, and the category list.
- `CartPage`: the quantity dispatcher and its three call sites.
- `Checkout`: the three-step wizard and order placement.
- `Inventory`: the stats, the filter chain, the stock edits, the featured toggle and the restock buttons.
- `VendorProducts`: the vendor filter, the search and deletion.
- `AddProduct`: the image list, capped at five, and the submit handler's validation chain.
- `VendorOrders`: the status filter, status updates, and the transitions the menu offers.
- `Delivery`: the counters, the status updates, the one-time-code dialog, and the active/history split.
- `Moderator`: the three moderation queues and their counters.
- `Admin`: the derived vendor list, the counters, the approval queue and user status changes.

Conventions:

- Money is integer cents. The source's `price < 50` is `price < 5000` here.
- Ratings are integer tenths of a star; a missing rating is `None`.
- Ids are `int`, and strings are `seq<char>`.
- A `fetch` becomes a parameter: `Some(data)` on success, `None` on failure.
- `Number.parseInt` becomes an `Option<int>`, where `None` is NaN.
- `Date.now()` and `new Date()` become `id`, `now` and `orderDate` parameters.
- Local storage keys become fields of type `Option<...>`; `None` means the key is absent.

Where the source behaves in a way the surrounding text does not suggest, the model follows the
code. Lemmas pin down these behaviours:

- the delivery page never updates its pending counter;
- the moderator and admin counters drop even for an id that is not queued;
- a cart line keeps the product copy it was created with;
- the inventory stock box accepts negative numbers;
- the admin vendor list is not re-derived when a user's status changes.

## Model

| member | source | states |
|---|---|---|
| Text.Lower | app/customer/catalog/page.js:49-50 | lower-casing keeps the length and maps every character through the ASCII rule, leaving no capital letter |
| Text.LowerIdempotent | app/customer/catalog/page.js:49-50 | lower-casing twice is lower-casing once |
| Text.IncludesIffOccurs | app/customer/catalog/page.js:49-50 | `includes` holds exactly when some window of the string equals the term (both directions) |
| Text.IncludesEmpty | app/customer/catalog/page.js:46 | the empty term is contained in every string |
| Text.ContainsIgnoresCase | app/customer/catalog/page.js:49-50 | the case-insensitive test gives the same answer whatever the case of either argument |
| Text.NameLeqTotal | app/customer/catalog/page.js:84-85 | the name order relates any two names one way or the other |
| Text.NameLeqTransitive | app/customer/catalog/page.js:84-85 | the name order is transitive |
| Text.NameLeqAntisymmetric | app/customer/catalog/page.js:84-85 | two names ordered both ways are equal |
| Products.StockStatus | app/inventory/page.js:96-100 | the badge is Out of Stock exactly at zero and In Stock exactly from ten up; a negative stock is badged Low |
| Products.StockStatusAgreesWithFilters | app/inventory/page.js:74-100 | the badge is Out of Stock iff the "out" filter keeps the product; for non-negative stock, Low iff "low" keeps it and In Stock iff "in-stock" keeps it; a negative stock is badged Low and kept by no filter |
| Products.StockFiltersPartition | app/inventory/page.js:74-86 | with no negative stock, the three stock filters' counts add up to the list length |
| Cart.AddLine | context/CartContext.js:42-52 | after adding, the product has a line; the line count is kept when it already had one and grows by one otherwise |
| Cart.AddExistingProduct | context/CartContext.js:43-48 | adding a product that already has a line keeps the line count, raises that line's quantity by the amount and keeps its product; every other line is unchanged |
| Cart.AddNewProduct | context/CartContext.js:50 | adding a product with no line appends exactly one line with that quantity and leaves the existing prefix untouched |
| Cart.AddPreservesWellFormed | context/CartContext.js:42-52 | adding keeps ids unique; with a positive amount it also keeps every quantity positive |
| Cart.RemoveLine | context/CartContext.js:54-56 | no line for the product is left, and every line for another product is kept |
| Cart.RemoveLineProperties | context/CartContext.js:54-56 | after removal no line has the id, the rest are kept in order, and removing an absent id changes nothing |
| Cart.RemovePreservesWellFormed | context/CartContext.js:54-56 | removal keeps the cart well-formed |
| Cart.SetQuantity | context/CartContext.js:58-64 | a quantity of zero or less leaves no line for the product; a positive one keeps the line count and whether the product has a line |
| Cart.SetQuantityProperties | context/CartContext.js:58-64 | a quantity of zero or less is exactly a removal; otherwise the length is kept and only the matching line's quantity is overwritten |
| Cart.SetQuantityPreservesWellFormed | context/CartContext.js:58-64 | setting a quantity keeps the cart well-formed |
| Cart.AddWishIdempotent | context/CartContext.js:70-77 | adding to the wishlist twice equals adding once; the product's id is then listed and unique ids stay unique |
| Cart.TotalItems | context/CartContext.js:87-89 | the item count is zero on an empty cart and at least the number of lines when every quantity is positive |
| Cart.TotalPrice | context/CartContext.js:83-85 | the total is zero on an empty cart and never negative for non-negative prices and quantities |
| Cart.TotalsAfterUpdate | context/CartContext.js:83-89 | rewriting a product's one line moves each total by exactly that line's change |
| Cart.TotalsOfAppend | context/CartContext.js:83-89 | appending a line adds its quantity and its subtotal to the totals |
| Cart.TotalsAfterAdd | context/CartContext.js:42-52 | adding raises the item count by the amount, and for a new product the price by amount times price |
| Cart.TotalPriceAfterAddExisting | context/CartContext.js:43-48 | adding to an existing line raises the total by the amount times the price stored on that line |
| Cart.TotalsAfterSetQuantity | context/CartContext.js:58-64 | setting a positive quantity replaces the line's quantity and subtotal in the totals |
| Cart.SubtotalGrows | context/CartContext.js:83-85 | raising a quantity by n raises the subtotal by n times the price |
| Cart.TotalsAfterRemove | context/CartContext.js:54-56 | removing a product's one line takes its quantity and subtotal off the totals |
| Cart.SameProductTwice | context/CartContext.js:42-52 | adding a product once and then twice more gives a single line of quantity 3 |
| Cart.TwoProductTotals | context/CartContext.js:83-89 | one item at 19999 cents plus two at 3499 give 3 items and 26997 cents |
| Cart.CartStore.constructor | context/CartContext.js:19-40 | saved lists are loaded when their key is present (else empty) and written back |
| Cart.CartStore.AddToCart | context/CartContext.js:42-52 | the lines become `AddLine` of the old lines, the wishlist is unchanged, well-formedness is kept for positive amounts, storage matches |
| Cart.CartStore.RemoveFromCart | context/CartContext.js:54-56 | the lines become `RemoveLine` of the old lines, the wishlist is unchanged, well-formedness is kept, storage matches |
| Cart.CartStore.UpdateQuantity | context/CartContext.js:58-64 | the lines become `SetQuantity` of the old lines (removal below one), the wishlist is unchanged, well-formedness is kept, storage matches |
| Cart.CartStore.ClearCart | context/CartContext.js:66-68 | the cart is empty, the wishlist unchanged, storage matches |
| Cart.CartStore.AddToWishlist | context/CartContext.js:70-77 | the wishlist gains the product unless its id is listed; the cart is unchanged |
| Cart.CartStore.RemoveFromWishlist | context/CartContext.js:79-81 | the wishlist loses every entry with the id; the cart is unchanged |
| Auth.RestoreNeedsBothKeys | context/AuthContext.js:20-28 | a fresh page is logged in after restore iff both keys are saved (and the role is not empty); otherwise user and role stay null |
| Auth.LoginSurvivesReload | context/AuthContext.js:20-37 | what login saves is restored by the next load when the role is not empty; an empty role is not restored |
| Auth.LogoutSurvivesReload | context/AuthContext.js:20-44 | after logout the next load starts logged out |
| Auth.AuthStore.constructor | context/AuthContext.js:16-18 | the store starts logged out and loading |
| Auth.AuthStore.RestoreSession | context/AuthContext.js:20-30 | user and role are taken from storage exactly when restorable, and loading ends either way |
| Auth.AuthStore.Login | context/AuthContext.js:32-37 | user and role are set, the store is authenticated, and both keys hold the new values |
| Auth.AuthStore.Logout | context/AuthContext.js:39-44 | user and role are null, not authenticated, and both keys are removed |
| Catalog.Matching | app/customer/catalog/page.js:42-72 | the filtered list is no longer than the loaded one, and every product in it was loaded and is kept by the price range and category selects |
| Catalog.MatchingExactly | app/customer/catalog/page.js:42-72 | a product survives the filters iff it was loaded and matches the search (or it is empty), the category (or "all") and the price range |
| Catalog.MatchingIsSubsequence | app/customer/catalog/page.js:42-72 | the filtered list is a subsequence of the loaded list |
| Catalog.DefaultFiltersKeepAll | app/customer/catalog/page.js:92-97 | the initial and cleared controls keep every loaded product |
| Catalog.PriceRangesPartition | app/customer/catalog/page.js:60-72 | every price is in exactly one range, and the three ranges' counts sum to the list length |
| Catalog.InOrderTotal | app/customer/catalog/page.js:75-87 | every comparator relates any two products one way or the other |
| Catalog.InOrderTransitive | app/customer/catalog/page.js:75-87 | every comparator is transitive |
| Catalog.SortedPairwise | app/customer/catalog/page.js:75-87 | in a sorted list every earlier product is in order with every later one |
| Catalog.SortedMeaning | app/customer/catalog/page.js:75-87 | "price-low" gives non-decreasing prices, "price-high" non-increasing, "rating" non-increasing ratings with missing as 0, and name order otherwise |
| Catalog.SwapAdjacent | app/customer/catalog/page.js:75 | swaps two neighbours, leaves every other slot, keeps the multiset |
| Catalog.SortInPlace | app/customer/catalog/page.js:75-87 | the array is sorted by the comparator and is a permutation of what it held |
| Catalog.FilterAndSort | app/customer/catalog/page.js:42-90 | the result is a permutation of the filtered list, sorted, and holds only loaded products |
| Catalog.CategoriesOfProducts | app/customer/catalog/page.js:31 | the mapped category list holds exactly the categories of the loaded products |
| Catalog.Categories | app/customer/catalog/page.js:31 | every category of the loaded products appears, and none appears twice |
| Catalog.CatalogPage.constructor | app/customer/catalog/page.js:15-21 | empty lists, default controls, and the grid invariant |
| Catalog.CatalogPage.Recompute | app/customer/catalog/page.js:42-90 | the grid becomes the sorted matching products; nothing else changes |
| Catalog.CatalogPage.Load | app/customer/catalog/page.js:23-40 | on success the products and their categories are installed; on failure both product lists are empty; the grid invariant holds |
| Catalog.CatalogPage.SetFilters | app/customer/catalog/page.js:42-90 | new controls, the same products, and the grid invariant |
| Catalog.CatalogPage.ClearFilters | app/customer/catalog/page.js:92-97 | the controls return to their defaults and the grid holds every product |
| CartPage.QuantityChange | app/customer/cart/page.js:15-21 | a new quantity below one leaves no line for the product; any other keeps the line count |
| CartPage.QuantityChangeIsSetQuantity | app/customer/cart/page.js:15-21 | the dispatcher changes the cart exactly as `updateQuantity` would, and removes below one |
| CartPage.InputQuantity | app/customer/cart/page.js:86 | the value is never 0: unparsable or 0 gives 1, any other number is kept |
| CartPage.InputRemovesOnlyWhenNegative | app/customer/cart/page.js:86 | the quantity box removes the line iff a negative number is typed |
| CartPage.MinusOnSingleRemoves | app/customer/cart/page.js:79 | minus on a line of quantity 1 removes it: one line fewer, one item fewer, its price off the total |
| CartPage.PlusAddsOne | app/customer/cart/page.js:93 | plus raises only that line's quantity, by exactly 1, and keeps the line count |
| CartPage.QuantityChangeTotals | app/customer/cart/page.js:15-21 | below one the line's quantity and subtotal leave the totals; otherwise they are replaced by the new quantity's |
| CartPage.HandleQuantityChange | app/customer/cart/page.js:15-21 | the store's lines change as the dispatcher says, the wishlist does not, well-formedness is kept |
| CartPage.PressMinus | app/customer/cart/page.js:79 | the dispatcher is called with the line's quantity minus one |
| CartPage.PressPlus | app/customer/cart/page.js:93 | the dispatcher is called with the line's quantity plus one |
| CartPage.EnterQuantity | app/customer/cart/page.js:86 | the dispatcher is called with the parsed input, defaulting to one |
| Checkout.NextStep | app/customer/checkout/page.js:40-48 | every handler lands on a step from 1 to 3; step 1 only from "Back to Address" and step 3 only from "Review Order" |
| Checkout.StepsMoveByOne | app/customer/checkout/page.js:40-48 | from the step that offers it, a submit moves forward one step and a back button back one, always within 1 to 3 |
| Checkout.BackUndoesSubmit | app/customer/checkout/page.js:293-331 | the back button offered after a submit returns to the step submitted from |
| Checkout.WizardNeedsItems | app/customer/checkout/page.js:71-82 | the wizard shows iff the cart has lines and no order was placed; the empty-cart view iff neither; after placing, the confirmation |
| Checkout.AppendOrder | app/customer/checkout/page.js:63-65 | exactly one order is appended at the end, and earlier saved orders are kept in order |
| Checkout.OrdersAccumulate | app/customer/checkout/page.js:63-65 | two placements keep both orders after the earlier ones, oldest first |
| Checkout.CheckoutPage.constructor | app/customer/checkout/page.js:17-38 | step 1, no order placed, an empty address with country "US", payment "card" |
| Checkout.CheckoutPage.HandleStep | app/customer/checkout/page.js:124-334 | pressed on the step that renders it, a submit moves the step forward by one and a back button back by one, within 1 to 3; nothing else changes |
| Checkout.CheckoutPage.EditAddress | app/customer/checkout/page.js:140-210 | only the address changes |
| Checkout.CheckoutPage.ChoosePayment | app/customer/checkout/page.js:235 | only the payment method changes |
| Checkout.CheckoutPage.PlaceOrder | app/customer/checkout/page.js:50-69 | pressed on the wizard's review step, one pending order holding the cart lines, the taxed total, the address and the payment method is appended to the saved orders; the cart is emptied (not the wishlist) and the confirmation shows |
| Inventory.Visible | app/inventory/page.js:61-94 | the table is no longer than the loaded list, and every product in it was loaded and is kept by the stock and category selects |
| Inventory.VisibleExactly | app/inventory/page.js:61-94 | a product is listed iff loaded and the search term (name or category), the stock select and the category select keep it |
| Inventory.VisibleIsSubsequence | app/inventory/page.js:61-94 | the table is a subsequence of the loaded list |
| Inventory.LoadStatsMatchViews | app/inventory/page.js:44-54 | the load-time counts equal the sizes of the full-list views; with no negative stock, low, out and in-stock add up to the total |
| Inventory.SetStockChangesOnlyStock | app/inventory/page.js:102-104 | only the matching products' stock changes; length, order and other fields are kept |
| Inventory.ToggleFeaturedProperties | app/inventory/page.js:106-110 | only the matching products' flag flips, nothing else changes, and toggling twice restores the list |
| Inventory.StockInput | app/inventory/page.js:303 | unparsable text becomes 0, and any number is kept, negative included |
| Inventory.NegativeStockEntry | app/inventory/page.js:303 | a negative number typed into the stock box is stored as it is; the product is then badged Low Stock yet kept by none of the "low", "out" and "in-stock" filters |
| Inventory.RestockOut | app/inventory/page.js:379 | restocking an out-of-stock product sets 10, badges it In Stock and shortens the out-of-stock list by one |
| Inventory.RestockLow | app/inventory/page.js:413 | restocking a low product adds 20, badges it In Stock and shortens the low-stock list by one |
| Inventory.InventoryDashboard.constructor | app/inventory/page.js:19-30 | empty lists, zero stats, "all" selects, and the table invariant |
| Inventory.InventoryDashboard.Load | app/inventory/page.js:32-59 | on success products, categories and stats come from the data; on failure nothing changes |
| Inventory.InventoryDashboard.SetFilters | app/inventory/page.js:61-94 | new controls and the table invariant; products and stats unchanged |
| Inventory.InventoryDashboard.UpdateStock | app/inventory/page.js:102-104 | the products become `SetStock` of the old ones; the stat cards keep their load-time counts |
| Inventory.InventoryDashboard.EnterStock | app/inventory/page.js:303 | the product's stock becomes `StockInput` of what was typed (0 when unparsable, negative kept); the stat cards keep their load-time counts |
| Inventory.InventoryDashboard.ToggleFeaturedFlag | app/inventory/page.js:106-110 | the products become `ToggleFeatured` of the old ones; the stat cards keep their load-time counts |
| VendorProducts.VendorProductsExactly | app/vendor/products/page.js:25 | the list is exactly the fetched products of vendor 1, in fetched order |
| VendorProducts.SearchedExactly | app/vendor/products/page.js:36-47 | an empty term shows all; otherwise exactly the products whose name or category contains it, in order |
| VendorProducts.DeleteProductProperties | app/vendor/products/page.js:55-57 | every product with the id goes, the rest stay in order, an absent id is a no-op, a present unique id shortens by one |
| VendorProducts.VendorProductsPage.constructor | app/vendor/products/page.js:14-17 | empty lists and search, and the table invariant |
| VendorProducts.VendorProductsPage.Load | app/vendor/products/page.js:19-34 | vendor 1's products on success, both lists empty on failure |
| VendorProducts.VendorProductsPage.SetSearch | app/vendor/products/page.js:36-47 | new term, same products, table invariant |
| VendorProducts.VendorProductsPage.Delete | app/vendor/products/page.js:55-57 | the products become `DeleteProduct` of the old ones, table invariant |
| AddProduct.AddImages | app/vendor/products/add/page.js:46 | at most 5 images, the first ones of old followed by new, and as many as fit |
| AddProduct.AddImagesKeepsExisting | app/vendor/products/add/page.js:46 | existing images stay first; a full list is unchanged; when all fit, nothing is dropped |
| AddProduct.RemoveImageAtProperties | app/vendor/products/add/page.js:50-53 | exactly index i is removed, the rest keep their order, an out-of-range index removes nothing |
| AddProduct.Validate | app/vendor/products/add/page.js:61-77 | a form that passes has every required field, a positive price and a stock that is empty or not negative; a missing field is always the error reported |
| AddProduct.ValidateOrder | app/vendor/products/add/page.js:61-77 | missing fields are reported first, then a price of 0 or less, then a negative stock; the form passes iff none applies |
| AddProduct.ProductImage | app/vendor/products/add/page.js:89 | the first image, or the placeholder when there is none |
| AddProduct.Submit | app/vendor/products/add/page.js:55-90 | an error iff validation fails, and it is the one reported; otherwise vendor 1's product with the clock's id, the form's name, description, category, price and stock (0 when empty), the first image or the placeholder, rating 0, no reviews, not featured |
| AddProduct.AddProductPage.constructor | app/vendor/products/add/page.js:15-26 | the empty form, no error, not loading |
| AddProduct.AddProductPage.UploadImages | app/vendor/products/add/page.js:41-48 | the image list becomes `AddImages` of the old one and stays within 5 |
| AddProduct.AddProductPage.RemoveImage | app/vendor/products/add/page.js:50-53 | the image list becomes `RemoveImageAt` of the old one |
| AddProduct.AddProductPage.HandleSubmit | app/vendor/products/add/page.js:55-109 | on an error its message is shown and the form kept; otherwise the product is returned, success is shown and the form is reset |
| VendorOrders.ByStatusExactly | app/vendor/orders/page.js:97-103 | "all" shows every order; any other value exactly the orders with that status, in order |
| VendorOrders.SetStatusChangesOnlyStatus | app/vendor/orders/page.js:122-124 | only the matching orders' status changes; length, order and other fields are kept |
| VendorOrders.OfferedMovesForward | app/vendor/orders/page.js:215-226 | a transition is offered iff the order is pending or processing, and it moves one step forward |
| VendorOrders.ProgressionEndsAtShipped | app/vendor/orders/page.js:215-226 | pending leads to processing, processing to shipped, and shipped to nothing |
| VendorOrders.AdvancePendingCounts | app/vendor/orders/page.js:97-124 | advancing a pending order shortens the pending view by one and lengthens the processing view by one |
| VendorOrders.VendorOrdersPage.constructor | app/vendor/orders/page.js:19-95 | the fixture is installed with filter "all" and the table invariant |
| VendorOrders.VendorOrdersPage.SetStatusFilter | app/vendor/orders/page.js:97-103 | new filter, same orders, table invariant |
| VendorOrders.VendorOrdersPage.UpdateOrderStatus | app/vendor/orders/page.js:122-124 | the orders become `SetStatus` of the old ones, table invariant |
| VendorOrders.VendorOrdersPage.Advance | app/vendor/orders/page.js:215-226 | the offered status is applied, and the order moves one step forward |
| Delivery.InitialStatsAgree | app/delivery/page.js:128-139 | assigned counts assigned or in-transit orders, completed counts delivered ones, pending counts assigned ones |
| Delivery.ViewsPartition | app/delivery/page.js:337-500 | every order is in exactly one of the active and history tables, and their sizes sum to the list length |
| Delivery.SetStatusChangesOnlyStatus | app/delivery/page.js:170-182 | only matching orders change, only their status, and their delivered date exactly when the new status is "delivered" |
| Delivery.StatsAfter | app/delivery/page.js:184-190 | a delivery raises completed by exactly 1 and lowers assigned by exactly 1, so their sum and the pending counter are kept; any other status leaves the counters as they are |
| Delivery.DeliverKeepsCountersAgreeing | app/delivery/page.js:170-191 | delivering an open order keeps the assigned and completed counters equal to their counts |
| Delivery.StartKeepsCountersAgreeing | app/delivery/page.js:193-195 | starting keeps those counters right, but one order fewer is waiting while the pending counter does not change |
| Delivery.DeliverAbsentIdMovesCounters | app/delivery/page.js:184-190 | delivering an absent id leaves the orders but moves the counters out of agreement |
| Delivery.OtpField | app/delivery/page.js:559-566 | the code box keeps at most 4 characters, a prefix of what was typed |
| Delivery.CanConfirm | app/delivery/page.js:570 | "Confirm Delivery" is enabled exactly with four characters in the box, which the box then keeps as they are |
| Delivery.ConfirmAfterTyping | app/delivery/page.js:559-570 | typing enables the button exactly when at least four characters were typed, and the box then holds the first four |
| Delivery.DeliveryDashboard.constructor | app/delivery/page.js:30-139 | the fixture and its counters, which agree with it; no dialog |
| Delivery.DeliveryDashboard.UpdateOrderStatus | app/delivery/page.js:170-191 | the orders become `SetStatus` of the old ones and the counters `StatsAfter` the status |
| Delivery.DeliveryDashboard.StartDelivery | app/delivery/page.js:193-195 | the order goes in transit and the counters are unchanged |
| Delivery.DeliveryDashboard.CompleteDelivery | app/delivery/page.js:197-200 | the order is selected and the dialog opens |
| Delivery.DeliveryDashboard.TypeOtp | app/delivery/page.js:559-566 | the code box holds the truncated input |
| Delivery.DeliveryDashboard.VerifyOtp | app/delivery/page.js:202-211 | pressed in the open dialog with four characters entered, a matching code delivers the selected order and closes the dialog; any other code changes nothing, so an order whose code is not four characters long is never delivered; counters keep agreeing for an open listed order |
| Delivery.DeliveryDashboard.CancelOtp | app/delivery/page.js:575-579 | the dialog closes and the code and selection are cleared |
| Moderator.InitialCountsAgree | app/moderator/page.js:107-112 | the initial pending count is the review queue length and the flagged count the two content queues' lengths |
| Moderator.ReviewActionCounters | app/moderator/page.js:117-122 | a review action lowers pending by one; approve raises only approved, reject only rejected |
| Moderator.ReviewActionKeepsCountsAgreeing | app/moderator/page.js:115-124 | acting on a queued review removes exactly it and keeps the counts equal to the queues |
| Moderator.ReviewActionOnAbsentId | app/moderator/page.js:115-124 | acting on an absent review leaves the queue but breaks the count agreement |
| Moderator.ContentActionKeepsCountsAgreeing | app/moderator/page.js:126-134 | "product" touches only the flagged queue, any other type only the reports; with the id present the counts keep agreeing |
| Moderator.ContentActionOnAbsentId | app/moderator/page.js:126-134 | a "product" action on an absent id leaves the queues but breaks the count agreement |
| Moderator.ModeratorDashboard.constructor | app/moderator/page.js:103-112 | the three fixtures and the counters taken from them, which agree |
| Moderator.ModeratorDashboard.HandleReviewAction | app/moderator/page.js:115-124 | the review queue and counters change as described; agreement is kept for a present id |
| Moderator.ModeratorDashboard.HandleContentAction | app/moderator/page.js:126-134 | the queue named by the type loses the id and the flagged counter drops by one |
| Admin.VendorsExactly | app/admin/page.js:48 | the vendor list is exactly the users with role "vendor", in order |
| Admin.LoadStatsAgree | app/admin/page.js:78-85 | the totals equal the user, vendor, product and pending list lengths, and vendors never exceed users |
| Admin.ApprovalProperties | app/admin/page.js:92-102 | approving and rejecting have the same effect, removing exactly that id; for a queued unique id the pending count stays equal to the queue length |
| Admin.SetUserStatusChangesOnlyStatus | app/admin/page.js:104-106 | only the matching users' status changes; length, order and other fields are kept |
| Admin.ActiveCount | app/admin/page.js:490 | the "Active Users" figure equals the number of users whose status is "active", counted independently of the filter; hence at most the number of users, and zero exactly when no user is active |
| Admin.MenuActionShiftsActiveCount | app/admin/page.js:270-281 | the menu action on an active user lowers the active count by one, on any other user raises it by one |
| Admin.AdminDashboard.constructor | app/admin/page.js:28-39 | empty lists and zero counters |
| Admin.AdminDashboard.Load | app/admin/page.js:41-90 | on success users, vendors, products, applications and counters come from the data; on failure nothing changes |
| Admin.AdminDashboard.HandleVendorApproval | app/admin/page.js:92-102 | the queue and pending counter change as `AfterApproval` says; the user lists do not |
| Admin.AdminDashboard.HandleUserStatusChange | app/admin/page.js:104-106 | the users become `SetUserStatus` of the old ones; the vendor list and counters are unchanged |

## Left out

- Rendering, colours, icons, `Layout` and `ProductCard` are presentation only, so they are not modelled. That includes the badge text, colour and priority that `getStockStatus` returns: the model keeps only which of the three badges is shown.
- `fetch` of the mock fixtures and the inline mock data are inputs: the fixtures become constructor or `Load` parameters.
- JSON serialisation of local storage is not modelled. Storage keys are fields holding the values directly.
- Checkout.Order: the 8% tax is kept exactly (cents times 108, in hundredths of a cent) rather than as a rounded floating-point dollar amount. `toFixed` formatting is not modelled either.
- Text.NameLeq: `localeCompare` collation is modelled as character-code order, and `toLowerCase` only folds ASCII letters.
- Catalog.SortInPlace: the sort is proved sorted and a permutation, but not stable. The source's `sort` sorts the products state array itself when no filter applies; that aliasing is not modelled.
- The delivery route list's `sort` on priority (app/delivery/page.js:431) is not a consistent comparator, so it has no order to state.
- `window.location.href`, `alert`, `console.log` and `URL.createObjectURL` are navigation and foreign calls; the object URLs are a parameter.
- The add-product page's `setTimeout` is taken as part of the same step as the submit.
- Each handler is one atomic step: React render scheduling and stale closures are not modelled.
- The number inputs' values are modelled as `Option<int>`. Fractional prices and stocks are not represented.
- AddProduct.Submit: the price is modelled as whole cents, so `parseFloat`'s fractions of a cent are not represented.
- The inventory `addTag` only logs, so it is not modelled.
- The moderator's review `reason`, the admin's approval log and the review text only go to logs or the display.
- Delivery.DeliveryOrder: display-only fields (items, address, dates, estimated time) are not modelled.
- The login pages, the landing and dashboard pages, the customer orders page and the wishlist page are not part of this model.
