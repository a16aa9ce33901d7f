/**
 * The customer checkout page: a three-step wizard (address, payment, review) over the
 * cart store, and the order placement that saves an order under the local storage key
 * "orders" and empties the cart.
 */
module Checkout {
  import opened Common
  import opened Cart

  /** The shipping address form. */
  datatype Address = Address(
    firstName: string,
    lastName: string,
    email: string,
    phone: string,
    street: string,
    city: string,
    state: string,
    zipCode: string,
    country: string)

  /** The address form's initial value: every field empty, the country "US". */
  const EmptyAddress := Address("", "", "", "", "", "", "", "", "US")

  /**
   * A placed order. `total` is the cart total with 8% tax, kept exactly in hundredths of a
   * cent (`getTotalPrice() * 1.08` on dollars).
   */
  datatype Order = Order(
    id: int,
    items: seq<CartItem>,
    total: int,
    shippingAddress: Address,
    paymentMethod: string,
    orderDate: string,
    status: string)

  /** The cart total in cents, with 8% tax, in hundredths of a cent. */
  function TaxedTotal(cents: int): int { cents * 108 }

  /** The buttons that move between steps. */
  datatype StepEvent = SubmitAddress | SubmitPayment | BackToAddress | BackToPayment

  /**
   * The step each handler sets, whatever the current step: always a step of the wizard,
   * the first only from "Back to Address" and the last only from "Review Order".
   */
  function NextStep(e: StepEvent): (r: int)
    ensures 1 <= r <= 3
    ensures r == 1 <==> e == BackToAddress
    ensures r == 3 <==> e == SubmitPayment
  {
    match e
    case SubmitAddress => 2
    case SubmitPayment => 3
    case BackToAddress => 1
    case BackToPayment => 2
  }

  /** Which step shows each button: the address form on step 1, payment and its back button on 2, the review's back button on 3. */
  predicate Offered(step: int, e: StepEvent) {
    match e
    case SubmitAddress => step == 1
    case SubmitPayment => step == 2
    case BackToAddress => step == 2
    case BackToPayment => step == 3
  }

  /**
   * The wizard only moves between neighbouring steps: submitting goes forward one step,
   * a back button goes back one, and the step stays within 1 to 3.
   */
  lemma StepsMoveByOne(step: int, e: StepEvent)
    requires Offered(step, e)
    ensures 1 <= NextStep(e) <= 3
    ensures (e == SubmitAddress || e == SubmitPayment) ==> NextStep(e) == step + 1
    ensures (e == BackToAddress || e == BackToPayment) ==> NextStep(e) == step - 1
  {
  }

  /** Going forward from a step and back again returns to it. */
  lemma BackUndoesSubmit(step: int)
    requires step == 1 || step == 2
    ensures step == 1 ==> Offered(NextStep(SubmitAddress), BackToAddress) && NextStep(BackToAddress) == 1
    ensures step == 2 ==> Offered(NextStep(SubmitPayment), BackToPayment) && NextStep(BackToPayment) == 2
  {
  }

  /** What the page renders. */
  datatype View = EmptyCart | Confirmation | Wizard(step: int)

  /** The empty-cart guard comes first, then the confirmation, then the wizard. */
  function ViewOf(items: seq<CartItem>, orderPlaced: bool, step: int): View {
    if |items| == 0 && !orderPlaced then EmptyCart
    else if orderPlaced then Confirmation
    else Wizard(step)
  }

  /**
   * The wizard is shown exactly when the cart has lines and no order has been placed; once
   * an order is placed the confirmation shows, although the cart is then empty.
   */
  lemma WizardNeedsItems(items: seq<CartItem>, orderPlaced: bool, step: int)
    ensures ViewOf(items, orderPlaced, step).Wizard? <==> |items| > 0 && !orderPlaced
    ensures ViewOf(items, orderPlaced, step) == EmptyCart <==> |items| == 0 && !orderPlaced
    ensures orderPlaced ==> ViewOf([], orderPlaced, step) == Confirmation
  {
  }

  /** `JSON.parse(localStorage.getItem("orders") || "[]")` followed by `push(order)`. */
  function AppendOrder(stored: Option<seq<Order>>, order: Order): (r: seq<Order>)
    ensures |r| == |stored.GetOr([])| + 1
    ensures r[..|r| - 1] == stored.GetOr([]) && r[|r| - 1] == order
  {
    stored.GetOr([]) + [order]
  }

  /** Placing two orders in a row keeps both, oldest first, after every order saved before. */
  lemma OrdersAccumulate(stored: Option<seq<Order>>, first: Order, second: Order)
    ensures AppendOrder(Some(AppendOrder(stored, first)), second) == stored.GetOr([]) + [first, second]
  {
  }

  class CheckoutPage {
    /** The cart store the page reads its lines and totals from. */
    var cart: CartStore
    var step: int
    var orderPlaced: bool
    var shippingAddress: Address
    var paymentMethod: string
    /** Local storage key "orders" (`None` when absent). */
    var storedOrders: Option<seq<Order>>

    /** The wizard's step is always 1, 2 or 3. */
    ghost predicate Valid()
      reads this
    {
      1 <= step <= 3
    }

    constructor (cart: CartStore, storedOrders: Option<seq<Order>>)
      ensures this.cart == cart && this.storedOrders == storedOrders
      ensures step == 1 && !orderPlaced && shippingAddress == EmptyAddress && paymentMethod == "card"
      ensures Valid()
    {
      this.cart := cart;
      this.storedOrders := storedOrders;
      step := 1;
      orderPlaced := false;
      shippingAddress := EmptyAddress;
      paymentMethod := "card";
    }

    /**
     * `handleAddressSubmit`, `handlePaymentSubmit` and the two back buttons, each pressed on
     * the step that renders it: a submit moves one step forward, a back button one step back.
     */
    method HandleStep(e: StepEvent)
      requires Offered(step, e)
      modifies this
      ensures step == NextStep(e) && Valid()
      ensures (e == SubmitAddress || e == SubmitPayment) ==> step == old(step) + 1
      ensures (e == BackToAddress || e == BackToPayment) ==> step == old(step) - 1
      ensures cart == old(cart) && orderPlaced == old(orderPlaced) && storedOrders == old(storedOrders)
      ensures shippingAddress == old(shippingAddress) && paymentMethod == old(paymentMethod)
    {
      StepsMoveByOne(step, e);
      step := NextStep(e);
    }

    /** Typing into the address form. */
    method EditAddress(a: Address)
      modifies this
      ensures shippingAddress == a
      ensures step == old(step) && cart == old(cart) && orderPlaced == old(orderPlaced)
      ensures storedOrders == old(storedOrders) && paymentMethod == old(paymentMethod)
    {
      shippingAddress := a;
    }

    /** The payment radio group. */
    method ChoosePayment(m: string)
      modifies this
      ensures paymentMethod == m
      ensures step == old(step) && cart == old(cart) && orderPlaced == old(orderPlaced)
      ensures storedOrders == old(storedOrders) && shippingAddress == old(shippingAddress)
    {
      paymentMethod := m;
    }

    /**
     * `handlePlaceOrder` with the clock's `id` and `orderDate`: one "pending" order holding
     * the cart's lines, its taxed total, the address and the payment method is appended to
     * the saved orders, the cart is emptied (the wishlist is not) and the confirmation shows.
     * "Place Order" is only rendered on the wizard's review step.
     */
    method PlaceOrder(id: int, orderDate: string)
      requires ViewOf(cart.items, orderPlaced, step) == Wizard(3)
      modifies this, cart
      ensures cart == old(cart)
      ensures storedOrders == Some(AppendOrder(old(storedOrders),
        Order(id, old(cart.items), TaxedTotal(TotalPrice(old(cart.items))), old(shippingAddress), old(paymentMethod), orderDate, "pending")))
      ensures cart.items == [] && cart.wishlist == old(cart.wishlist) && cart.Persisted()
      ensures orderPlaced && ViewOf(cart.items, orderPlaced, step) == Confirmation
      ensures step == old(step) && shippingAddress == old(shippingAddress) && paymentMethod == old(paymentMethod)
    {
      var order := Order(id, cart.items, TaxedTotal(TotalPrice(cart.items)), shippingAddress, paymentMethod, orderDate, "pending");
      storedOrders := Some(AppendOrder(storedOrders, order));
      cart.ClearCart();
      orderPlaced := true;
    }
  }
}
