/**
 * The checkout page of app/checkout/page.tsx: its own fee, tax and total
 * (which differ from the cart page's), the form state, and
 * `handlePlaceOrder`, which validates, builds an order record, prepends it to
 * the stored order list and empties the cart.
 */
module CheckoutPage {
  import opened Wrappers
  import opened CartStore
  import opened CartPage

  datatype Address = Address(street: string, city: string, state: string, zipCode: string)

  /** A placed order as it is stored. */
  datatype Order = Order(
    id: string,
    items: seq<CartItem>,
    total: real,
    deliveryMethod: string,
    paymentMethod: string,
    deliveryAddress: Option<Address>,
    specialInstructions: string,
    status: string,
    estimatedTime: string,
    createdAt: string)

  /** The radio value that stands for home delivery; any other value is treated as pickup. */
  const DeliveryChoice: string := "delivery"

  /** The checkout's amounts: no discount line. */
  datatype Totals = Totals(subtotal: real, deliveryFee: real, tax: real, total: real)

  /** `deliveryFee` at checkout: nothing for pickup, the cart's threshold rule for delivery. */
  function CheckoutFee(subtotal: real, deliveryMethod: string): (r: real)
    ensures deliveryMethod != DeliveryChoice ==> r == 0.0
    ensures deliveryMethod == DeliveryChoice ==> (r == 0.0 <==> subtotal > FreeDeliveryThreshold)
    ensures r == 0.0 || r == StandardDeliveryFee
  {
    if deliveryMethod == DeliveryChoice then DeliveryFee(subtotal) else 0.0
  }

  /**
   * The page's `deliveryFee`, `tax` and `total` constants: tax on the full
   * subtotal, and no coupon.
   */
  function CheckoutTotals(subtotal: real, deliveryMethod: string): (r: Totals)
    ensures r.subtotal == subtotal
    ensures r.deliveryFee == CheckoutFee(subtotal, deliveryMethod)
    ensures r.tax == subtotal * TaxRate
    ensures r.total == r.subtotal + r.deliveryFee + r.tax
  {
    var fee := CheckoutFee(subtotal, deliveryMethod);
    var tax := subtotal * TaxRate;
    Totals(subtotal, fee, tax, subtotal + fee + tax)
  }

  /** A subtotal of 37.98 delivered: free delivery, tax 3.0384, total 41.0184. */
  lemma CheckoutExample()
    ensures CheckoutTotals(37.98, DeliveryChoice) == Totals(37.98, 0.0, 3.0384, 41.0184)
  {
  }

  /**
   * The checkout ignores the cart's coupon: for delivery its total exceeds the
   * cart page's by exactly the discount and the tax on it.
   */
  lemma CheckoutIgnoresCoupon(subtotal: real, coupon: Option<Coupon>)
    ensures CheckoutTotals(subtotal, DeliveryChoice).total - CartSummary(subtotal, coupon).total
         == Discount(subtotal, coupon) * (1.0 + TaxRate)
  {
    CartTotalDecomposes(subtotal, coupon);
  }

  /**
   * The two pages tax different bases: the checkout taxes the full subtotal,
   * the cart page the discounted one, so the checkout's tax is higher by the
   * tax on the discount.
   */
  lemma TaxBasesDiffer(subtotal: real, coupon: Option<Coupon>, deliveryMethod: string)
    ensures CheckoutTotals(subtotal, deliveryMethod).tax - CartSummary(subtotal, coupon).tax
         == Discount(subtotal, coupon) * TaxRate
  {
  }

  /** For pickup the checkout also drops the fee the cart page showed. */
  lemma PickupDropsCartFee(subtotal: real, coupon: Option<Coupon>, deliveryMethod: string)
    requires deliveryMethod != DeliveryChoice
    ensures CheckoutTotals(subtotal, deliveryMethod).total - CartSummary(subtotal, coupon).total
         == Discount(subtotal, coupon) * (1.0 + TaxRate) - DeliveryFee(subtotal)
  {
    CartTotalDecomposes(subtotal, coupon);
  }

  /** With no coupon and delivery chosen, both pages show the same total. */
  lemma SameTotalWithoutCoupon(subtotal: real)
    ensures CheckoutTotals(subtotal, DeliveryChoice).total == CartSummary(subtotal, None).total
  {
    CheckoutIgnoresCoupon(subtotal, None);
  }

  /** Why an order was not placed. */
  datatype Rejection = NotSignedIn | AddressRequired

  /**
   * The two guards of `handlePlaceOrder`: a signed-in user, and for delivery a
   * non-empty street and city (state and zip code are not checked).
   */
  function Validate(signedIn: bool, deliveryMethod: string, address: Address): (r: Option<Rejection>)
    ensures r == Some(NotSignedIn) <==> !signedIn
    ensures r == Some(AddressRequired) <==> signedIn && deliveryMethod == DeliveryChoice && (address.street == "" || address.city == "")
    ensures r == None <==> signedIn && (deliveryMethod != DeliveryChoice || (address.street != "" && address.city != ""))
  {
    if !signedIn then Some(NotSignedIn)
    else if deliveryMethod == DeliveryChoice && (address.street == "" || address.city == "") then Some(AddressRequired)
    else None
  }

  /** The order record built from the cart lines and the form. */
  function NewOrder(id: string, items: seq<CartItem>, deliveryMethod: string, paymentMethod: string,
                    address: Address, specialInstructions: string, createdAt: string): (o: Order)
    ensures o.id == id && o.items == items && o.createdAt == createdAt
    ensures o.status == "confirmed"
    ensures o.total == CheckoutTotals(TotalPrice(items), deliveryMethod).total
    ensures o.deliveryAddress.None? <==> deliveryMethod != DeliveryChoice
    ensures o.deliveryAddress.Some? ==> o.deliveryAddress.value == address
    ensures o.estimatedTime == (if deliveryMethod == DeliveryChoice then "30-45 minutes" else "15-20 minutes")
  {
    Order(id, items, CheckoutTotals(TotalPrice(items), deliveryMethod).total, deliveryMethod, paymentMethod,
          if deliveryMethod == DeliveryChoice then Some(address) else None,
          specialInstructions, "confirmed",
          if deliveryMethod == DeliveryChoice then "30-45 minutes" else "15-20 minutes",
          createdAt)
  }

  /** An order of non-negative lines never totals less than its subtotal. */
  lemma OrderTotalAtLeastSubtotal(id: string, items: seq<CartItem>, deliveryMethod: string, paymentMethod: string,
                                  address: Address, specialInstructions: string, createdAt: string)
    requires forall i :: 0 <= i < |items| ==> items[i].price >= 0.0 && items[i].quantity >= 0
    ensures NewOrder(id, items, deliveryMethod, paymentMethod, address, specialInstructions, createdAt).total >= TotalPrice(items)
  {
    TotalPriceNonNegative(items);
  }

  /** The handler alone does not refuse an empty cart: such an order holds only the fee. */
  lemma EmptyCartOrderHoldsOnlyTheFee(id: string, paymentMethod: string, address: Address,
                                      specialInstructions: string, createdAt: string)
    ensures NewOrder(id, [], DeliveryChoice, paymentMethod, address, specialInstructions, createdAt).total
         == StandardDeliveryFee
  {
  }

  /** What the page renders before any form: without a user it goes to `/login`, with no lines to `/cart`. */
  datatype PageView = RedirectToLogin | RedirectToCart | ShowForm

  function PageGuard(signedIn: bool, items: seq<CartItem>): (r: PageView)
    ensures r == ShowForm <==> signedIn && items != []
    ensures !signedIn ==> r == RedirectToLogin
    ensures signedIn && items == [] ==> r == RedirectToCart
  {
    if !signedIn then RedirectToLogin
    else if |items| == 0 then RedirectToCart
    else ShowForm
  }

  /** The outcome of `handlePlaceOrder`. */
  datatype PlaceResult = Rejected(reason: Rejection) | Placed(orderId: string)

  /** The form's state. */
  class CheckoutForm {
    var deliveryMethod: string
    var paymentMethod: string
    var deliveryAddress: Address
    var specialInstructions: string

    /** The address starts from the signed-in user's saved one, field by field, or blanks. */
    constructor (saved: Option<Address>)
      ensures deliveryMethod == DeliveryChoice && paymentMethod == "card" && specialInstructions == ""
      ensures deliveryAddress == (if saved.Some? then saved.value else Address("", "", "", ""))
    {
      deliveryMethod := DeliveryChoice;
      paymentMethod := "card";
      deliveryAddress := if saved.Some? then saved.value else Address("", "", "", "");
      specialInstructions := "";
    }

    /** The summary shown beside the form for cart `items`. */
    function Totals(items: seq<CartItem>): (r: Totals)
      reads this
      ensures r.subtotal == TotalPrice(items)
      ensures deliveryMethod != DeliveryChoice ==> r.deliveryFee == 0.0
    {
      CheckoutTotals(TotalPrice(items), deliveryMethod)
    }

    /**
     * `handlePlaceOrder`. `orders` is the stored order list before the call
     * and `stored` the list after it; `id` and `createdAt` stand for the
     * clock readings the handler takes.
     */
    method PlaceOrder(cart: Cart, signedIn: bool, orders: seq<Order>, id: string, createdAt: string)
      returns (result: PlaceResult, stored: seq<Order>)
      modifies cart
      ensures result.Rejected? <==> Validate(signedIn, deliveryMethod, deliveryAddress).Some?
      ensures result.Rejected? ==> result.reason == Validate(signedIn, deliveryMethod, deliveryAddress).value
      ensures result.Rejected? ==> stored == orders && cart.items == old(cart.items)
      ensures result.Placed? ==> result.orderId == id
      ensures result.Placed? ==> stored == [NewOrder(id, old(cart.items), deliveryMethod, paymentMethod,
                                                     deliveryAddress, specialInstructions, createdAt)] + orders
      ensures result.Placed? ==> stored[1..] == orders && cart.items == []
    {
      var rejection := Validate(signedIn, deliveryMethod, deliveryAddress);
      if rejection.Some? {
        return Rejected(rejection.value), orders;
      }
      var order := NewOrder(id, cart.items, deliveryMethod, paymentMethod, deliveryAddress, specialInstructions, createdAt);
      stored := [order] + orders;
      cart.ClearCart();
      result := Placed(id);
    }
  }
}
