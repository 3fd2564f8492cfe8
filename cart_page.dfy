/**
 * The cart page of app/cart/page.tsx: the order summary (subtotal, coupon
 * discount, delivery fee, tax, total), the coupon box's state, the
 * free-delivery hint and the guards in front of checkout.
 */
module CartPage {
  import opened Wrappers
  import opened Text
  import opened CartStore

  /** Subtotals strictly above this ship free. */
  const FreeDeliveryThreshold: real := 25.0
  /** The delivery fee charged otherwise. */
  const StandardDeliveryFee: real := 3.99
  /** The sales tax rate. */
  const TaxRate: real := 0.08

  /** `validCoupons`: code to percentage off. */
  const ValidCoupons: map<string, int> := map[
    "SAVE10" := 10,
    "WELCOME20" := 20,
    "PIZZA15" := 15]

  /** An applied coupon: the code typed and its percentage. */
  datatype Coupon = Coupon(code: string, discount: int)

  /** `deliveryFee`: free strictly above the threshold, the standard fee otherwise. */
  function DeliveryFee(subtotal: real): (r: real)
    ensures r == 0.0 <==> subtotal > FreeDeliveryThreshold
    ensures r == 0.0 || r == StandardDeliveryFee
  {
    if subtotal > FreeDeliveryThreshold then 0.0 else StandardDeliveryFee
  }

  /** The boundary is exclusive: exactly 25.00 still pays the fee, one cent more ships free. */
  lemma ThresholdBoundary()
    ensures DeliveryFee(25.0) == 3.99
    ensures DeliveryFee(25.01) == 0.0
  {
  }

  /** `discount`: the coupon's percentage of the subtotal, or nothing without a coupon. */
  function Discount(subtotal: real, coupon: Option<Coupon>): real
  {
    match coupon
    case None => 0.0
    case Some(c) => subtotal * (c.discount as real / 100.0)
  }

  /** The cart's order summary, all amounts exact. */
  datatype Summary = Summary(subtotal: real, discount: real, deliveryFee: real, tax: real, total: real)

  /**
   * The page's `discount`, `deliveryFee`, `tax` and `total` constants: tax on
   * the discounted subtotal, the fee by the subtotal before discount.
   */
  function CartSummary(subtotal: real, coupon: Option<Coupon>): (r: Summary)
    ensures r.subtotal == subtotal
    ensures r.discount == Discount(subtotal, coupon)
    ensures r.deliveryFee == DeliveryFee(subtotal)
    ensures r.tax == (subtotal - r.discount) * TaxRate
    ensures r.total == r.subtotal - r.discount + r.deliveryFee + r.tax
  {
    var discount := Discount(subtotal, coupon);
    var fee := DeliveryFee(subtotal);
    var tax := (subtotal - discount) * TaxRate;
    Summary(subtotal, discount, fee, tax, subtotal - discount + fee + tax)
  }

  /** The total is the discounted subtotal with tax added, plus the fee. */
  lemma CartTotalDecomposes(subtotal: real, coupon: Option<Coupon>)
    ensures CartSummary(subtotal, coupon).total
         == (subtotal - Discount(subtotal, coupon)) * (1.0 + TaxRate) + DeliveryFee(subtotal)
  {
  }

  /** Without a coupon the discount is zero; with one it is the stated share of the subtotal. */
  lemma DiscountByCoupon(subtotal: real, coupon: Option<Coupon>)
    ensures coupon.None? ==> CartSummary(subtotal, coupon).discount == 0.0
    ensures coupon.Some? ==> CartSummary(subtotal, coupon).discount * 100.0 == subtotal * coupon.value.discount as real
  {
  }

  /** A coupon of the table never takes off more than the subtotal, nor adds to it. */
  lemma DiscountWithinSubtotal(subtotal: real, code: string)
    requires subtotal >= 0.0 && code in ValidCoupons
    ensures 0.0 <= Discount(subtotal, Some(Coupon(code, ValidCoupons[code]))) <= subtotal
  {
    var f := ValidCoupons[code] as real / 100.0;
    assert 0.0 <= f <= 1.0;
    assert subtotal * f <= subtotal * 1.0;
  }

  /** Applying a coupon lowers the total by the discount and the tax on it. */
  lemma CouponSaving(subtotal: real, c: Coupon)
    ensures CartSummary(subtotal, None).total - CartSummary(subtotal, Some(c)).total
         == Discount(subtotal, Some(c)) * (1.0 + TaxRate)
  {
    CartTotalDecomposes(subtotal, None);
    CartTotalDecomposes(subtotal, Some(c));
  }

  /** The free-delivery hint: shown below the threshold, with the distance to it. */
  function FreeDeliveryHint(subtotal: real): (r: Option<real>)
    ensures r.Some? <==> subtotal < FreeDeliveryThreshold
  {
    if subtotal < FreeDeliveryThreshold then Some(FreeDeliveryThreshold - subtotal) else None
  }

  /**
   * The hint and the fee agree below and above the threshold, and at exactly
   * the threshold neither the hint nor free delivery applies.
   */
  lemma HintAndFee(subtotal: real)
    ensures FreeDeliveryHint(subtotal).Some? ==> DeliveryFee(subtotal) == StandardDeliveryFee
    ensures FreeDeliveryHint(subtotal).Some? ==> subtotal + FreeDeliveryHint(subtotal).value == FreeDeliveryThreshold
    ensures FreeDeliveryHint(subtotal).None? && DeliveryFee(subtotal) != 0.0 <==> subtotal == FreeDeliveryThreshold
  {
  }

  /** Adding exactly the hinted amount still leaves the fee charged. */
  lemma HintedAmountIsNotEnough(subtotal: real)
    requires subtotal < FreeDeliveryThreshold
    ensures DeliveryFee(subtotal + FreeDeliveryHint(subtotal).value) == StandardDeliveryFee
  {
  }

  /** Where "Proceed to Checkout" leads. */
  datatype CheckoutOutcome = SignInRequired | CartIsEmpty | GoToCheckout

  /** `handleCheckout`: sign-in first, then a non-empty cart. */
  function HandleCheckout(signedIn: bool, items: seq<CartItem>): (r: CheckoutOutcome)
    ensures r == GoToCheckout <==> signedIn && items != []
    ensures !signedIn ==> r == SignInRequired
    ensures signedIn && items == [] ==> r == CartIsEmpty
  {
    if !signedIn then SignInRequired
    else if |items| == 0 then CartIsEmpty
    else GoToCheckout
  }

  /** The coupon box: the text typed and the coupon in force. */
  class CouponBox {
    var couponCode: string
    var appliedCoupon: Option<Coupon>

    constructor ()
      ensures couponCode == "" && appliedCoupon == None
    {
      couponCode := "";
      appliedCoupon := None;
    }

    /** The input's `onChange`: the text is stored upper-cased. */
    method EditCouponCode(typed: string)
      modifies this
      ensures couponCode == Upper(typed)
      ensures appliedCoupon == old(appliedCoupon)
    {
      couponCode := Upper(typed);
    }

    /**
     * `handleApplyCoupon`: a code of the table replaces any applied coupon and
     * clears the input; any other code changes nothing. `accepted` stands for
     * which of the two toasts is shown.
     */
    method ApplyCoupon() returns (accepted: bool)
      modifies this
      ensures accepted <==> old(couponCode) in ValidCoupons
      ensures accepted ==> appliedCoupon == Some(Coupon(old(couponCode), ValidCoupons[old(couponCode)])) && couponCode == ""
      ensures !accepted ==> appliedCoupon == old(appliedCoupon) && couponCode == old(couponCode)
    {
      if couponCode in ValidCoupons {
        appliedCoupon := Some(Coupon(couponCode, ValidCoupons[couponCode]));
        couponCode := "";
        accepted := true;
      } else {
        accepted := false;
      }
    }

    /** The "Remove" button. */
    method RemoveCoupon()
      modifies this
      ensures appliedCoupon == None
      ensures couponCode == old(couponCode)
    {
      appliedCoupon := None;
    }

    /** The summary the page shows for cart `items`. */
    function Summary(items: seq<CartItem>): (r: Summary)
      reads this
      ensures r.subtotal == TotalPrice(items)
      ensures appliedCoupon.None? ==> r.discount == 0.0
    {
      CartSummary(TotalPrice(items), appliedCoupon)
    }
  }

  /**
   * Because every edit upper-cases the input, two typings that differ only in
   * letter case are accepted or refused alike, for the same percentage.
   */
  lemma CouponCodeIgnoresCase(s: string, t: string)
    requires Lower(s) == Lower(t)
    ensures Upper(s) == Upper(t)
    ensures (Upper(s) in ValidCoupons) == (Upper(t) in ValidCoupons)
  {
    UpperOfLower(s);
    UpperOfLower(t);
  }

  /** A lower-case typing of a listed code is accepted. */
  lemma LowerCaseCodeAccepted()
    ensures Upper("save10") == "SAVE10" && ValidCoupons[Upper("save10")] == 10
  {
  }

  /** Only table codes ever become the applied coupon, and they are all upper case. */
  lemma ValidCodesAreUpperCase(code: string)
    requires code in ValidCoupons
    ensures Upper(code) == code
    ensures ValidCoupons[code] > 0
  {
  }
}
