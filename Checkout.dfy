/** The checkout dialog (components/Checkout.tsx): the two-step flow, the optional carbon offset
    and donation added to the cart total, and the order record it hands to the page. */
module Checkout {
  import opened Types

  const CarbonOffsetCost: real := 2.5

  /** The donation choices of the select box. */
  const DonationOptions: set<real> := {0.0, 2.0, 5.0, 10.0}

  /** `total + (addCarbonOffset ? carbonOffsetCost : 0) + charityDonation`. */
  function FinalTotal(subtotal: real, addCarbonOffset: bool, donation: real): (r: real)
    ensures r >= subtotal + donation && r <= subtotal + donation + CarbonOffsetCost
    ensures addCarbonOffset <==> r == subtotal + donation + CarbonOffsetCost
    ensures !addCarbonOffset ==> r == subtotal + donation
  {
    subtotal + (if addCarbonOffset then CarbonOffsetCost else 0.0) + donation
  }

  /** With the dialog's defaults (offset on, 5 donated) the cart total grows by 7.50. */
  lemma DefaultsAddSevenFifty(subtotal: real)
    ensures FinalTotal(subtotal, true, 5.0) == subtotal + 7.5
    ensures FinalTotal(100.0, true, 5.0) == 107.5
  {
  }

  /** `cardNumber.slice(-4)`: the last four characters, or all of them when there are fewer. */
  function LastFour(s: string): (r: string)
    ensures |r| == if |s| < 4 then |s| else 4
    ensures r == s[|s| - |r|..]
  {
    if |s| <= 4 then s else s[|s| - 4..]
  }

  /** Whatever precedes the last four characters does not show in the mask. */
  lemma LastFourOfSuffix(prefix: string, s: string)
    requires |s| >= 4
    ensures LastFour(prefix + s) == LastFour(s)
  {
    assert (prefix + s)[|prefix + s| - 4..] == s[|s| - 4..];
  }

  /** `user?.id || 'guest'`: a missing user, or one whose id is empty, orders as "guest". */
  function OrderUserId(user: Option<User>): (r: string)
    ensures user.Some? && user.value.id != "" ==> r == user.value.id
    ensures user.None? || user.value.id == "" ==> r == "guest"
  {
    if user.Some? && user.value.id != "" then user.value.id else "guest"
  }

  /** The order `handlePlaceOrder` builds. `id` and `trackingStamp` stand for the two
      `Date.now()` readings and `createdAt` for `new Date().toISOString()`. */
  function BuildOrder(id: string, user: Option<User>, items: seq<CartItem>, subtotal: real,
                      addCarbonOffset: bool, donation: real, address: Address, payment: PaymentInfo,
                      createdAt: string, trackingStamp: string): (r: Order)
    ensures r.total == FinalTotal(subtotal, addCarbonOffset, donation)
    ensures r.total == subtotal + r.carbonOffset + r.charityDonation
    ensures (r.carbonOffset == CarbonOffsetCost <==> addCarbonOffset) && (!addCarbonOffset <==> r.carbonOffset == 0.0)
    ensures r.charityDonation == donation
    ensures r.status == Pending && r.items == items && r.shippingAddress == address
    ensures r.userId == OrderUserId(user)
    ensures r.paymentMethod == "**** **** **** " + LastFour(payment.cardNumber)
    ensures r.id == id && r.createdAt == createdAt && r.trackingNumber == Some("NS" + trackingStamp)
  {
    Order(id, OrderUserId(user), items, FinalTotal(subtotal, addCarbonOffset, donation), Pending,
      address, "**** **** **** " + LastFour(payment.cardNumber), createdAt, Some("NS" + trackingStamp),
      if addCarbonOffset then CarbonOffsetCost else 0.0, donation)
  }

  /** The masked card number shows at most four card characters, always the final ones. */
  lemma MaskShowsOnlyLastFour(payment: PaymentInfo, order: Order, id: string, user: Option<User>,
                              items: seq<CartItem>, subtotal: real, offset: bool, donation: real,
                              address: Address, createdAt: string, stamp: string)
    requires order == BuildOrder(id, user, items, subtotal, offset, donation, address, payment, createdAt, stamp)
    ensures |order.paymentMethod| <= 19
    ensures "**** **** **** " <= order.paymentMethod
    ensures var shown := order.paymentMethod[15..];
            shown == payment.cardNumber[|payment.cardNumber| - |shown|..]
  {
    var shown := LastFour(payment.cardNumber);
    assert order.paymentMethod == "**** **** **** " + shown;
    assert order.paymentMethod[15..] == shown;
  }

  /** The dialog's state. */
  class CheckoutState {
    var step: int
    var shippingAddress: Address
    var paymentInfo: PaymentInfo
    var addCarbonOffset: bool
    var charityDonation: real
    var isProcessing: bool

    /** Step 1 or step 2, and a donation from the select box. */
    ghost predicate Valid()
      reads this
    {
      (step == 1 || step == 2) && charityDonation in DonationOptions
    }

    constructor ()
      ensures step == 1 && addCarbonOffset && charityDonation == 5.0 && !isProcessing
      ensures shippingAddress == Address("", "", "", "", "US")
      ensures paymentInfo == PaymentInfo("", "", "", "")
      ensures Valid()
    {
      step := 1;
      shippingAddress := Address("", "", "", "", "US");
      paymentInfo := PaymentInfo("", "", "", "");
      addCarbonOffset := true;
      charityDonation := 5.0;
      isProcessing := false;
    }

    /** "Continue to Payment", shown on step 1. */
    method Continue()
      requires step == 1
      modifies this`step
      ensures step == 2
    {
      step := 2;
    }

    /** "Back", shown on step 2. */
    method Back()
      requires step == 2
      modifies this`step
      ensures step == 1
    {
      step := 1;
    }

    method SetCarbonOffset(checked: bool)
      modifies this`addCarbonOffset
      ensures addCarbonOffset == checked
    {
      addCarbonOffset := checked;
    }

    /** The select box only offers the four donation amounts. */
    method SetCharityDonation(amount: real)
      requires amount in DonationOptions
      modifies this`charityDonation
      ensures charityDonation == amount
      ensures old(Valid()) ==> Valid()
    {
      charityDonation := amount;
    }

    method SetShippingAddress(address: Address)
      modifies this`shippingAddress
      ensures shippingAddress == address
    {
      shippingAddress := address;
    }

    method SetPaymentInfo(payment: PaymentInfo)
      modifies this`paymentInfo
      ensures paymentInfo == payment
    {
      paymentInfo := payment;
    }

    /** `handlePlaceOrder`, with the payment delay collapsed: the order is built from the current
        choices, and processing is over when it is handed on. The button sits on step 2 and is
        disabled while processing. */
    method PlaceOrder(id: string, user: Option<User>, items: seq<CartItem>, subtotal: real,
                      createdAt: string, trackingStamp: string) returns (order: Order)
      requires step == 2 && !isProcessing
      modifies this`isProcessing
      ensures order == BuildOrder(id, user, items, subtotal, addCarbonOffset, charityDonation,
                                  shippingAddress, paymentInfo, createdAt, trackingStamp)
      ensures order.total == FinalTotal(subtotal, addCarbonOffset, charityDonation)
      ensures !isProcessing
    {
      isProcessing := true;
      order := BuildOrder(id, user, items, subtotal, addCarbonOffset, charityDonation,
                          shippingAddress, paymentInfo, createdAt, trackingStamp);
      isProcessing := false;
    }
  }
}
