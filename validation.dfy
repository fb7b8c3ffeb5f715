/**
 * `validateQuote` and `validateQuoteAddress` of Helper/Data.php: the
 * error map a quote is checked against before an order is placed. The
 * address form, `address->validate()`, the rate lookup, the payment
 * method instance and the import of one address into another belong to
 * Magento and are given as functions.
 */
module QuoteValidation {
  import opened Wrappers
  import opened Values
  import opened Objects

  /** What `getMethodInstance()` does: returns an instance, returns nothing, or throws `Mage_Core_Exception`. */
  datatype InstanceLookup = Instance | NoInstance | Raises

  datatype Checks = Checks(
    /** `customer/form` `validateData`: an error list, or None when it returns true. */
    formErrors: map<string, Value> -> Option<seq<string>>,
    /** `address->validate()`: an error list, or None when it returns true. */
    modelErrors: map<string, Value> -> Option<seq<string>>,
    /** Whether `getShippingRateByCode($method)` finds a rate on the address. */
    hasRate: (map<string, Value>, Value) -> bool,
    /** `getMethodInstance()` on the payment. */
    instance: map<string, Value> -> InstanceLookup,
    /** The shipping address's data after `importCustomerAddress($billing->exportCustomerAddress())`. */
    importAddress: (map<string, Value>, map<string, Value>) -> map<string, Value>)

  const SHIPPING_METHOD_MESSAGE: string := "Please specify a valid shipping method."
  const PAYMENT_MESSAGE: string := "Please select a valid payment method."

  /** The four keys an error map can have. */
  const ERROR_KEYS: set<string> := {"shipping_address", "shipping_method", "billing_address", "payment"}

  /** `validateQuoteAddress`: the form's error list, else the address model's, else none. */
  function AddressErrors(checks: Checks, address: map<string, Value>): (r: seq<string>)
    ensures checks.formErrors(address).Some? ==> r == checks.formErrors(address).value
    ensures checks.formErrors(address).None? && checks.modelErrors(address).None? ==> r == []
  {
    match checks.formErrors(address)
    case Some(e) => e
    case None =>
      match checks.modelErrors(address)
      case Some(e) => e
      case None => []
  }

  /** `!$method || !$rate` for the shipping address. */
  predicate ShippingMethodInvalid(checks: Checks, shipping: map<string, Value>) {
    var m := Field(shipping, "shipping_method");
    !Truthy(m) || !checks.hasRate(shipping, m)
  }

  /** `!$method || !$instance`, or the instance lookup threw. */
  predicate PaymentInvalid(checks: Checks, payment: map<string, Value>) {
    !Truthy(Field(payment, "method")) || checks.instance(payment) != Instance
  }

  /** The shipping address a non-virtual same-as-billing quote is validated with. */
  function CopiedFromBilling(checks: Checks, shipping: map<string, Value>, billing: map<string, Value>): map<string, Value> {
    checks.importAddress(shipping, billing)["same_as_billing" := Int(1)]
  }

  /** The shipping address as validation leaves it. */
  function ShippingForValidation(checks: Checks, isVirtual: bool, shipping: map<string, Value>, billing: map<string, Value>): map<string, Value> {
    if !isVirtual && Truthy(Field(shipping, "same_as_billing")) then CopiedFromBilling(checks, shipping, billing) else shipping
  }

  /** The error map, given the (already copied) shipping address, the billing address and the payment. */
  function QuoteErrors(checks: Checks, isVirtual: bool, shipping: map<string, Value>, billing: map<string, Value>, payment: map<string, Value>)
    : Assoc<seq<string>>
  {
    var e1 := PutIf([], !isVirtual && |AddressErrors(checks, shipping)| > 0, "shipping_address", AddressErrors(checks, shipping));
    var e2 := PutIf(e1, !isVirtual && ShippingMethodInvalid(checks, shipping), "shipping_method", [SHIPPING_METHOD_MESSAGE]);
    var e3 := PutIf(e2, |AddressErrors(checks, billing)| > 0, "billing_address", AddressErrors(checks, billing));
    PutIf(e3, PaymentInvalid(checks, payment), "payment", [PAYMENT_MESSAGE])
  }

  /**
   * `validateQuote($quote)`: a non-virtual quote whose shipping address is
   * same-as-billing first has it re-imported from billing with the flag
   * kept at 1; then the error map is built.
   */
  method ValidateQuote(quote: Quote, checks: Checks) returns (errors: Assoc<seq<string>>)
    requires quote.Valid()
    modifies quote.shipping
    ensures quote.shipping.data == ShippingForValidation(checks, quote.isVirtual, old(quote.shipping.data), quote.billing.data)
    ensures errors == QuoteErrors(checks, quote.isVirtual, quote.shipping.data, quote.billing.data, quote.payment.data)
  {
    errors := [];
    var shipping := quote.shipping;
    ghost var billing := quote.billing.data;
    ghost var payment := quote.payment.data;
    if !quote.isVirtual {
      if Truthy(shipping.Get("same_as_billing")) {
        shipping.data := checks.importAddress(shipping.data, quote.billing.data);
        shipping.Set("same_as_billing", Int(1));
      }
      var addressErrors := AddressErrors(checks, shipping.data);
      if |addressErrors| > 0 {
        errors := Put(errors, "shipping_address", addressErrors);
      }
      var m := shipping.Get("shipping_method");
      var rate := checks.hasRate(shipping.data, m);
      if !Truthy(m) || !rate {
        errors := Put(errors, "shipping_method", [SHIPPING_METHOD_MESSAGE]);
      }
    }
    assert quote.billing.data == billing && quote.payment.data == payment;
    assert shipping.data == ShippingForValidation(checks, quote.isVirtual, old(quote.shipping.data), billing);
    var billingErrors := AddressErrors(checks, quote.billing.data);
    if |billingErrors| > 0 {
      errors := Put(errors, "billing_address", billingErrors);
    }
    if !Truthy(quote.payment.Get("method")) || checks.instance(quote.payment.data) != Instance {
      errors := Put(errors, "payment", [PAYMENT_MESSAGE]);
    }
  }

  /** What the error map holds under each key. */
  lemma QuoteErrorsLookup(checks: Checks, isVirtual: bool, shipping: map<string, Value>, billing: map<string, Value>, payment: map<string, Value>, k: string)
    ensures Lookup(QuoteErrors(checks, isVirtual, shipping, billing, payment), k) ==
      if k == "shipping_address" && !isVirtual && |AddressErrors(checks, shipping)| > 0 then Some(AddressErrors(checks, shipping))
      else if k == "shipping_method" && !isVirtual && ShippingMethodInvalid(checks, shipping) then Some([SHIPPING_METHOD_MESSAGE])
      else if k == "billing_address" && |AddressErrors(checks, billing)| > 0 then Some(AddressErrors(checks, billing))
      else if k == "payment" && PaymentInvalid(checks, payment) then Some([PAYMENT_MESSAGE])
      else None
  {
    var sErr := AddressErrors(checks, shipping);
    var bErr := AddressErrors(checks, billing);
    var e1 := PutIf([], !isVirtual && |sErr| > 0, "shipping_address", sErr);
    var e2 := PutIf(e1, !isVirtual && ShippingMethodInvalid(checks, shipping), "shipping_method", [SHIPPING_METHOD_MESSAGE]);
    var e3 := PutIf(e2, |bErr| > 0, "billing_address", bErr);
    assert Lookup(e1, k) == if k == "shipping_address" && !isVirtual && |sErr| > 0 then Some(sErr) else None;
  }

  /**
   * The keys of the error map: only the four known keys, never a shipping
   * key for a virtual quote, each address key present iff that address has
   * errors (holding them), shipping_method iff the quote is not virtual and
   * the method is empty or has no rate, payment iff the method is empty or
   * has no instance; no key holds an empty list.
   */
  lemma QuoteErrorsKeys(checks: Checks, isVirtual: bool, shipping: map<string, Value>, billing: map<string, Value>, payment: map<string, Value>)
    ensures var e := QuoteErrors(checks, isVirtual, shipping, billing, payment);
      && (forall k :: HasKey(e, k) ==> k in ERROR_KEYS)
      && (isVirtual ==> !HasKey(e, "shipping_address") && !HasKey(e, "shipping_method"))
      && (HasKey(e, "shipping_address") <==> !isVirtual && |AddressErrors(checks, shipping)| > 0)
      && (HasKey(e, "shipping_method") <==> !isVirtual && ShippingMethodInvalid(checks, shipping))
      && (HasKey(e, "billing_address") <==> |AddressErrors(checks, billing)| > 0)
      && (HasKey(e, "payment") <==> PaymentInvalid(checks, payment))
      && (forall k :: Lookup(e, k).Some? ==> |Lookup(e, k).value| > 0)
  {
    var e := QuoteErrors(checks, isVirtual, shipping, billing, payment);
    forall k | HasKey(e, k) ensures k in ERROR_KEYS && |Lookup(e, k).value| > 0 {
      QuoteErrorsLookup(checks, isVirtual, shipping, billing, payment, k);
    }
    QuoteErrorsLookup(checks, isVirtual, shipping, billing, payment, "shipping_address");
    QuoteErrorsLookup(checks, isVirtual, shipping, billing, payment, "shipping_method");
    QuoteErrorsLookup(checks, isVirtual, shipping, billing, payment, "billing_address");
    QuoteErrorsLookup(checks, isVirtual, shipping, billing, payment, "payment");
  }

  /** The error map is empty exactly when every check passes. */
  lemma QuoteErrorsEmpty(checks: Checks, isVirtual: bool, shipping: map<string, Value>, billing: map<string, Value>, payment: map<string, Value>)
    ensures |QuoteErrors(checks, isVirtual, shipping, billing, payment)| == 0 <==>
              (isVirtual || (|AddressErrors(checks, shipping)| == 0 && !ShippingMethodInvalid(checks, shipping)))
              && |AddressErrors(checks, billing)| == 0 && !PaymentInvalid(checks, payment)
  {
    var e := QuoteErrors(checks, isVirtual, shipping, billing, payment);
    QuoteErrorsKeys(checks, isVirtual, shipping, billing, payment);
    if |e| > 0 {
      assert HasKey(e, e[0].0) by { HasKeyIndex(e, e[0].0); }
    }
  }
}
