/**
 * Model/Place/Rest/V1.php: the first version of the place resource. It
 * branches on the API user's type, prepares the quote's customer data and
 * the customer's address book, and renders nothing; it neither saves the
 * quote nor submits an order.
 */
module PlaceV1 {
  import opened Wrappers
  import opened Values
  import opened Objects
  import opened QuoteSync
  import opened Resource
  import opened Place

  /** `Mage_Api2_Model_Auth_User_Guest::USER_TYPE`. */
  const GUEST_USER: string := "guest"
  /** `Mage_Api2_Model_Auth_User_Customer::USER_TYPE`. */
  const CUSTOMER_USER: string := "customer"

  /** Which of the new address book entries are flagged as the customer's defaults. */
  datatype Defaults = Defaults(billingIsDefaultBilling: bool, billingIsDefaultShipping: bool, shippingIsDefaultShipping: bool)

  /**
   * The flags `placeCustomerOrder` sets, given which entries were added and
   * whether the customer already has a default billing and a default
   * shipping address.
   */
  function DefaultsFor(billingAdded: bool, shippingAdded: bool, hasDefaultBilling: bool, hasDefaultShipping: bool): Defaults {
    var billingDefault := billingAdded && !hasDefaultBilling;
    if shippingAdded && !hasDefaultShipping then Defaults(billingDefault, false, true)
    else Defaults(billingDefault, billingAdded && !hasDefaultShipping, false)
  }

  /**
   * The new billing entry becomes the default billing address exactly when
   * the customer had none; the new shipping entry becomes the default
   * shipping address exactly when the customer had none; failing a new
   * shipping entry, the new billing entry takes that place. At most one
   * entry is the default shipping address, and one is whenever the customer
   * had none and some entry was added.
   */
  lemma DefaultsRules(billingAdded: bool, shippingAdded: bool, hasDefaultBilling: bool, hasDefaultShipping: bool)
    ensures var d := DefaultsFor(billingAdded, shippingAdded, hasDefaultBilling, hasDefaultShipping);
      && (d.billingIsDefaultBilling <==> billingAdded && !hasDefaultBilling)
      && (d.shippingIsDefaultShipping <==> shippingAdded && !hasDefaultShipping)
      && (d.billingIsDefaultShipping <==> billingAdded && !shippingAdded && !hasDefaultShipping)
      && !(d.billingIsDefaultShipping && d.shippingIsDefaultShipping)
      && (!hasDefaultShipping && (billingAdded || shippingAdded) ==> d.billingIsDefaultShipping || d.shippingIsDefaultShipping)
  {
  }

  /** An entry's data with the `is_default_billing` and `is_default_shipping` flags its defaults call for. */
  function Flagged(entry: map<string, Value>, defaultBilling: bool, defaultShipping: bool): map<string, Value> {
    var b := if defaultBilling then entry["is_default_billing" := Bool(true)] else entry;
    if defaultShipping then b["is_default_shipping" := Bool(true)] else b
  }

  /** The shipping address `placeCustomerOrder` adds to the book: a non-virtual quote's, not same-as-billing, by the book rule. */
  predicate ShippingToBook(isVirtual: bool, shipping: map<string, Value>) {
    !isVirtual && !Truthy(Field(shipping, "same_as_billing")) && ToAddressBook(shipping)
  }

  /**
   * `placeCustomerOrder($quote)` for the session's customer: the billing
   * address and (on a non-virtual quote not marked same-as-billing) the
   * shipping address go to the book by the book rule, flagged as defaults
   * per `DefaultsFor`; the quote then takes the customer (`setCustomer`,
   * whose effect on the quote's data is `assignCustomer`).
   */
  method PlaceCustomerOrderV1(exportAddress: map<string, Value> -> map<string, Value>,
                              assignCustomer: (map<string, Value>, map<string, Value>) -> map<string, Value>,
                              customer: Customer, quote: Quote)
    returns (customerBilling: DataObject?, customerShipping: DataObject?)
    modifies quote, customer
    ensures var d := DefaultsFor(customerBilling != null, customerShipping != null,
                                 Truthy(Field(customer.data, "default_billing")), Truthy(Field(customer.data, "default_shipping")));
      && (customerBilling != null <==> ToAddressBook(quote.billing.data))
      && (customerShipping != null <==> ShippingToBook(quote.isVirtual, quote.shipping.data))
      && (customerBilling != null ==>
            fresh(customerBilling)
            && customerBilling.data == Flagged(exportAddress(quote.billing.data), d.billingIsDefaultBilling, d.billingIsDefaultShipping))
      && (customerShipping != null ==>
            fresh(customerShipping)
            && customerShipping.data == Flagged(exportAddress(quote.shipping.data), false, d.shippingIsDefaultShipping))
    ensures customer.addresses == old(customer.addresses) + Added(customerBilling) + Added(customerShipping)
    ensures customer.data == old(customer.data)
    ensures quote.data == assignCustomer(old(quote.data), customer.data)
    ensures quote.billing == old(quote.billing) && quote.shipping == old(quote.shipping) && quote.isVirtual == old(quote.isVirtual)
  {
    customerBilling, customerShipping := null, null;
    var billing := quote.billing;
    var shipping: DataObject? := if quote.isVirtual then null else quote.shipping;
    if ToAddressBook(billing.data) {
      customerBilling := ExportToBook(customer, exportAddress, billing);
    }
    if shipping != null && !Truthy(shipping.Get("same_as_billing")) && ToAddressBook(shipping.data) {
      customerShipping := ExportToBook(customer, exportAddress, shipping);
    }
    if customerBilling != null && !Truthy(Field(customer.data, "default_billing")) {
      customerBilling.Set("is_default_billing", Bool(true));
    }
    if shipping != null && customerShipping != null && !Truthy(Field(customer.data, "default_shipping")) {
      customerShipping.Set("is_default_shipping", Bool(true));
    } else if customerBilling != null && !Truthy(Field(customer.data, "default_shipping")) {
      customerBilling.Set("is_default_shipping", Bool(true));
    }
    quote.data := assignCustomer(quote.data, customer.data);
  }

  /**
   * `dispatch()`: entity create by a guest marks the quote as a guest's;
   * entity create by a customer prepares the customer's order; both answer
   * 200 with no body. Anything else, including another user type, is 405.
   */
  method DispatchV1(state: ResourceState, userType: string, exportAddress: map<string, Value> -> map<string, Value>,
                    assignCustomer: (map<string, Value>, map<string, Value>) -> map<string, Value>,
                    customer: Customer, session: Quote)
    returns (o: Outcome<Reply>)
    requires session.Valid()
    requires state.quote == null || state.quote == session
    modifies state, session, session.billing, customer
    ensures var create := old(state.actionType) + old(state.operation) == ENTITY + CREATE;
            var loaded := AfterLoad(old(state.quote) != null, old(session.data), old(session.billing.data));
      && session.billing.data == loaded.1
      && (create && userType == GUEST_USER ==>
            o == Done(Reply(OK, NoBody)) && session.data == Guest(loaded.0, loaded.1) && customer.addresses == old(customer.addresses))
      && (create && userType == CUSTOMER_USER ==>
            var toBook := ToAddressBook(loaded.1);
            var shippingToBook := ShippingToBook(session.isVirtual, session.shipping.data);
            var d := DefaultsFor(toBook, shippingToBook,
                                 Truthy(Field(customer.data, "default_billing")), Truthy(Field(customer.data, "default_shipping")));
            var n := |old(customer.addresses)|;
            && o == Done(Reply(OK, NoBody)) && session.data == assignCustomer(loaded.0, customer.data)
            && |customer.addresses| == n + (if toBook then 1 else 0) + (if shippingToBook then 1 else 0)
            && customer.addresses[..n] == old(customer.addresses)
            && (toBook ==> customer.addresses[n].data
                             == Flagged(exportAddress(loaded.1), d.billingIsDefaultBilling, d.billingIsDefaultShipping))
            && (shippingToBook ==> customer.addresses[|customer.addresses| - 1].data
                                     == Flagged(exportAddress(session.shipping.data), false, d.shippingIsDefaultShipping)))
      && (!create || userType !in {GUEST_USER, CUSTOMER_USER} ==>
            o == NotAllowed() && session.data == loaded.0 && customer.addresses == old(customer.addresses))
    ensures customer.data == old(customer.data)
    ensures session.billing == old(session.billing) && session.shipping == old(session.shipping)
    ensures session.shipping.data == old(session.shipping.data) && session.isVirtual == old(session.isVirtual)
  {
    var quote := LoadQuote(state, session, false);
    ghost var loaded := AfterLoad(old(state.quote) != null, old(session.data), old(session.billing.data));
    assert session.data == loaded.0 && session.billing.data == loaded.1;
    var op := state.actionType + state.operation;
    if op == ENTITY + CREATE && userType == GUEST_USER {
      MarkGuest(session);
      o := Done(Reply(OK, NoBody));
    } else if op == ENTITY + CREATE && userType == CUSTOMER_USER {
      ghost var book := customer.addresses;
      var customerBilling, customerShipping := PlaceCustomerOrderV1(exportAddress, assignCustomer, customer, session);
      assert customer.addresses[..|book|] == book;
      o := Done(Reply(OK, NoBody));
    } else {
      o := NotAllowed();
    }
  }
}
