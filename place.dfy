/**
 * Model/Place.php: POST to the place resource turns the quote into an
 * order. A customer's new addresses go to the address book; a guest quote
 * is marked as a guest's; a shipping address marked same-as-billing is
 * copied from the billing address; the answer is the order's increment id.
 */
module Place {
  import opened Wrappers
  import opened Values
  import opened KeySort
  import opened Projection
  import opened Objects
  import opened QuoteSync
  import opened Resource
  import opened QuoteValidation

  /** `Mage_Customer_Model_Group::NOT_LOGGED_IN_ID`. */
  const NOT_LOGGED_IN_ID: int := 0

  /** A `Mage_Customer_Model_Customer`: its data (default_billing, default_shipping, …) and its address book. */
  class Customer {
    var data: map<string, Value>
    var addresses: seq<DataObject>

    constructor (d: map<string, Value>)
      ensures data == d && addresses == []
    {
      data := d;
      addresses := [];
    }

    /** `addAddress($address)`. */
    method AddAddress(address: DataObject)
      modifies this
      ensures addresses == old(addresses) + [address] && data == old(data)
    {
      addresses := addresses + [address];
    }
  }

  /** `!$address->getCustomerId() || $address->getSaveInAddressBook()`: the quote address goes to the address book. */
  predicate ToAddressBook(address: map<string, Value>) {
    !Truthy(Field(address, "customer_id")) || Truthy(Field(address, "save_in_address_book"))
  }

  /** The address book entry made by `exportCustomerAddress()` and added to the customer, if any. */
  function Added(address: DataObject?): seq<DataObject> {
    if address == null then [] else [address]
  }

  /** The quote's data after it is marked as a guest's: no customer, the billing email, the guest flag, the not-logged-in group. */
  function Guest(quote: map<string, Value>, billing: map<string, Value>): map<string, Value> {
    quote["customer_id" := Null]["customer_email" := Field(billing, "email")]["customer_is_guest" := Bool(true)]
         ["customer_group_id" := Int(NOT_LOGGED_IN_ID)]
  }

  /** Marking a quote as a guest's sets exactly customer_id, customer_email, customer_is_guest and customer_group_id. */
  lemma GuestFields(quote: map<string, Value>, billing: map<string, Value>, k: string)
    ensures var g := Guest(quote, billing);
      && g.Keys == quote.Keys + {"customer_id", "customer_email", "customer_is_guest", "customer_group_id"}
      && Field(g, "customer_id") == Null && Field(g, "customer_email") == Field(billing, "email")
      && Field(g, "customer_is_guest") == Bool(true) && Field(g, "customer_group_id") == Int(NOT_LOGGED_IN_ID)
      && (k !in {"customer_id", "customer_email", "customer_is_guest", "customer_group_id"} ==> Field(g, k) == Field(quote, k))
  {
    assert |"customer_id"| == 11 && |"customer_email"| == 14 && |"customer_is_guest"| == 17 && |"customer_group_id"| == 17;
    assert "customer_is_guest"[9] != "customer_group_id"[9];
  }

  /** `placeGuestOrder($quote)` and the guest branch of `placeOrder`. */
  method MarkGuest(quote: Quote)
    modifies quote
    ensures quote.data == Guest(old(quote.data), quote.billing.data)
    ensures quote.billing == old(quote.billing) && quote.shipping == old(quote.shipping) && quote.payment == old(quote.payment)
    ensures quote.items == old(quote.items) && quote.isVirtual == old(quote.isVirtual) && quote.totalsCollectedFlag == old(quote.totalsCollectedFlag)
  {
    quote.Set("customer_id", Null);
    quote.Set("customer_email", quote.billing.Get("email"));
    quote.Set("customer_is_guest", Bool(true));
    quote.Set("customer_group_id", Int(NOT_LOGGED_IN_ID));
  }

  /** `addAddress($customerAddress = $address->exportCustomerAddress())`: a new book entry from the quote address. */
  method ExportToBook(customer: Customer, exportAddress: map<string, Value> -> map<string, Value>, address: DataObject)
    returns (entry: DataObject)
    modifies customer
    ensures fresh(entry) && entry.data == exportAddress(address.data) && !entry.deleted
    ensures customer.addresses == old(customer.addresses) + [entry] && customer.data == old(customer.data)
  {
    entry := new DataObject(exportAddress(address.data));
    customer.AddAddress(entry);
  }

  /** The shipping address copy of `placeOrder`: a non-virtual quote's shipping address marked same-as-billing. */
  predicate CopiesBilling(isVirtual: bool, shipping: map<string, Value>) {
    !isVirtual && Truthy(Field(shipping, "same_as_billing"))
  }

  /**
   * What Magento's order submission (`submitOrder()`, which is not part of
   * this model) yields: the placed order's increment id, or the exception
   * it throws, which nothing in the resource catches.
   */
  datatype Submission = Submitted(incrementId: Value) | Failed(message: string)

  /** `new Varien_Object(['status' => 'success', 'order' => $incrementId])`. */
  function Answer(incrementId: Value): Record {
    [("status", Str("success")), ("order", incrementId)]
  }

  /**
   * The rendered answer: filtered, null-filled and key-sorted. The
   * resource's `attributeTypeMap` is empty, so `fixTypes` leaves it as it is.
   */
  function PlaceResponse(incrementId: Value, f: Filter): Record {
    Finish(Out(Answer(incrementId), f.readable), f.included)
  }

  /**
   * The answer holds status 'success' and the order's increment id, as far
   * as the filter lets them through, null for each other requested code,
   * and nothing else; its keys are sorted.
   */
  lemma PlaceResponseShape(incrementId: Value, f: Filter)
    ensures var r := PlaceResponse(incrementId, f);
      && SortedKeys(r)
      && forall k :: Lookup(r, k) ==
           if k == "status" && k in f.readable then Some(Str("success"))
           else if k == "order" && k in f.readable then Some(incrementId)
           else if k in f.included then Some(Null) else None
  {
    var d := Out(Answer(incrementId), f.readable);
    assert DistinctKeys(Answer(incrementId));
    OutDistinct(Answer(incrementId), f.readable);
    FinishShape(d, f.included);
  }

  /**
   * `placeOrder($quote)` with the customer `$quote->getCustomer()`; the
   * order submission's outcome is `submission`: a failed submission ends
   * the call with its exception after the addresses were prepared. A
   * customer's quote: the billing address, then (on a non-virtual quote not
   * copying billing) the shipping address, go to the address book when
   * they belong to no customer or ask to be saved. A guest's quote is
   * marked as such. Either way a non-virtual shipping address marked
   * same-as-billing is copied from billing and never goes to the book.
   */
  method PlaceOrder(f: Filter, checks: Checks, exportAddress: map<string, Value> -> map<string, Value>, customer: Customer, quote: Quote,
                    submission: Submission)
    returns (r: Outcome<Record>, customerBilling: DataObject?, customerShipping: DataObject?)
    requires quote.Valid()
    modifies quote, quote.shipping, customer
    ensures submission.Submitted? ==> r == Done(PlaceResponse(submission.incrementId, f))
    ensures submission.Failed? ==> r == Fault(INTERNAL_ERROR, submission.message)
    ensures quote.billing == old(quote.billing) && quote.shipping == old(quote.shipping) && quote.billing.data == old(quote.billing.data)
    ensures quote.isVirtual == old(quote.isVirtual)
    ensures CopiesBilling(quote.isVirtual, old(quote.shipping.data)) ==>
              quote.shipping.data == CopiedFromBilling(checks, old(quote.shipping.data), quote.billing.data) && customerShipping == null
    ensures !CopiesBilling(quote.isVirtual, old(quote.shipping.data)) ==> quote.shipping.data == old(quote.shipping.data)
    ensures Truthy(old(quote.Get("customer_id"))) ==>
              && quote.data == old(quote.data)
              && (customerBilling != null <==> ToAddressBook(quote.billing.data))
              && (customerBilling != null ==> fresh(customerBilling) && customerBilling.data == exportAddress(quote.billing.data))
              && (customerShipping != null <==> !quote.isVirtual && !CopiesBilling(quote.isVirtual, old(quote.shipping.data))
                                                && ToAddressBook(old(quote.shipping.data)))
              && (customerShipping != null ==> fresh(customerShipping) && customerShipping.data == exportAddress(old(quote.shipping.data)))
              && customer.addresses == old(customer.addresses) + Added(customerBilling) + Added(customerShipping)
    ensures !Truthy(old(quote.Get("customer_id"))) ==>
              && quote.data == Guest(old(quote.data), quote.billing.data)
              && customerBilling == null && customerShipping == null && customer.addresses == old(customer.addresses)
    ensures customer.data == old(customer.data)
  {
    customerBilling, customerShipping := null, null;
    var billing := quote.billing;
    var shipping := quote.shipping;
    if Truthy(quote.Get("customer_id")) {
      if ToAddressBook(billing.data) {
        customerBilling := ExportToBook(customer, exportAddress, billing);
      }
      if !quote.isVirtual {
        if Truthy(shipping.Get("same_as_billing")) {
          shipping.data := checks.importAddress(shipping.data, billing.data);
          shipping.Set("same_as_billing", Int(1));
        } else if ToAddressBook(shipping.data) {
          customerShipping := ExportToBook(customer, exportAddress, shipping);
        }
      }
    } else {
      MarkGuest(quote);
      if !quote.isVirtual && Truthy(shipping.Get("same_as_billing")) {
        shipping.data := checks.importAddress(shipping.data, billing.data);
        shipping.Set("same_as_billing", Int(1));
      }
    }
    if submission.Failed? {
      return Fault(INTERNAL_ERROR, submission.message), customerBilling, customerShipping;
    }
    var data := Answer(submission.incrementId);
    data := Out(data, f.readable);
    data := Finish(data, f.included);
    r := Done(data);
  }

  /**
   * `dispatch()`: entity create places the order and answers 201 with the
   * rendered answer, or fails with the submission's exception; anything
   * else is 405 (the quote is loaded first either way).
   */
  method Dispatch(state: ResourceState, acl: (string, string) -> Filter, checks: Checks, exportAddress: map<string, Value> -> map<string, Value>,
                  customer: Customer, session: Quote, submission: Submission)
    returns (o: Outcome<Reply>)
    requires session.Valid()
    requires state.quote == null || state.quote == session
    modifies state, session, session.billing, session.shipping, customer
    ensures state.actionType + state.operation == ENTITY + CREATE ==>
              var loaded := AfterLoad(old(state.quote) != null, old(session.data), old(session.billing.data));
              var copies := CopiesBilling(session.isVirtual, old(session.shipping.data));
              var n := |old(customer.addresses)|;
              && (submission.Submitted? ==> o == Done(Reply(CREATED, Single(PlaceResponse(submission.incrementId, acl(ENTITY, CREATE))))))
              && (submission.Failed? ==> o == Fault(INTERNAL_ERROR, submission.message))
              && session.billing.data == loaded.1
              && session.shipping.data == (if copies then CopiedFromBilling(checks, old(session.shipping.data), loaded.1)
                                           else old(session.shipping.data))
              && (Truthy(Field(loaded.0, "customer_id")) ==>
                    && session.data == loaded.0
                    && |customer.addresses| == n + (if ToAddressBook(loaded.1) then 1 else 0)
                                                 + (if !session.isVirtual && !copies && ToAddressBook(old(session.shipping.data)) then 1 else 0)
                    && customer.addresses[..n] == old(customer.addresses)
                    && (ToAddressBook(loaded.1) ==> customer.addresses[n].data == exportAddress(loaded.1))
                    && (!session.isVirtual && !copies && ToAddressBook(old(session.shipping.data)) ==>
                          customer.addresses[|customer.addresses| - 1].data == exportAddress(old(session.shipping.data))))
              && (!Truthy(Field(loaded.0, "customer_id")) ==>
                    session.data == Guest(loaded.0, loaded.1) && customer.addresses == old(customer.addresses))
    ensures state.actionType + state.operation != ENTITY + CREATE ==>
              var loaded := AfterLoad(old(state.quote) != null, old(session.data), old(session.billing.data));
              && o == NotAllowed()
              && session.data == loaded.0 && session.billing.data == loaded.1
              && session.shipping.data == old(session.shipping.data) && customer.addresses == old(customer.addresses)
    ensures state.actionType == old(state.actionType) && state.operation == old(state.operation)
    ensures session.billing == old(session.billing) && session.shipping == old(session.shipping)
    ensures session.isVirtual == old(session.isVirtual)
  {
    var quote := LoadQuote(state, session, false);
    ghost var loaded := AfterLoad(old(state.quote) != null, old(session.data), old(session.billing.data));
    assert session.data == loaded.0 && session.billing.data == loaded.1;
    ghost var book := customer.addresses;
    if state.actionType + state.operation == ENTITY + CREATE {
      var r, _, _ := PlaceOrder(acl(ENTITY, CREATE), checks, exportAddress, customer, session, submission);
      if r.Fault? {
        assert customer.addresses[..|book|] == book;
        return Fault(r.code, r.message);
      }
      assert customer.addresses[..|book|] == book;
      o := Done(Reply(CREATED, Single(r.value)));
    } else {
      o := NotAllowed();
    }
  }
}
