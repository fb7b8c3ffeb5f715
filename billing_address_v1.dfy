/**
 * Model/BillingAddress/Rest/V1.php: the first version of the billing
 * address resource. It renders every readable field of the address, not
 * only the requested ones, has no manual attributes and no validation, and
 * writes the body field by field or from a stored customer address.
 */
module BillingAddressV1 {
  import opened Wrappers
  import opened Values
  import opened Codec
  import opened KeySort
  import opened Projection
  import opened Typing
  import opened Pipeline
  import opened Objects
  import opened QuoteSync
  import opened Resource
  import opened Address
  import BillingAddress

  /** `prepareResource($address)` for an address with fields `fields`: all its fields, unmapped, filtered, typed, null-filled, sorted. */
  ghost function ProjectionV1(cx: AddressContext, f: Filter, fields: map<string, Value>): Record {
    Projected(cx.loc, cx.currencyCode, UnmapAttributes([], SortedFields(fields)), f.readable, BillingAddress.BILLING_TYPES, f.included)
  }

  /**
   * A projection is sorted by key and holds each readable field of the
   * address, typed, whether requested or not, and null for each requested
   * code the address does not have or the filter hides; nothing else.
   */
  lemma ProjectionV1Shape(cx: AddressContext, f: Filter, fields: map<string, Value>)
    ensures var r := ProjectionV1(cx, f, fields);
      && SortedKeys(r)
      && forall k :: Lookup(r, k) ==
           if k in f.readable && k in fields then Some(Typed(cx.loc, cx.currencyCode, BillingAddress.BILLING_TYPES, k, fields[k]))
           else if k in f.included then Some(Null) else None
  {
    var raw := SortedFields(fields);
    SortedFieldsContents(fields);
    MapNothing(raw);
    BillingAddress.BillingTypesDistinct();
    ProjectedShape(cx.loc, cx.currencyCode, raw, f.readable, BillingAddress.BILLING_TYPES, f.included);
  }

  /** `prepareResource($address)`: the state is switched to entity retrieve for the filter and restored. */
  method PrepareResourceV1(state: ResourceState, acl: (string, string) -> Filter, cx: AddressContext, address: DataObject)
    returns (r: Record)
    modifies state
    ensures state.actionType == old(state.actionType) && state.operation == old(state.operation) && state.quote == old(state.quote)
    ensures r == ProjectionV1(cx, acl(ENTITY, RETRIEVE), address.data)
  {
    var actionType := state.actionType;
    var operation := state.operation;
    state.actionType := ENTITY;
    state.operation := RETRIEVE;
    var f := acl(ENTITY, RETRIEVE);
    var data := ToArray(address);
    data := UnmapAttributes([], data);
    data := Out(data, f.readable);
    data := FixTypes(cx.loc, cx.currencyCode, data, [], BillingAddress.BILLING_TYPES);
    r := Finish(data, f.included);
    state.actionType := actionType;
    state.operation := operation;
  }

  /**
   * The billing address after `updateResource`: a body that has the key
   * customer_address_id, whatever its value, loads the stored address
   * named by the body's `id`; any other body is written field by field.
   */
  function UpdatedV1(book: AddressBook, f: Filter, customerId: Value, fields: map<string, Value>, body: Record): Outcome<map<string, Value>> {
    var data := MapAttributes([], In(body, f));
    if HasKey(data, "customer_address_id") then StoredOutcome(book, Get(data, "id"), customerId, fields)
    else Done(WrittenAll(fields, data))
  }

  /** `updateResource($address, $data)`; the 400 leaves the state at entity update as the exception does. */
  method UpdateResourceV1(state: ResourceState, acl: (string, string) -> Filter, book: AddressBook, quote: Quote, body: Record)
    returns (o: Outcome<()>)
    modifies state, quote.billing
    ensures var w := UpdatedV1(book, acl(ENTITY, UPDATE), quote.Get("customer_id"), old(quote.billing.data), body);
      && (w.Fault? ==> o == Fault(w.code, w.message) && quote.billing.data == old(quote.billing.data)
                       && state.actionType == ENTITY && state.operation == UPDATE)
      && (w.Done? ==> o == Done(()) && quote.billing.data == w.value
                      && state.actionType == old(state.actionType) && state.operation == old(state.operation))
    ensures state.quote == old(state.quote) && quote.billing.deleted == old(quote.billing.deleted)
  {
    var actionType := state.actionType;
    var operation := state.operation;
    state.actionType := ENTITY;
    state.operation := UPDATE;
    var f := acl(ENTITY, UPDATE);
    var data := In(body, f);
    data := MapAttributes([], data);
    if HasKey(data, "customer_address_id") {
      var stored := ImportStored(quote.billing, book, Get(data, "id"), quote.Get("customer_id"));
      if stored.Fault? {
        return Fault(stored.code, stored.message);
      }
    } else {
      WriteAll(quote.billing, data);
    }
    state.actionType := actionType;
    state.operation := operation;
    o := Done(());
  }

  /**
   * Without customer_address_id in the body, each writable field of the
   * body is written with the body's value, including fields the second
   * version would not touch (validation_errors, region_id as sent); every
   * other field is kept. Nothing is validated, so nothing else changes.
   */
  lemma UpdatedV1Writes(book: AddressBook, f: Filter, customerId: Value, fields: map<string, Value>, body: Record, k: string)
    requires DistinctKeys(body)
    requires !HasKey(In(body, f), "customer_address_id")
    ensures var w := UpdatedV1(book, f, customerId, fields, body);
            var written := k in f.writable && HasKey(body, k);
      && w.Done?
      && (k in w.value <==> k in fields || written)
      && (written ==> w.value[k] == Get(body, k))
      && (!written && k in fields ==> w.value[k] == fields[k])
  {
    var data := In(body, f);
    RestrictDistinct(body, set c | c in f.writable);
    MapNothing(data);
    WrittenAllLookup(fields, data, k);
  }

  /**
   * A body with the key customer_address_id writes none of its fields: it
   * either leaves the address as it is, fails with the 400 for another
   * customer's address, or imports the stored address named by the body's
   * `id` (which loads nothing unless `id` is writable) and not the one
   * customer_address_id names.
   */
  lemma UpdatedV1Stored(book: AddressBook, f: Filter, customerId: Value, fields: map<string, Value>, body: Record)
    requires DistinctKeys(body)
    requires HasKey(In(body, f), "customer_address_id")
    ensures var w := UpdatedV1(book, f, customerId, fields, body);
            var id := if "id" in f.writable then Get(body, "id") else Null;
      && w == StoredOutcome(book, id, customerId, fields)
      && (w.Fault? <==> Exists(book.load(id)) && OtherCustomer(book.load(id), customerId))
      && (!Exists(book.load(id)) ==> w == Done(fields))
  {
    var data := In(body, f);
    RestrictDistinct(body, set c | c in f.writable);
    MapNothing(data);
    StoredRules(book, if "id" in f.writable then Get(body, "id") else Null, customerId, fields);
  }

  /**
   * The create and update branch of `dispatch()`, on the loaded quote: the
   * 400 for another customer's stored address writes nothing; otherwise the
   * billing address takes `UpdatedV1`'s fields, the quote is saved and the
   * address is rendered.
   */
  method WriteV1(state: ResourceState, acl: (string, string) -> Filter, cx: AddressContext, book: AddressBook,
                 session: Quote, body: Record, collect: map<string, Value> -> map<string, Value>)
    returns (o: Outcome<Reply>)
    requires session.Valid()
    requires state.quote == session
    modifies state, session, session.billing, session.shipping
    ensures session.billing == old(session.billing) && session.shipping == old(session.shipping)
    ensures var w := UpdatedV1(book, acl(ENTITY, UPDATE), Field(old(session.data), "customer_id"), old(session.billing.data), body);
      && (o.Fault? <==> w.Fault?)
      && (w.Fault? ==> o == Fault(BAD_REQUEST, INVALID_ADDRESS) && session.data == old(session.data)
                       && session.billing.data == old(session.billing.data) && session.shipping.data == old(session.shipping.data))
      && (w.Done? ==> (session.data, session.billing.data) == SavedQuote(true, old(session.totalsCollectedFlag), collect, old(session.data), w.value)
                      && session.totalsCollectedFlag
                      && session.shipping.data == old(session.shipping.data)["collect_shipping_rates" := Bool(true)]
                      && o == Done(Reply(OK, Single(ProjectionV1(cx, acl(ENTITY, RETRIEVE), session.billing.data)))))
  {
    ghost var before := session.billing.data;
    var data := MapAttributes([], In(body, acl(ENTITY, UPDATE)));
    if HasKey(data, "customer_address_id") {
      StoredRules(book, Get(data, "id"), session.Get("customer_id"), before);
    }
    var updated := UpdateResourceV1(state, acl, book, session, body);
    if updated.Fault? {
      return Fault(updated.code, updated.message);
    }
    var _ := SaveQuote(state, session, collect);
    var r := PrepareResourceV1(state, acl, cx, session.billing);
    o := Done(Reply(OK, Single(r)));
  }

  /**
   * `dispatch()`: retrieve renders the billing address; create and update
   * write it, save the quote and render it; delete deletes it and answers
   * 200 with no body; anything else is 405.
   */
  method DispatchV1(state: ResourceState, acl: (string, string) -> Filter, cx: AddressContext, book: AddressBook,
                    session: Quote, body: Record, collect: map<string, Value> -> map<string, Value>)
    returns (o: Outcome<Reply>)
    requires session.Valid()
    requires state.quote == null || state.quote == session
    modifies state, session, session.billing, session.shipping
    ensures session.billing == old(session.billing) && session.shipping == old(session.shipping)
    ensures var op := old(state.actionType) + old(state.operation);
            var loaded := AfterLoad(old(state.quote) != null, old(session.data), old(session.billing.data));
      && (op != ENTITY + CREATE && op != ENTITY + UPDATE ==>
            session.data == loaded.0 && session.billing.data == loaded.1 && session.shipping.data == old(session.shipping.data))
      && (op == ENTITY + RETRIEVE ==> o == Done(Reply(OK, Single(ProjectionV1(cx, acl(ENTITY, RETRIEVE), loaded.1)))))
      && (op == ENTITY + CREATE || op == ENTITY + UPDATE ==>
            var w := UpdatedV1(book, acl(ENTITY, UPDATE), Field(loaded.0, "customer_id"), loaded.1, body);
            && (o.Fault? <==> w.Fault?)
            && (w.Fault? ==> o == Fault(BAD_REQUEST, INVALID_ADDRESS) && session.data == loaded.0 && session.billing.data == loaded.1
                             && session.shipping.data == old(session.shipping.data))
            && (w.Done? ==> (session.data, session.billing.data) == SavedQuote(true, old(session.totalsCollectedFlag), collect, loaded.0, w.value)
                            && session.totalsCollectedFlag
                            && session.shipping.data == old(session.shipping.data)["collect_shipping_rates" := Bool(true)]
                            && o == Done(Reply(OK, Single(ProjectionV1(cx, acl(ENTITY, RETRIEVE), session.billing.data))))))
      && (op == ENTITY + DELETE ==> o == Done(Reply(OK, NoBody)) && session.billing.deleted)
      && (op !in BillingAddress.ADDRESS_OPS ==> o == NotAllowed())
  {
    var quote := LoadQuote(state, session, false);
    ghost var loaded := AfterLoad(old(state.quote) != null, old(session.data), old(session.billing.data));
    assert session.data == loaded.0 && session.billing.data == loaded.1;
    var op := state.actionType + state.operation;
    OpsDistinct();
    if op == ENTITY + RETRIEVE {
      var r := PrepareResourceV1(state, acl, cx, session.billing);
      o := Done(Reply(OK, Single(r)));
    } else if op == ENTITY + CREATE || op == ENTITY + UPDATE {
      o := WriteV1(state, acl, cx, book, session, body, collect);
    } else if op == ENTITY + DELETE {
      session.billing.Delete();
      o := Done(Reply(OK, NoBody));
    } else {
      o := NotAllowed();
    }
  }
}
