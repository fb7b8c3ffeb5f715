/**
 * Model/BillingAddress.php: the quote's billing address. It is read with
 * its formatted forms and cleaned validation errors, written either from a
 * stored customer address or field by field (with the region resolved),
 * copied onto a shipping address marked same-as-billing, and validated.
 */
module BillingAddress {
  import opened Wrappers
  import opened Values
  import opened Casts
  import opened Codec
  import opened KeySort
  import opened Projection
  import opened Typing
  import opened Pipeline
  import opened Objects
  import opened QuoteSync
  import opened Resource
  import opened Region
  import opened QuoteValidation
  import opened Address

  /** `$attributeTypeMap`. */
  const BILLING_TYPES: TypeMap := [("save_in_address_book", TBool), ("customer_address_id", TInt)]

  /** `$manualAttributes`. */
  const BILLING_MANUAL: set<string> := {"validation_errors"}

  /** The manual attributes `prepareResource` sets, in source order, on the data `d` read so far. */
  function Manual(cx: AddressContext, included: seq<string>, fields: map<string, Value>, d: Record): Record {
    var d1 := PutIf(d, "formatted_html" in included, "formatted_html", cx.format(fields, "html"));
    var d2 := PutIf(d1, "formatted_text" in included, "formatted_text", cx.format(fields, "text"));
    PutIf(d2, "validation_errors" in included, "validation_errors", CleanErrors(cx.loc, Field(fields, "validation_errors")))
  }

  /** The data `prepareResource` builds before the event and the filter. */
  function Raw(cx: AddressContext, included: seq<string>, fields: map<string, Value>): Record {
    Manual(cx, included, fields, LoadedAttributes(fields, included, BILLING_MANUAL, [], []))
  }

  /** An independent statement of `Raw`, code by code: the value an included code ends up with. */
  function RawValue(cx: AddressContext, fields: map<string, Value>, k: string): Value {
    if k == "formatted_html" then cx.format(fields, "html")
    else if k == "formatted_text" then cx.format(fields, "text")
    else if k == "validation_errors" then CleanErrors(cx.loc, Field(fields, "validation_errors"))
    else Field(fields, k)
  }

  /**
   * The built data holds exactly the included codes: the formatted forms
   * (which replace any stored field of that name), the cleaned errors, and
   * every other code read from the address.
   */
  lemma RawLookup(cx: AddressContext, included: seq<string>, fields: map<string, Value>, k: string)
    ensures Lookup(Raw(cx, included, fields), k) == if k in included then Some(RawValue(cx, fields, k)) else None
    ensures DistinctKeys(Raw(cx, included, fields))
  {
    RawDistinct(cx, included, fields);
    var d := LoadedAttributes(fields, included, BILLING_MANUAL, [], []);
    LoadedAttributesContents(fields, included, BILLING_MANUAL, [], [], k);
    ManualSteps(cx, included, fields, d, k);
    RawOrder(Lookup(Raw(cx, included, fields), k), Lookup(d, k), cx, included, fields, k);
  }

  /** The manual step, as the last assignment to each key. */
  lemma ManualSteps(cx: AddressContext, included: seq<string>, fields: map<string, Value>, d: Record, k: string)
    ensures Lookup(Manual(cx, included, fields, d), k) ==
            if "validation_errors" in included && k == "validation_errors" then Some(CleanErrors(cx.loc, Field(fields, "validation_errors")))
            else if "formatted_text" in included && k == "formatted_text" then Some(cx.format(fields, "text"))
            else if "formatted_html" in included && k == "formatted_html" then Some(cx.format(fields, "html"))
            else Lookup(d, k)
  {
  }

  /** Reading the attributes and then the manual step gives each included code its `RawValue`. */
  lemma RawOrder(m: Option<Value>, dk: Option<Value>, cx: AddressContext, included: seq<string>, fields: map<string, Value>, k: string)
    requires dk == if k in included && k !in BILLING_MANUAL then Some(if Rename([], k) in fields then fields[Rename([], k)] else Null) else None
    requires m ==
             if "validation_errors" in included && k == "validation_errors" then Some(CleanErrors(cx.loc, Field(fields, "validation_errors")))
             else if "formatted_text" in included && k == "formatted_text" then Some(cx.format(fields, "text"))
             else if "formatted_html" in included && k == "formatted_html" then Some(cx.format(fields, "html"))
             else dk
    ensures m == if k in included then Some(RawValue(cx, fields, k)) else None
  {
    assert Rename([], k) == k;
    assert |"formatted_html"| == |"formatted_text"| == 14 && "formatted_html"[10] != "formatted_text"[10];
    assert |"validation_errors"| == 17;
  }

  /** The built data has no code twice. */
  lemma RawDistinct(cx: AddressContext, included: seq<string>, fields: map<string, Value>)
    ensures DistinctKeys(Raw(cx, included, fields))
  {
    ReadIntoDistinct([], Plan(Without(included, BILLING_MANUAL), []), fields);
  }

  /** `prepareResource($address)` for an address with fields `fields`. */
  function BillingProjection(cx: AddressContext, f: Filter, fields: map<string, Value>): Record {
    Projected(cx.loc, cx.currencyCode, Raw(cx, f.included, fields), f.readable, BILLING_TYPES, f.included)
  }

  lemma BillingTypesDistinct()
    ensures DistinctKeys(BILLING_TYPES)
    ensures Lookup(BILLING_TYPES, "validation_errors") == None
  {
    assert |"save_in_address_book"| == 20 && |"customer_address_id"| == 19 && |"validation_errors"| == 17;
  }

  /**
   * A billing address projection is sorted by key and holds exactly the
   * included codes: each readable one with its built value, typed
   * (save_in_address_book as a bool, customer_address_id as an int), every
   * other one null.
   */
  lemma BillingProjectionShape(cx: AddressContext, f: Filter, fields: map<string, Value>)
    ensures var r := BillingProjection(cx, f, fields);
      && SortedKeys(r)
      && forall k :: Lookup(r, k) ==
           if k in f.included then Some(if k in f.readable then Typed(cx.loc, cx.currencyCode, BILLING_TYPES, k, RawValue(cx, fields, k)) else Null)
           else None
  {
    var raw := Raw(cx, f.included, fields);
    RawLookup(cx, f.included, fields, "");
    BillingTypesDistinct();
    ProjectedShape(cx.loc, cx.currencyCode, raw, f.readable, BILLING_TYPES, f.included);
    forall k ensures Lookup(raw, k) == if k in f.included then Some(RawValue(cx, fields, k)) else None {
      RawLookup(cx, f.included, fields, k);
    }
  }

  /**
   * The validation errors are rendered as stored errors cleaned: only
   * trimmed messages that are neither "" nor "0" remain.
   */
  lemma BillingProjectionErrors(cx: AddressContext, f: Filter, fields: map<string, Value>)
    requires "validation_errors" in f.included && "validation_errors" in f.readable
    ensures Lookup(BillingProjection(cx, f, fields), "validation_errors") == Some(CleanErrors(cx.loc, Field(fields, "validation_errors")))
    ensures var e := ArrayCast(CleanErrors(cx.loc, Field(fields, "validation_errors")));
            forall i :: 0 <= i < |e| ==> CleanMessage(e[i].1)
  {
    BillingProjectionShape(cx, f, fields);
    BillingTypesDistinct();
    CleanErrorsClean(cx.loc, Field(fields, "validation_errors"));
  }

  /** `prepareResource($address)`: the state is switched to entity retrieve for the filter and restored. */
  method PrepareResource(state: ResourceState, acl: (string, string) -> Filter, cx: AddressContext, address: DataObject)
    returns (r: Record)
    modifies state
    ensures state.actionType == old(state.actionType) && state.operation == old(state.operation) && state.quote == old(state.quote)
    ensures r == BillingProjection(cx, acl(ENTITY, RETRIEVE), address.data)
  {
    var actionType := state.actionType;
    var operation := state.operation;
    state.actionType := ENTITY;
    state.operation := RETRIEVE;
    var f := acl(ENTITY, RETRIEVE);
    var data := LoadResourceAttributes(address, f.included, BILLING_MANUAL, [], []);
    data := Manual(cx, f.included, address.data, data);
    data := Out(data, f.readable);
    data := FixTypes(cx.loc, cx.currencyCode, data, [], BILLING_TYPES);
    r := Finish(data, f.included);
    state.actionType := actionType;
    state.operation := operation;
  }

  /** `array_key_exists('customer_address_id', $data) && $data['customer_address_id']`. */
  predicate StoredSelected(data: Record) {
    HasKey(data, "customer_address_id") && Truthy(Get(data, "customer_address_id"))
  }

  /** The write plan of the field-by-field branch: the writable codes and region_id, without the manual ones. */
  function WritePlan(f: Filter): Assoc<string> {
    Plan(Without(f.writable + ["region_id"], BILLING_MANUAL), [])
  }

  /** The incoming data after `fixAddressData`, given the address's current country and region. */
  function FixedInput(regions: Regions, f: Filter, fields: map<string, Value>, body: Record): Record {
    FixAddressData(regions, In(body, f), Field(fields, "country_id"), Field(fields, "region_id"))
  }

  /**
   * The billing address after the write step of `updateResource`: from
   * the stored customer address the body selects, or field by field from
   * the body with its region resolved.
   */
  function Updated(regions: Regions, book: AddressBook, f: Filter, customerId: Value, fields: map<string, Value>, body: Record)
    : Outcome<map<string, Value>>
  {
    var data := In(body, f);
    if StoredSelected(data) then StoredOutcome(book, Get(data, "customer_address_id"), customerId, fields)
    else Done(Written(fields, WritePlan(f), FixedInput(regions, f, fields, body)))
  }

  /** `if (!empty($addressErrors)) $resource->setData('validation_errors', $addressErrors)`. */
  function WithErrors(errors: seq<string>, fields: map<string, Value>): map<string, Value> {
    if |errors| > 0 then fields["validation_errors" := ErrorList(errors)] else fields
  }

  /**
   * `updateResource($address, $data)` on the quote's billing address. A
   * stored address of another customer is the 400, which leaves the state
   * at entity update as the exception does. Otherwise the shipping address
   * copies the billing address when it is marked same-as-billing, the
   * billing address's validation errors are set when there are any, and
   * the state is restored.
   */
  method UpdateResource(state: ResourceState, acl: (string, string) -> Filter, regions: Regions, book: AddressBook, checks: Checks,
                        quote: Quote, body: Record)
    returns (o: Outcome<()>)
    requires quote.Valid()
    modifies state, quote.billing, quote.shipping
    ensures var w := Updated(regions, book, acl(ENTITY, UPDATE), quote.Get("customer_id"), old(quote.billing.data), body);
      && (w.Fault? ==> o == Fault(w.code, w.message) && quote.billing.data == old(quote.billing.data)
                       && quote.shipping.data == old(quote.shipping.data)
                       && state.actionType == ENTITY && state.operation == UPDATE)
      && (w.Done? ==> o == Done(()) && quote.billing.data == WithErrors(AddressErrors(checks, w.value), w.value)
                      && quote.shipping.data == ShippingForValidation(checks, false, old(quote.shipping.data), w.value)
                      && state.actionType == old(state.actionType) && state.operation == old(state.operation))
    ensures state.quote == old(state.quote)
    ensures quote.billing.deleted == old(quote.billing.deleted) && quote.shipping.deleted == old(quote.shipping.deleted)
  {
    var actionType := state.actionType;
    var operation := state.operation;
    state.actionType := ENTITY;
    state.operation := UPDATE;
    var f := acl(ENTITY, UPDATE);
    var data := In(body, f);
    var billing := quote.billing;
    var shipping := quote.shipping;
    if StoredSelected(data) {
      var stored := ImportStored(billing, book, Get(data, "customer_address_id"), quote.Get("customer_id"));
      if stored.Fault? {
        return Fault(stored.code, stored.message);
      }
    } else {
      data := FixAddressData(regions, data, billing.Get("country_id"), billing.Get("region_id"));
      SaveResourceAttributes(billing, f.writable + ["region_id"], BILLING_MANUAL, [], data);
    }
    if Truthy(shipping.Get("same_as_billing")) {
      shipping.data := checks.importAddress(shipping.data, billing.data);
      shipping.Set("same_as_billing", Int(1));
    }
    var errors := AddressErrors(checks, billing.data);
    if |errors| > 0 {
      billing.Set("validation_errors", ErrorList(errors));
    }
    state.actionType := actionType;
    state.operation := operation;
    o := Done(());
  }

  /**
   * An update fails only on a selected stored address of another
   * customer. A selected stored address that does not exist writes
   * nothing at all: the other fields of the body are ignored. A falsy
   * customer_address_id (0, "", null) selects the field-by-field write.
   */
  lemma UpdatedCases(regions: Regions, book: AddressBook, f: Filter, customerId: Value, fields: map<string, Value>, body: Record)
    ensures var w := Updated(regions, book, f, customerId, fields, body);
            var data := In(body, f);
            var stored := book.load(Get(data, "customer_address_id"));
      && (w.Fault? <==> StoredSelected(data) && Exists(stored) && OtherCustomer(stored, customerId))
      && (w.Fault? ==> w.code == BAD_REQUEST && w.message == INVALID_ADDRESS)
      && (StoredSelected(data) && !Exists(stored) ==> w == Done(fields))
      && (!StoredSelected(data) ==> w == Done(Written(fields, WritePlan(f), FixedInput(regions, f, fields, body))))
  {
    if StoredSelected(In(body, f)) {
      StoredRules(book, Get(In(body, f), "customer_address_id"), customerId, fields);
    }
  }

  /**
   * The field-by-field write, for a body with distinct keys: a field
   * outside region, region_id and country_id takes the body's value iff
   * the filter lets it be written, and validation_errors never does;
   * every other field keeps its value.
   */
  lemma PlainWriteFields(regions: Regions, f: Filter, fields: map<string, Value>, body: Record, k: string)
    requires DistinctKeys(body)
    requires k !in REGION_KEYS && k != "validation_errors"
    ensures var w := Written(fields, WritePlan(f), FixedInput(regions, f, fields, body));
            var written := k in f.writable && HasKey(body, k);
      && (k in w <==> k in fields || written)
      && (written ==> w[k] == Get(body, k))
      && (!written && k in fields ==> w[k] == fields[k])
  {
    var data := In(body, f);
    RestrictDistinct(body, set c | c in f.writable);
    FixAddressDataEffect(regions, data, Field(fields, "country_id"), Field(fields, "region_id"));
    var fixed := FixedInput(regions, f, fields, body);
    WrittenPlain(fields, f.writable + ["region_id"], BILLING_MANUAL, fixed, k);
  }

  /** validation_errors is a manual attribute: no write ever changes it. */
  lemma PlainWriteKeepsErrors(regions: Regions, f: Filter, fields: map<string, Value>, body: Record)
    requires DistinctKeys(body)
    ensures Field(Written(fields, WritePlan(f), FixedInput(regions, f, fields, body)), "validation_errors") == Field(fields, "validation_errors")
  {
    var data := In(body, f);
    RestrictDistinct(body, set c | c in f.writable);
    FixAddressDataEffect(regions, data, Field(fields, "country_id"), Field(fields, "region_id"));
    WrittenPlain(fields, f.writable + ["region_id"], BILLING_MANUAL, FixedInput(regions, f, fields, body), "validation_errors");
  }

  /**
   * region_id is written even when the filter does not allow it: once the
   * body names a region or a country, the address's region_id is the
   * resolved region's id, or null when the region does not resolve.
   */
  lemma PlainWriteRegionId(regions: Regions, f: Filter, fields: map<string, Value>, body: Record)
    requires DistinctKeys(body)
    requires HasKey(In(body, f), "region") || HasKey(In(body, f), "country_id")
    ensures var data := In(body, f);
            var region := RegionInput(data, Field(fields, "region_id"));
            var country := CountryInput(data, Field(fields, "country_id"));
            var w := Written(fields, WritePlan(f), FixedInput(regions, f, fields, body));
      && "region_id" in w
      && w["region_id"] == if Resolves(regions, region, country) then ResolvedRow(regions, region, country).id else Null
  {
    var data := In(body, f);
    RestrictDistinct(body, set c | c in f.writable);
    FixAddressDataEffect(regions, data, Field(fields, "country_id"), Field(fields, "region_id"));
    var fixed := FixedInput(regions, f, fields, body);
    assert "region_id" in f.writable + ["region_id"];
    assert |"validation_errors"| != |"region_id"|;
    WrittenPlain(fields, f.writable + ["region_id"], BILLING_MANUAL, fixed, "region_id");
  }

  /**
   * Validation errors are only ever added: with no errors the address is
   * kept as written, so errors set by an earlier update survive; errors
   * that are already clean messages are rendered back as they were set.
   */
  lemma WithErrorsEffect(loc: Locale, errors: seq<string>, fields: map<string, Value>)
    ensures |errors| == 0 ==> WithErrors(errors, fields) == fields
    ensures |errors| > 0 ==> Field(WithErrors(errors, fields), "validation_errors") == ErrorList(errors)
    ensures forall k :: k != "validation_errors" ==> Field(WithErrors(errors, fields), k) == Field(fields, k)
    ensures (forall i :: 0 <= i < |errors| ==> CleanMessage(Str(errors[i]))) ==> CleanErrors(loc, ErrorList(errors)) == ErrorList(errors)
  {
    if forall i :: 0 <= i < |errors| ==> CleanMessage(Str(errors[i])) {
      ErrorListRendered(loc, errors);
    }
  }

  /**
   * The create and update branch of `dispatch()`, on the loaded quote: a
   * stored address of another customer is refused with 400 and nothing is
   * written; otherwise the billing address takes `Updated`'s fields and any
   * validation errors, the quote is saved and the address is rendered.
   */
  method Write(state: ResourceState, acl: (string, string) -> Filter, cx: AddressContext, regions: Regions, book: AddressBook,
               checks: Checks, session: Quote, body: Record, collect: map<string, Value> -> map<string, Value>)
    returns (o: Outcome<Reply>)
    requires session.Valid()
    requires state.quote == session
    modifies state, session, session.billing, session.shipping
    ensures session.billing == old(session.billing) && session.shipping == old(session.shipping)
    ensures var w := Updated(regions, book, acl(ENTITY, UPDATE), Field(old(session.data), "customer_id"), old(session.billing.data), body);
      && (o.Fault? <==> w.Fault?)
      && (w.Fault? ==> o == Fault(BAD_REQUEST, INVALID_ADDRESS)
                       && session.data == old(session.data) && session.billing.data == old(session.billing.data)
                       && session.shipping.data == old(session.shipping.data))
      && (w.Done? ==> (session.data, session.billing.data)
                         == SavedQuote(true, old(session.totalsCollectedFlag), collect, old(session.data), WithErrors(AddressErrors(checks, w.value), w.value))
                      && session.totalsCollectedFlag
                      && session.shipping.data
                         == ShippingForValidation(checks, false, old(session.shipping.data), w.value)["collect_shipping_rates" := Bool(true)]
                      && o == Done(Reply(OK, Single(BillingProjection(cx, acl(ENTITY, RETRIEVE), session.billing.data)))))
  {
    ghost var before := session.billing.data;
    UpdatedCases(regions, book, acl(ENTITY, UPDATE), session.Get("customer_id"), before, body);
    var updated := UpdateResource(state, acl, regions, book, checks, session, body);
    if updated.Fault? {
      return Fault(updated.code, updated.message);
    }
    var _ := SaveQuote(state, session, collect);
    var r := PrepareResource(state, acl, cx, session.billing);
    o := Done(Reply(OK, Single(r)));
  }

  /** The operations `dispatch()` handles. */
  const ADDRESS_OPS: set<string> := {ENTITY + RETRIEVE, ENTITY + CREATE, ENTITY + UPDATE, ENTITY + DELETE}

  /**
   * `dispatch()`: retrieve renders the billing address; create and update
   * write it, save the quote and render it; delete deletes it with 204;
   * anything else is 405.
   */
  method Dispatch(state: ResourceState, acl: (string, string) -> Filter, cx: AddressContext, regions: Regions, book: AddressBook,
                  checks: Checks, session: Quote, body: Record, collect: map<string, Value> -> map<string, Value>)
    returns (o: Outcome<Reply>)
    requires session.Valid()
    requires state.quote == null || state.quote == session
    modifies state, session, session.billing, session.shipping
    ensures session.billing == old(session.billing) && session.shipping == old(session.shipping)
    ensures var op := old(state.actionType) + old(state.operation);
            var loaded := AfterLoad(old(state.quote) != null, old(session.data), old(session.billing.data));
      && (op != ENTITY + CREATE && op != ENTITY + UPDATE ==>
            session.data == loaded.0 && session.billing.data == loaded.1 && session.shipping.data == old(session.shipping.data))
      && (op == ENTITY + RETRIEVE ==> o == Done(Reply(OK, Single(BillingProjection(cx, acl(ENTITY, RETRIEVE), loaded.1)))))
      && (op == ENTITY + CREATE || op == ENTITY + UPDATE ==>
            var w := Updated(regions, book, acl(ENTITY, UPDATE), Field(loaded.0, "customer_id"), loaded.1, body);
            && (o.Fault? <==> w.Fault?)
            && (w.Fault? ==> o == Fault(BAD_REQUEST, INVALID_ADDRESS) && session.data == loaded.0 && session.billing.data == loaded.1
                             && session.shipping.data == old(session.shipping.data))
            && (w.Done? ==> (session.data, session.billing.data)
                               == SavedQuote(true, old(session.totalsCollectedFlag), collect, loaded.0, WithErrors(AddressErrors(checks, w.value), w.value))
                            && session.totalsCollectedFlag
                            && session.shipping.data
                               == ShippingForValidation(checks, false, old(session.shipping.data), w.value)["collect_shipping_rates" := Bool(true)]
                            && o == Done(Reply(OK, Single(BillingProjection(cx, acl(ENTITY, RETRIEVE), session.billing.data))))))
      && (op == ENTITY + DELETE ==> o == Done(Reply(NO_CONTENT, NoBody)) && session.billing.deleted)
      && (op !in ADDRESS_OPS ==> o == NotAllowed())
  {
    var quote := LoadQuote(state, session, false);
    ghost var loaded := AfterLoad(old(state.quote) != null, old(session.data), old(session.billing.data));
    assert session.data == loaded.0 && session.billing.data == loaded.1;
    var op := state.actionType + state.operation;
    OpsDistinct();
    if op == ENTITY + RETRIEVE {
      var r := PrepareResource(state, acl, cx, session.billing);
      o := Done(Reply(OK, Single(r)));
    } else if op == ENTITY + CREATE || op == ENTITY + UPDATE {
      o := Write(state, acl, cx, regions, book, checks, session, body, collect);
    } else if op == ENTITY + DELETE {
      session.billing.Delete();
      o := Done(Reply(NO_CONTENT, NoBody));
    } else {
      o := NotAllowed();
    }
  }
}
