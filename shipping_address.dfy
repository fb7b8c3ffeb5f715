/**
 * Model/ShippingAddress.php: the quote's shipping address. It is read with
 * its cleaned validation errors and the shipping method as 'method',
 * written from a stored customer address, copied from the billing address,
 * or field by field (with the region resolved and same_as_billing
 * cleared), and validated with the customer address form. Deleting it
 * keeps the chosen shipping method.
 */
module ShippingAddress {
  import opened Wrappers
  import opened Values
  import opened Casts
  import opened Codec
  import opened KeySort
  import opened Projection
  import opened Typing
  import opened Pipeline
  import opened Objects
  import opened QuoteSync
  import opened Resource
  import opened Region
  import opened QuoteValidation
  import opened Address

  /** `$attributeMap`. */
  const SHIP_MAP: AttrMap := [("method", "shipping_method")]

  /** `$attributeTypeMap`. */
  const SHIP_TYPES: TypeMap := [("customer_address_id", TInt), ("same_as_billing", TBool), ("save_in_address_book", TBool)]

  /** `$manualAttributes`. */
  const SHIP_MANUAL: set<string> := {"validation_errors"}

  /** Only 'method' is renamed, to shipping_method. */
  lemma ShipRename(k: string)
    ensures Rename(SHIP_MAP, k) == if k == "method" then "shipping_method" else k
  {
    assert SHIP_MAP[1..] == [];
  }

  /** The data `prepareResource` builds before the event and the filter. */
  function Raw(loc: Locale, included: seq<string>, fields: map<string, Value>): Record {
    var d := LoadedAttributes(fields, included, SHIP_MANUAL, SHIP_MAP, []);
    PutIf(d, "validation_errors" in included, "validation_errors", CleanErrors(loc, Field(fields, "validation_errors")))
  }

  /** An independent statement of `Raw`, code by code: the value an included code ends up with. */
  function RawValue(loc: Locale, fields: map<string, Value>, k: string): Value {
    if k == "validation_errors" then CleanErrors(loc, Field(fields, "validation_errors"))
    else if k == "method" then Field(fields, "shipping_method")
    else Field(fields, k)
  }

  /** The built data holds exactly the included codes, 'method' read from shipping_method. */
  lemma RawLookup(loc: Locale, included: seq<string>, fields: map<string, Value>, k: string)
    ensures Lookup(Raw(loc, included, fields), k) == if k in included then Some(RawValue(loc, fields, k)) else None
    ensures DistinctKeys(Raw(loc, included, fields))
  {
    LoadedAttributesContents(fields, included, SHIP_MANUAL, SHIP_MAP, [], k);
    ReadIntoDistinct([], Plan(Without(included, SHIP_MANUAL), SHIP_MAP), fields);
    ShipRename(k);
  }

  /** `prepareResource($address)` for an address with fields `fields`. */
  function ShippingProjection(cx: AddressContext, f: Filter, fields: map<string, Value>): Record {
    Projected(cx.loc, cx.currencyCode, Raw(cx.loc, f.included, fields), f.readable, SHIP_TYPES, f.included)
  }

  lemma ShipTypesDistinct()
    ensures DistinctKeys(SHIP_TYPES)
    ensures Lookup(SHIP_TYPES, "validation_errors") == None && Lookup(SHIP_TYPES, "method") == None
  {
    assert |"customer_address_id"| == 19 && |"same_as_billing"| == 15 && |"save_in_address_book"| == 20;
    assert |"validation_errors"| == 17 && |"method"| == 6;
  }

  /**
   * A shipping address projection is sorted by key and holds exactly the
   * included codes: each readable one with its built value, typed
   * (customer_address_id as an int, same_as_billing and
   * save_in_address_book as bools), every other one null. 'method' is the
   * address's shipping_method and the validation errors are cleaned.
   */
  lemma ShippingProjectionShape(cx: AddressContext, f: Filter, fields: map<string, Value>)
    ensures var r := ShippingProjection(cx, f, fields);
      && SortedKeys(r)
      && (forall k :: Lookup(r, k) ==
            if k in f.included then Some(if k in f.readable then Typed(cx.loc, cx.currencyCode, SHIP_TYPES, k, RawValue(cx.loc, fields, k)) else Null)
            else None)
      && ("method" in f.included && "method" in f.readable ==> Lookup(r, "method") == Some(Field(fields, "shipping_method")))
      && ("validation_errors" in f.included && "validation_errors" in f.readable ==>
            Lookup(r, "validation_errors") == Some(CleanErrors(cx.loc, Field(fields, "validation_errors"))))
  {
    var raw := Raw(cx.loc, f.included, fields);
    RawLookup(cx.loc, f.included, fields, "");
    ShipTypesDistinct();
    ProjectedShape(cx.loc, cx.currencyCode, raw, f.readable, SHIP_TYPES, f.included);
    forall k ensures Lookup(raw, k) == if k in f.included then Some(RawValue(cx.loc, fields, k)) else None {
      RawLookup(cx.loc, f.included, fields, k);
    }
  }

  /** `prepareResource($address)`: the state is switched to entity retrieve for the filter and restored. */
  method PrepareResource(state: ResourceState, acl: (string, string) -> Filter, cx: AddressContext, address: DataObject)
    returns (r: Record)
    modifies state
    ensures state.actionType == old(state.actionType) && state.operation == old(state.operation) && state.quote == old(state.quote)
    ensures r == ShippingProjection(cx, acl(ENTITY, RETRIEVE), address.data)
  {
    var actionType := state.actionType;
    var operation := state.operation;
    state.actionType := ENTITY;
    state.operation := RETRIEVE;
    var f := acl(ENTITY, RETRIEVE);
    var data := LoadResourceAttributes(address, f.included, SHIP_MANUAL, SHIP_MAP, []);
    if "validation_errors" in f.included {
      data := Put(data, "validation_errors", CleanErrors(cx.loc, address.Get("validation_errors")));
    }
    data := Out(data, f.readable);
    data := FixTypes(cx.loc, cx.currencyCode, data, [], SHIP_TYPES);
    r := Finish(data, f.included);
    state.actionType := actionType;
    state.operation := operation;
  }

  /** `array_key_exists('same_as_billing', $data) && $data['same_as_billing']`. */
  predicate CopySelected(data: Record) {
    HasKey(data, "same_as_billing") && Truthy(Get(data, "same_as_billing"))
  }

  /** The write plan of the field-by-field branch: the writable codes, without the manual ones, through the attribute map. */
  function WritePlan(f: Filter): Assoc<string> {
    Plan(Without(f.writable, SHIP_MANUAL), SHIP_MAP)
  }

  /** The incoming data with same_as_billing cleared and the region resolved against the address's current country and region. */
  function FixedInput(regions: Regions, f: Filter, fields: map<string, Value>, body: Record): Record {
    FixAddressData(regions, Put(In(body, f), "same_as_billing", Int(0)), Field(fields, "country_id"), Field(fields, "region_id"))
  }

  /**
   * The shipping address after the write step of `updateResource`. The
   * mere presence of customer_address_id selects the stored address, and
   * the address loaded is the one the body's 'id' names. Otherwise a
   * truthy same_as_billing copies the billing address; otherwise the body
   * is written field by field.
   */
  function Updated(regions: Regions, book: AddressBook, checks: Checks, f: Filter, customerId: Value,
                   billing: map<string, Value>, fields: map<string, Value>, body: Record)
    : Outcome<map<string, Value>>
  {
    var data := In(body, f);
    if HasKey(data, "customer_address_id") then StoredOutcome(book, Get(data, "id"), customerId, fields)
    else if CopySelected(data) then Done(CopiedFromBilling(checks, fields, billing))
    else Done(Written(fields, WritePlan(f), FixedInput(regions, f, fields, body)))
  }

  /** `if ($addressErrors !== true) $resource->setData('validation_errors', $addressErrors)`, with the form's verdict on the written data. */
  function WithFormErrors(checks: Checks, fields: map<string, Value>): map<string, Value> {
    match checks.formErrors(fields)
    case Some(errors) => fields["validation_errors" := ErrorList(errors)]
    case None => fields
  }

  /**
   * `updateResource($address, $data)` on the quote's shipping address. A
   * stored address of another customer is the 400, which leaves the state
   * at entity update as the exception does. Otherwise the form's errors
   * are set when it finds any and the state is restored.
   */
  method UpdateResource(state: ResourceState, acl: (string, string) -> Filter, regions: Regions, book: AddressBook, checks: Checks,
                        quote: Quote, body: Record)
    returns (o: Outcome<()>)
    requires quote.Valid()
    modifies state, quote.shipping
    ensures var w := Updated(regions, book, checks, acl(ENTITY, UPDATE), quote.Get("customer_id"), quote.billing.data,
                             old(quote.shipping.data), body);
      && (w.Fault? ==> o == Fault(w.code, w.message) && quote.shipping.data == old(quote.shipping.data)
                       && state.actionType == ENTITY && state.operation == UPDATE)
      && (w.Done? ==> o == Done(()) && quote.shipping.data == WithFormErrors(checks, w.value)
                      && state.actionType == old(state.actionType) && state.operation == old(state.operation))
    ensures state.quote == old(state.quote)
    ensures quote.shipping.deleted == old(quote.shipping.deleted)
  {
    var actionType := state.actionType;
    var operation := state.operation;
    state.actionType := ENTITY;
    state.operation := UPDATE;
    var f := acl(ENTITY, UPDATE);
    var data := In(body, f);
    var address := quote.shipping;
    if HasKey(data, "customer_address_id") {
      var stored := ImportStored(address, book, Get(data, "id"), quote.Get("customer_id"));
      if stored.Fault? {
        return Fault(stored.code, stored.message);
      }
    } else if CopySelected(data) {
      address.data := checks.importAddress(address.data, quote.billing.data);
      address.Set("same_as_billing", Int(1));
    } else {
      data := Put(data, "same_as_billing", Int(0));
      data := FixAddressData(regions, data, address.Get("country_id"), address.Get("region_id"));
      SaveResourceAttributes(address, f.writable, SHIP_MANUAL, SHIP_MAP, data);
    }
    match checks.formErrors(address.data) {
      case Some(errors) => address.Set("validation_errors", ErrorList(errors));
      case None =>
    }
    state.actionType := actionType;
    state.operation := operation;
    o := Done(());
  }

  /**
   * The three branches: a present customer_address_id, whatever its value,
   * loads the stored address named by 'id' and fails only when it belongs
   * to another customer; a truthy same_as_billing copies the billing
   * address and writes nothing from the body; else the body is written.
   */
  lemma UpdatedCases(regions: Regions, book: AddressBook, checks: Checks, f: Filter, customerId: Value,
                     billing: map<string, Value>, fields: map<string, Value>, body: Record)
    ensures var w := Updated(regions, book, checks, f, customerId, billing, fields, body);
            var data := In(body, f);
            var stored := book.load(Get(data, "id"));
      && (w.Fault? <==> HasKey(data, "customer_address_id") && Exists(stored) && OtherCustomer(stored, customerId))
      && (w.Fault? ==> w.code == BAD_REQUEST && w.message == INVALID_ADDRESS)
      && (HasKey(data, "customer_address_id") ==> w == StoredOutcome(book, Get(data, "id"), customerId, fields))
      && (!HasKey(data, "customer_address_id") && CopySelected(data) ==>
            w == Done(CopiedFromBilling(checks, fields, billing)) && Field(w.value, "same_as_billing") == Int(1))
  {
    if HasKey(In(body, f), "customer_address_id") {
      StoredRules(book, Get(In(body, f), "id"), customerId, fields);
    }
  }

  /**
   * The field-by-field write for one name other than the two names of the
   * shipping method: the name is written iff the filter allows it, it is
   * not manual and the prepared data has it, and then holds the prepared
   * value; otherwise the field keeps its value.
   */
  lemma PlainWriteOf(regions: Regions, f: Filter, fields: map<string, Value>, body: Record, k: string)
    requires DistinctKeys(body)
    requires k != "method" && k != "shipping_method"
    ensures var fixed := FixedInput(regions, f, fields, body);
            var w := Written(fields, WritePlan(f), fixed);
            var written := k in f.writable && k !in SHIP_MANUAL && HasKey(fixed, k);
      && (k in w <==> k in fields || written)
      && (written ==> w[k] == Lookup(fixed, k).value)
      && (!written && k in fields ==> w[k] == fields[k])
  {
    var fixed := FixedInput(regions, f, fields, body);
    FixedInputEffect(regions, f, fields, body);
    var plan := WritePlan(f);
    ShipRename(k);
    if k in f.writable && k !in SHIP_MANUAL && HasKey(fixed, k) {
      forall c | c != k && HasKey(fixed, c) && HasKey(plan, c) ensures Lookup(plan, c) != Lookup(plan, k) {
        ShipRename(c);
      }
      WrittenByKey(fields, plan, fixed, k);
    } else {
      forall c | HasKey(fixed, c) && HasKey(plan, c) ensures Lookup(plan, c).value != k {
        ShipRename(c);
      }
      WrittenUntouched(fields, plan, fixed, k);
    }
  }

  /**
   * The field-by-field write, for a body with distinct keys: a field other
   * than region, region_id, country_id, same_as_billing, validation_errors
   * and the two names of the shipping method takes the body's value iff
   * the filter lets it be written; every other field keeps its value.
   */
  lemma PlainWriteFields(regions: Regions, f: Filter, fields: map<string, Value>, body: Record, k: string)
    requires DistinctKeys(body)
    requires k !in REGION_KEYS && k !in {"validation_errors", "same_as_billing", "method", "shipping_method"}
    ensures var w := Written(fields, WritePlan(f), FixedInput(regions, f, fields, body));
            var written := k in f.writable && HasKey(body, k);
      && (k in w <==> k in fields || written)
      && (written ==> w[k] == Get(body, k))
      && (!written && k in fields ==> w[k] == fields[k])
  {
    FixedInputEffect(regions, f, fields, body);
    PlainWriteOf(regions, f, fields, body, k);
  }

  /** The incoming data after clearing and region resolution: distinct keys, and outside the region keys the filtered body with same_as_billing 0. */
  lemma FixedInputEffect(regions: Regions, f: Filter, fields: map<string, Value>, body: Record)
    requires DistinctKeys(body)
    ensures DistinctKeys(FixedInput(regions, f, fields, body))
    ensures forall k :: k !in REGION_KEYS ==>
              Lookup(FixedInput(regions, f, fields, body), k) ==
              if k == "same_as_billing" then Some(Int(0)) else if k in f.writable then Lookup(body, k) else None
  {
    var data := Put(In(body, f), "same_as_billing", Int(0));
    RestrictDistinct(body, set c | c in f.writable);
    PutShape(In(body, f), "same_as_billing", Int(0));
    FixAddressDataEffect(regions, data, Field(fields, "country_id"), Field(fields, "region_id"));
  }

  /** The names the field-by-field write treats specially are pairwise different. */
  lemma WriteNamesDistinct()
    ensures "same_as_billing" !in REGION_KEYS && "validation_errors" !in REGION_KEYS
    ensures "same_as_billing" !in {"method", "shipping_method", "validation_errors"}
    ensures "region_id" !in {"method", "shipping_method", "validation_errors"}
    ensures "validation_errors" != "method" && "validation_errors" != "shipping_method"
    ensures "method" !in REGION_KEYS && "shipping_method" !in REGION_KEYS && "method" !in SHIP_MANUAL
  {
    assert "method"[0] != "region"[0];
    assert |"same_as_billing"| == 15 && |"validation_errors"| == 17 && |"region_id"| == 9;
    assert |"region"| == 6 && |"country_id"| == 10 && |"method"| == 6 && |"shipping_method"| == 15;
    assert "same_as_billing"[0] != "shipping_method"[1];
  }

  /**
   * The field-by-field write clears the same-as-billing flag when the
   * filter lets it be written, and leaves it alone otherwise.
   */
  lemma PlainWriteClearsFlag(regions: Regions, f: Filter, fields: map<string, Value>, body: Record)
    requires DistinctKeys(body)
    ensures var w := Written(fields, WritePlan(f), FixedInput(regions, f, fields, body));
      && ("same_as_billing" in f.writable ==> "same_as_billing" in w && w["same_as_billing"] == Int(0))
      && ("same_as_billing" !in f.writable ==> Field(w, "same_as_billing") == Field(fields, "same_as_billing"))
  {
    WriteNamesDistinct();
    FixedInputEffect(regions, f, fields, body);
    PlainWriteOf(regions, f, fields, body, "same_as_billing");
  }

  /** The field-by-field write puts 'method' into shipping_method, unless the body also writes shipping_method itself. */
  lemma PlainWriteMethod(regions: Regions, f: Filter, fields: map<string, Value>, body: Record)
    requires DistinctKeys(body)
    requires "method" in f.writable && HasKey(body, "method")
    requires !("shipping_method" in f.writable && HasKey(body, "shipping_method"))
    ensures var w := Written(fields, WritePlan(f), FixedInput(regions, f, fields, body));
            "shipping_method" in w && w["shipping_method"] == Get(body, "method")
  {
    var fixed := FixedInput(regions, f, fields, body);
    FixedInputEffect(regions, f, fields, body);
    WriteNamesDistinct();
    var plan := WritePlan(f);
    ShipRename("method");
    assert Lookup(plan, "method") == Some("shipping_method");
    forall c | c != "method" && HasKey(fixed, c) && HasKey(plan, c) ensures Lookup(plan, c) != Lookup(plan, "method") {
      ShipRename(c);
    }
    assert Lookup(fixed, "method") == Lookup(body, "method");
    WrittenByKey(fields, plan, fixed, "method");
  }

  /**
   * Unlike the billing address, the shipping address writes the resolved
   * region_id only when the filter allows region_id, and never writes
   * validation_errors.
   */
  lemma PlainWriteKeeps(regions: Regions, f: Filter, fields: map<string, Value>, body: Record)
    requires DistinctKeys(body)
    ensures var w := Written(fields, WritePlan(f), FixedInput(regions, f, fields, body));
      && ("region_id" !in f.writable ==> Field(w, "region_id") == Field(fields, "region_id"))
      && Field(w, "validation_errors") == Field(fields, "validation_errors")
  {
    WriteNamesDistinct();
    PlainWriteOf(regions, f, fields, body, "region_id");
    PlainWriteOf(regions, f, fields, body, "validation_errors");
  }

  /** The form's verdict decides the errors: set to its list when it finds errors, else the address is kept. */
  lemma WithFormErrorsEffect(checks: Checks, fields: map<string, Value>)
    ensures checks.formErrors(fields).None? ==> WithFormErrors(checks, fields) == fields
    ensures checks.formErrors(fields).Some? ==>
              Field(WithFormErrors(checks, fields), "validation_errors") == ErrorList(checks.formErrors(fields).value)
    ensures forall k :: k != "validation_errors" ==> Field(WithFormErrors(checks, fields), k) == Field(fields, k)
  {
  }

  /**
   * The create and update branch of `dispatch()`: the shipping address is
   * written and the quote saved, then the address is rendered; a stored
   * address of another customer is refused with 400.
   */
  method Write(state: ResourceState, acl: (string, string) -> Filter, cx: AddressContext, regions: Regions, book: AddressBook,
               checks: Checks, session: Quote, body: Record, collect: map<string, Value> -> map<string, Value>)
    returns (o: Outcome<Reply>)
    requires session.Valid()
    requires state.quote == session
    modifies state, session, session.billing, session.shipping
    ensures session.Valid()
    ensures session.billing == old(session.billing) && session.shipping == old(session.shipping)
    ensures var w := Updated(regions, book, checks, acl(ENTITY, UPDATE), Field(old(session.data), "customer_id"),
                             old(session.billing.data), old(session.shipping.data), body);
      && (o.Fault? <==> w.Fault?)
      && (w.Fault? ==> o == Fault(BAD_REQUEST, INVALID_ADDRESS) && session.data == old(session.data)
                       && session.billing.data == old(session.billing.data) && session.shipping.data == old(session.shipping.data))
      && (w.Done? ==> (session.data, session.billing.data)
                         == SavedQuote(true, old(session.totalsCollectedFlag), collect, old(session.data), old(session.billing.data))
                      && session.totalsCollectedFlag
                      && session.shipping.data == WithFormErrors(checks, w.value)["collect_shipping_rates" := Bool(true)]
                      && o == Done(Reply(OK, Single(ShippingProjection(cx, acl(ENTITY, RETRIEVE), session.shipping.data)))))
  {
    ghost var before := session.shipping.data;
    UpdatedCases(regions, book, checks, acl(ENTITY, UPDATE), session.Get("customer_id"), session.billing.data, before, body);
    var updated := UpdateResource(state, acl, regions, book, checks, session, body);
    if updated.Fault? {
      return Fault(updated.code, updated.message);
    }
    var _ := SaveQuote(state, session, collect);
    var r := PrepareResource(state, acl, cx, session.shipping);
    o := Done(Reply(OK, Single(r)));
  }

  /** The operations `dispatch()` handles. */
  const ADDRESS_OPS: set<string> := {ENTITY + RETRIEVE, ENTITY + CREATE, ENTITY + UPDATE, ENTITY + DELETE}

  /**
   * `dispatch()`: retrieve renders the shipping address; create and update
   * write it, save the quote and render it; delete deletes it, keeping the
   * shipping method on a new shipping address, with no body and no status
   * set; anything else is 405.
   */
  method Dispatch(state: ResourceState, acl: (string, string) -> Filter, cx: AddressContext, regions: Regions, book: AddressBook,
                  checks: Checks, session: Quote, body: Record, collect: map<string, Value> -> map<string, Value>)
    returns (o: Outcome<Reply>)
    requires session.Valid()
    requires state.quote == null || state.quote == session
    modifies state, session, session.billing, session.shipping
    ensures session.Valid()
    ensures var op := old(state.actionType) + old(state.operation);
            var loaded := AfterLoad(old(state.quote) != null, old(session.data), old(session.billing.data));
      && (op != ENTITY + CREATE && op != ENTITY + UPDATE ==> session.data == loaded.0 && session.billing.data == loaded.1)
      && (op !in ADDRESS_OPS || op == ENTITY + RETRIEVE ==>
            session.shipping == old(session.shipping) && session.shipping.data == old(session.shipping.data))
      && (op == ENTITY + RETRIEVE ==> o == Done(Reply(OK, Single(ShippingProjection(cx, acl(ENTITY, RETRIEVE), old(session.shipping.data))))))
      && (op == ENTITY + CREATE || op == ENTITY + UPDATE ==>
            var w := Updated(regions, book, checks, acl(ENTITY, UPDATE), Field(loaded.0, "customer_id"), loaded.1,
                             old(session.shipping.data), body);
            && (o.Fault? <==> w.Fault?)
            && (w.Fault? ==> o == Fault(BAD_REQUEST, INVALID_ADDRESS) && session.data == loaded.0 && session.billing.data == loaded.1
                             && session.shipping.data == old(session.shipping.data))
            && (w.Done? ==> (session.data, session.billing.data)
                               == SavedQuote(true, old(session.totalsCollectedFlag), collect, loaded.0, loaded.1)
                            && session.totalsCollectedFlag
                            && session.shipping.data == WithFormErrors(checks, w.value)["collect_shipping_rates" := Bool(true)]
                            && o == Done(Reply(OK, Single(ShippingProjection(cx, acl(ENTITY, RETRIEVE), session.shipping.data))))))
      && (op == ENTITY + DELETE ==>
            && o == Done(Reply(OK, NoBody)) && old(session.shipping).deleted && old(session.shipping).data == old(session.shipping.data)
            && (!Truthy(old(session.shipping.Get("shipping_method"))) ==> session.shipping == old(session.shipping))
            && (Truthy(old(session.shipping.Get("shipping_method"))) ==>
                  && fresh(session.shipping) && !session.shipping.deleted
                  && session.shipping.data == map["address_type" := Str("shipping"), "shipping_method" := old(session.shipping.Get("shipping_method"))]))
      && (op !in ADDRESS_OPS ==> o == NotAllowed())
  {
    var quote := LoadQuote(state, session, false);
    ghost var loaded := AfterLoad(old(state.quote) != null, old(session.data), old(session.billing.data));
    assert session.data == loaded.0 && session.billing.data == loaded.1;
    var op := state.actionType + state.operation;
    OpsDistinct();
    if op == ENTITY + RETRIEVE {
      var r := PrepareResource(state, acl, cx, session.shipping);
      o := Done(Reply(OK, Single(r)));
    } else if op == ENTITY + CREATE || op == ENTITY + UPDATE {
      o := Write(state, acl, cx, regions, book, checks, session, body, collect);
    } else if op == ENTITY + DELETE {
      DeleteKeepingMethod(session);
      o := Done(Reply(OK, NoBody));
    } else {
      o := NotAllowed();
    }
  }
}
