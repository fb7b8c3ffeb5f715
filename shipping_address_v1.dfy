/**
 * Model/ShippingAddress/Rest/V1.php: the first version of the shipping
 * address resource. Five amounts and the method are exchanged under short
 * names (total for grand_total, …); every readable field is rendered; the
 * body selects a stored customer address, a copy of the billing address or
 * a field-by-field write; nothing is validated.
 */
module ShippingAddressV1 {
  import opened Wrappers
  import opened Values
  import opened Codec
  import opened KeySort
  import opened Projection
  import opened Typing
  import opened Pipeline
  import opened Objects
  import opened QuoteSync
  import opened Resource
  import opened QuoteValidation
  import opened Address
  import ShippingAddress

  /** `$attributeMap`. */
  const SHIP_MAP_V1: AttrMap := [("method", "shipping_method"), ("shipping", "shipping_amount"), ("discount", "discount_amount"),
                                 ("tax", "tax_amount"), ("total", "grand_total")]

  /** `$attributeTypeMap`. */
  const SHIP_TYPES_V1: TypeMap := [("subtotal", TCurrency), ("shipping", TCurrency), ("discount", TCurrency), ("tax", TCurrency),
                                   ("total", TCurrency)]

  /** The map is injective both ways and no internal code is also an external one. */
  lemma ShipMapV1Facts()
    ensures DistinctKeys(SHIP_MAP_V1) && ValuesDistinct(SHIP_MAP_V1) && Separate(SHIP_MAP_V1)
  {
    var m := SHIP_MAP_V1;
    assert |m[0].0| == 6 && |m[1].0| == 8 && |m[2].0| == 8 && |m[3].0| == 3 && |m[4].0| == 5;
    assert m[1].0[0] != m[2].0[0];
    assert |m[0].1| == 15 && |m[1].1| == 15 && |m[2].1| == 15 && |m[3].1| == 10 && |m[4].1| == 11;
    assert m[0].1[9] != m[1].1[9] && m[0].1[0] != m[2].1[0] && m[1].1[0] != m[2].1[0];
  }

  /** Each short name stands for its internal field; any other code is itself. */
  lemma ShipRenameV1(k: string)
    ensures Rename(SHIP_MAP_V1, k) ==
      if k == "method" then "shipping_method" else if k == "shipping" then "shipping_amount"
      else if k == "discount" then "discount_amount" else if k == "tax" then "tax_amount"
      else if k == "total" then "grand_total" else k
  {
    var m := SHIP_MAP_V1;
    var m1, m2, m3, m4 := m[1..], m[2..], m[3..], m[4..];
    assert m1[1..] == m2 && m2[1..] == m3 && m3[1..] == m4 && m4[1..] == [];
    assert Lookup(m4, k) == if k == "total" then Some("grand_total") else None;
    assert Lookup(m3, k) == if k == "tax" then Some("tax_amount") else Lookup(m4, k);
    assert Lookup(m2, k) == if k == "discount" then Some("discount_amount") else Lookup(m3, k);
    assert Lookup(m1, k) == if k == "shipping" then Some("shipping_amount") else Lookup(m2, k);
    assert Lookup(m, k) == if k == "method" then Some("shipping_method") else Lookup(m1, k);
  }

  /** The five internal fields the short names stand for. */
  lemma ShipInternalsV1()
    ensures ValueSet(SHIP_MAP_V1) == {"shipping_method", "shipping_amount", "discount_amount", "tax_amount", "grand_total"}
  {
    var m := SHIP_MAP_V1;
    assert m[0].1 in ValueSet(m) && m[1].1 in ValueSet(m) && m[2].1 in ValueSet(m) && m[3].1 in ValueSet(m) && m[4].1 in ValueSet(m);
  }

  /** The subtotal and the four amounts under their short names are currency; nothing else is typed. */
  lemma ShipTypesV1(k: string)
    ensures DistinctKeys(SHIP_TYPES_V1)
    ensures Lookup(SHIP_TYPES_V1, k) == if k in {"subtotal", "shipping", "discount", "tax", "total"} then Some(TCurrency) else None
  {
    var t := SHIP_TYPES_V1;
    assert |t[0].0| == 8 && |t[1].0| == 8 && |t[2].0| == 8 && |t[3].0| == 3 && |t[4].0| == 5;
    assert t[0].0[1] != t[1].0[1] && t[0].0[0] != t[2].0[0] && t[1].0[0] != t[2].0[0];
    var t1, t2, t3, t4 := t[1..], t[2..], t[3..], t[4..];
    assert t1[1..] == t2 && t2[1..] == t3 && t3[1..] == t4 && t4[1..] == [];
    assert Lookup(t4, k) == if k == "total" then Some(TCurrency) else None;
    assert Lookup(t3, k) == if k == "tax" then Some(TCurrency) else Lookup(t4, k);
    assert Lookup(t2, k) == if k == "discount" then Some(TCurrency) else Lookup(t3, k);
    assert Lookup(t1, k) == if k == "shipping" then Some(TCurrency) else Lookup(t2, k);
    assert Lookup(t, k) == if k == "subtotal" then Some(TCurrency) else Lookup(t1, k);
  }

  /** `prepareResource($address)` for an address with fields `fields`: all its fields, unmapped, filtered, typed, null-filled, sorted. */
  ghost function ProjectionV1(cx: AddressContext, f: Filter, fields: map<string, Value>): Record {
    Projected(cx.loc, cx.currencyCode, UnmapAttributes(SHIP_MAP_V1, SortedFields(fields)), f.readable, SHIP_TYPES_V1, f.included)
  }

  /** The address has no field under one of the short names. */
  predicate NoShortNames(fields: map<string, Value>) {
    forall i :: 0 <= i < |SHIP_MAP_V1| ==> SHIP_MAP_V1[i].0 !in fields
  }

  /**
   * The fields of an address without short-named fields, unmapped: each
   * short name holds its internal field, the internal fields are gone,
   * every other field is kept.
   */
  lemma UnmappedV1(fields: map<string, Value>, k: string)
    requires NoShortNames(fields)
    ensures var raw := UnmapAttributes(SHIP_MAP_V1, SortedFields(fields));
            var n := Rename(SHIP_MAP_V1, k);
      && DistinctKeys(raw)
      && Lookup(raw, k) == if k !in ValueSet(SHIP_MAP_V1) && n in fields then Some(fields[n]) else None
  {
    var s := SortedFields(fields);
    SortedFieldsContents(fields);
    ShipMapV1Facts();
    forall i | 0 <= i < |s| ensures !HasKey(SHIP_MAP_V1, s[i].0) {
      HasKeyIndex(s, s[i].0);
      HasKeyIndex(SHIP_MAP_V1, s[i].0);
    }
    UnmapLookup(SHIP_MAP_V1, s, k);
    MapAttributesDistinct(Flip(SHIP_MAP_V1), s);
  }

  /**
   * A projection is sorted by key. For an address without short-named
   * fields it holds each readable code that is not an internal name of the
   * map, with the value of the field it stands for, typed (the amounts as
   * currency); null for each other requested code, internal names such as
   * grand_total included; nothing else.
   */
  lemma ProjectionV1Shape(cx: AddressContext, f: Filter, fields: map<string, Value>)
    requires NoShortNames(fields)
    ensures var r := ProjectionV1(cx, f, fields);
      && SortedKeys(r)
      && forall k :: Lookup(r, k) ==
           var n := Rename(SHIP_MAP_V1, k);
           if k in f.readable && k !in ValueSet(SHIP_MAP_V1) && n in fields then Some(Typed(cx.loc, cx.currencyCode, SHIP_TYPES_V1, k, fields[n]))
           else if k in f.included then Some(Null) else None
  {
    var raw := UnmapAttributes(SHIP_MAP_V1, SortedFields(fields));
    UnmappedV1(fields, "");
    ShipTypesV1("");
    ProjectedShape(cx.loc, cx.currencyCode, raw, f.readable, SHIP_TYPES_V1, f.included);
    forall k ensures Lookup(raw, k) == if k !in ValueSet(SHIP_MAP_V1) && Rename(SHIP_MAP_V1, k) in fields then Some(fields[Rename(SHIP_MAP_V1, k)]) else None {
      UnmappedV1(fields, k);
    }
  }

  /** `ProjectionV1Shape` at one code. */
  lemma ProjectionV1At(cx: AddressContext, f: Filter, fields: map<string, Value>, k: string)
    requires NoShortNames(fields)
    ensures Lookup(ProjectionV1(cx, f, fields), k) ==
           var n := Rename(SHIP_MAP_V1, k);
           if k in f.readable && k !in ValueSet(SHIP_MAP_V1) && n in fields then Some(Typed(cx.loc, cx.currencyCode, SHIP_TYPES_V1, k, fields[n]))
           else if k in f.included then Some(Null) else None
  {
    ProjectionV1Shape(cx, f, fields);
  }

  /** In particular 'total' renders grand_total as a currency amount. */
  lemma ProjectionV1Total(cx: AddressContext, f: Filter, fields: map<string, Value>)
    requires NoShortNames(fields)
    requires "total" in f.readable && "grand_total" in fields
    ensures var v := fields["grand_total"];
            Lookup(ProjectionV1(cx, f, fields), "total") == Some(if Castable(v) then Cast(cx.loc, cx.currencyCode, TCurrency, v) else v)
  {
    ShipRenameV1("total");
    ShipInternalsV1();
    ShipTypesV1("total");
    assert |"total"| == 5;
    assert "total" !in ValueSet(SHIP_MAP_V1);
    var v := fields["grand_total"];
    assert Typed(cx.loc, cx.currencyCode, SHIP_TYPES_V1, "total", v) == if Castable(v) then Cast(cx.loc, cx.currencyCode, TCurrency, v) else v;
    ProjectionV1At(cx, f, fields, "total");
  }

  /** grand_total itself is never rendered with a value: it is null when requested and absent otherwise. */
  lemma ProjectionV1GrandTotal(cx: AddressContext, f: Filter, fields: map<string, Value>)
    requires NoShortNames(fields)
    ensures Lookup(ProjectionV1(cx, f, fields), "grand_total") == if "grand_total" in f.included then Some(Null) else None
  {
    ShipInternalsV1();
    assert "grand_total" in ValueSet(SHIP_MAP_V1);
    ProjectionV1At(cx, f, fields, "grand_total");
  }

  /** `prepareResource($address)`: the state is switched to entity retrieve for the filter and restored. */
  method PrepareResourceV1(state: ResourceState, acl: (string, string) -> Filter, cx: AddressContext, address: DataObject)
    returns (r: Record)
    modifies state
    ensures state.actionType == old(state.actionType) && state.operation == old(state.operation) && state.quote == old(state.quote)
    ensures r == ProjectionV1(cx, acl(ENTITY, RETRIEVE), address.data)
  {
    var actionType := state.actionType;
    var operation := state.operation;
    state.actionType := ENTITY;
    state.operation := RETRIEVE;
    var f := acl(ENTITY, RETRIEVE);
    var data := ToArray(address);
    data := UnmapAttributes(SHIP_MAP_V1, data);
    data := Out(data, f.readable);
    data := FixTypes(cx.loc, cx.currencyCode, data, [], SHIP_TYPES_V1);
    r := Finish(data, f.included);
    state.actionType := actionType;
    state.operation := operation;
  }

  /** The incoming data: filtered, then renamed to internal fields. */
  function IncomingV1(f: Filter, body: Record): Record {
    MapAttributes(SHIP_MAP_V1, In(body, f))
  }

  /**
   * The shipping address after `updateResource`: a body that has the key
   * customer_address_id loads the stored address named by the body's
   * `id`; else a truthy same_as_billing copies the billing address; else
   * the body is written field by field with same_as_billing cleared.
   */
  function UpdatedV1(book: AddressBook, checks: Checks, f: Filter, customerId: Value, billing: map<string, Value>,
                     fields: map<string, Value>, body: Record): Outcome<map<string, Value>>
  {
    var data := IncomingV1(f, body);
    if HasKey(data, "customer_address_id") then StoredOutcome(book, Get(data, "id"), customerId, fields)
    else if ShippingAddress.CopySelected(data) then Done(CopiedFromBilling(checks, fields, billing))
    else Done(WrittenAll(fields, Put(data, "same_as_billing", Int(0))))
  }

  /** `updateResource($address, $data)`; the 400 leaves the state at entity update as the exception does. */
  method UpdateResourceV1(state: ResourceState, acl: (string, string) -> Filter, book: AddressBook, checks: Checks, quote: Quote,
                          body: Record)
    returns (o: Outcome<()>)
    requires quote.Valid()
    modifies state, quote.shipping
    ensures var w := UpdatedV1(book, checks, acl(ENTITY, UPDATE), quote.Get("customer_id"), quote.billing.data, old(quote.shipping.data), body);
      && (w.Fault? ==> o == Fault(w.code, w.message) && quote.shipping.data == old(quote.shipping.data)
                       && state.actionType == ENTITY && state.operation == UPDATE)
      && (w.Done? ==> o == Done(()) && quote.shipping.data == w.value
                      && state.actionType == old(state.actionType) && state.operation == old(state.operation))
    ensures state.quote == old(state.quote) && quote.shipping.deleted == old(quote.shipping.deleted)
  {
    var actionType := state.actionType;
    var operation := state.operation;
    state.actionType := ENTITY;
    state.operation := UPDATE;
    var f := acl(ENTITY, UPDATE);
    var data := In(body, f);
    data := MapAttributes(SHIP_MAP_V1, data);
    var address := quote.shipping;
    if HasKey(data, "customer_address_id") {
      var stored := ImportStored(address, book, Get(data, "id"), quote.Get("customer_id"));
      if stored.Fault? {
        return Fault(stored.code, stored.message);
      }
    } else if ShippingAddress.CopySelected(data) {
      address.data := checks.importAddress(address.data, quote.billing.data);
      address.Set("same_as_billing", Int(1));
    } else {
      data := Put(data, "same_as_billing", Int(0));
      WriteAll(address, data);
    }
    state.actionType := actionType;
    state.operation := operation;
    o := Done(());
  }

  /**
   * An update fails only on a stored address of another customer, named
   * by the body's `id`; a copy of the billing address is marked
   * same-as-billing.
   */
  lemma UpdatedV1Cases(book: AddressBook, checks: Checks, f: Filter, customerId: Value, billing: map<string, Value>,
                       fields: map<string, Value>, body: Record)
    ensures var w := UpdatedV1(book, checks, f, customerId, billing, fields, body);
            var data := IncomingV1(f, body);
            var stored := book.load(Get(data, "id"));
      && (w.Fault? <==> HasKey(data, "customer_address_id") && Exists(stored) && OtherCustomer(stored, customerId))
      && (w.Fault? ==> w.code == BAD_REQUEST && w.message == INVALID_ADDRESS)
      && (HasKey(data, "customer_address_id") && !Exists(stored) ==> w == Done(fields))
      && (!HasKey(data, "customer_address_id") && ShippingAddress.CopySelected(data) ==> Field(w.value, "same_as_billing") == Int(1))
  {
    var data := IncomingV1(f, body);
    if HasKey(data, "customer_address_id") {
      StoredRules(book, Get(data, "id"), customerId, fields);
    }
  }

  /** The field-by-field branch: neither a stored address nor a copy is selected. */
  predicate PlainWrite(f: Filter, body: Record) {
    var data := IncomingV1(f, body);
    !HasKey(data, "customer_address_id") && !ShippingAddress.CopySelected(data)
  }

  lemma SameAsBillingNotInternal()
    ensures "same_as_billing" !in ValueSet(SHIP_MAP_V1) && !HasKey(SHIP_MAP_V1, "same_as_billing")
  {
    ShipInternalsV1();
    ShipRenameV1("same_as_billing");
    assert |"same_as_billing"| == 15 && "same_as_billing"[1] == 'a';
  }

  /** The data the field-by-field branch writes has distinct keys and clears same_as_billing. */
  lemma PlainDataV1(f: Filter, body: Record)
    ensures DistinctKeys(Put(IncomingV1(f, body), "same_as_billing", Int(0)))
    ensures Lookup(Put(IncomingV1(f, body), "same_as_billing", Int(0)), "same_as_billing") == Some(Int(0))
  {
    MapAttributesDistinct(SHIP_MAP_V1, In(body, f));
    PutShape(IncomingV1(f, body), "same_as_billing", Int(0));
  }

  /**
   * A field-by-field write clears same_as_billing, and writes each
   * writable field of the body whose name the map leaves alone with the
   * body's value; every other such field is kept.
   */
  lemma UpdatedV1Writes(book: AddressBook, checks: Checks, f: Filter, customerId: Value, billing: map<string, Value>,
                        fields: map<string, Value>, body: Record, k: string)
    requires DistinctKeys(body) && PlainWrite(f, body)
    requires !HasKey(SHIP_MAP_V1, k) && k !in ValueSet(SHIP_MAP_V1) && k != "same_as_billing"
    ensures var w := UpdatedV1(book, checks, f, customerId, billing, fields, body);
            var written := k in f.writable && HasKey(body, k);
      && w.Done? && "same_as_billing" in w.value && w.value["same_as_billing"] == Int(0)
      && (k in w.value <==> k in fields || written)
      && (written ==> w.value[k] == Get(body, k))
      && (!written && k in fields ==> w.value[k] == fields[k])
  {
    var input := In(body, f);
    RestrictDistinct(body, set c | c in f.writable);
    var plain := Put(IncomingV1(f, body), "same_as_billing", Int(0));
    PlainDataV1(f, body);
    forall i | 0 <= i < |input| && Rename(SHIP_MAP_V1, input[i].0) == Rename(SHIP_MAP_V1, k) ensures input[i].0 == k {
      RenameFrom(SHIP_MAP_V1, input[i].0);
      if HasKey(SHIP_MAP_V1, input[i].0) {
        LookupFound(SHIP_MAP_V1, input[i].0);
      }
    }
    MapAttributesInjective(SHIP_MAP_V1, input, k);
    WrittenAllLookup(fields, plain, k);
    WrittenAllLookup(fields, plain, "same_as_billing");
  }

  /**
   * A field-by-field write stores the value of a writable short name under
   * its internal field (a body with a writable 'total' sets grand_total),
   * when the body does not also carry the internal field.
   */
  lemma UpdatedV1Renamed(book: AddressBook, checks: Checks, f: Filter, customerId: Value, billing: map<string, Value>,
                         fields: map<string, Value>, body: Record, j: nat)
    requires DistinctKeys(body) && PlainWrite(f, body) && j < |SHIP_MAP_V1|
    requires SHIP_MAP_V1[j].0 in f.writable && HasKey(body, SHIP_MAP_V1[j].0)
    requires !HasKey(In(body, f), SHIP_MAP_V1[j].1)
    ensures var w := UpdatedV1(book, checks, f, customerId, billing, fields, body);
      && w.Done? && SHIP_MAP_V1[j].1 in w.value && w.value[SHIP_MAP_V1[j].1] == Get(body, SHIP_MAP_V1[j].0)
  {
    var n := SHIP_MAP_V1[j].1;
    IncomingRenamed(f, body, j);
    SameAsBillingNotInternal();
    assert n in ValueSet(SHIP_MAP_V1);
    var plain := Put(IncomingV1(f, body), "same_as_billing", Int(0));
    PlainDataV1(f, body);
    WrittenAllLookup(fields, plain, n);
  }

  /** The incoming data holds a writable short name's value under its internal field. */
  lemma IncomingRenamed(f: Filter, body: Record, j: nat)
    requires DistinctKeys(body) && j < |SHIP_MAP_V1|
    requires SHIP_MAP_V1[j].0 in f.writable && HasKey(body, SHIP_MAP_V1[j].0)
    requires !HasKey(In(body, f), SHIP_MAP_V1[j].1)
    ensures Lookup(IncomingV1(f, body), SHIP_MAP_V1[j].1) == Some(Get(body, SHIP_MAP_V1[j].0))
  {
    var (e, n) := SHIP_MAP_V1[j];
    var input := In(body, f);
    RestrictDistinct(body, set c | c in f.writable);
    ShipMapV1Facts();
    assert (e, n) in SHIP_MAP_V1;
    LookupIsMembership(SHIP_MAP_V1, e, n);
    forall i | 0 <= i < |input| && Rename(SHIP_MAP_V1, input[i].0) == Rename(SHIP_MAP_V1, e) ensures input[i].0 == e {
      RenameOnto(SHIP_MAP_V1, input[i].0, j);
      HasKeyIndex(input, n);
    }
    MapAttributesInjective(SHIP_MAP_V1, input, e);
  }

  /**
   * The create and update branch of `dispatch()`: the shipping address is
   * written and the quote saved, then the address is rendered; a stored
   * address of another customer is refused with 400.
   */
  method WriteV1(state: ResourceState, acl: (string, string) -> Filter, cx: AddressContext, book: AddressBook,
                 checks: Checks, session: Quote, body: Record, collect: map<string, Value> -> map<string, Value>)
    returns (o: Outcome<Reply>)
    requires session.Valid()
    requires state.quote == session
    modifies state, session, session.billing, session.shipping
    ensures session.Valid()
    ensures session.billing == old(session.billing) && session.shipping == old(session.shipping)
    ensures var w := UpdatedV1(book, checks, acl(ENTITY, UPDATE), Field(old(session.data), "customer_id"),
                               old(session.billing.data), old(session.shipping.data), body);
      && (o.Fault? <==> w.Fault?)
      && (w.Fault? ==> o == Fault(BAD_REQUEST, INVALID_ADDRESS) && session.data == old(session.data)
                       && session.billing.data == old(session.billing.data) && session.shipping.data == old(session.shipping.data))
      && (w.Done? ==> (session.data, session.billing.data)
                         == SavedQuote(true, old(session.totalsCollectedFlag), collect, old(session.data), old(session.billing.data))
                      && session.totalsCollectedFlag
                      && session.shipping.data == w.value["collect_shipping_rates" := Bool(true)]
                      && o == Done(Reply(OK, Single(ProjectionV1(cx, acl(ENTITY, RETRIEVE), session.shipping.data)))))
  {
    ghost var before := session.shipping.data;
    UpdatedV1Cases(book, checks, acl(ENTITY, UPDATE), session.Get("customer_id"), session.billing.data, before, body);
    var updated := UpdateResourceV1(state, acl, book, checks, session, body);
    if updated.Fault? {
      return Fault(updated.code, updated.message);
    }
    var _ := SaveQuote(state, session, collect);
    var r := PrepareResourceV1(state, acl, cx, session.shipping);
    o := Done(Reply(OK, Single(r)));
  }

  /**
   * `dispatch()`: retrieve renders the shipping address; create and update
   * write it, save the quote and render it; delete deletes it, keeps the
   * shipping method on a new address and answers 200 with no body;
   * anything else is 405.
   */
  method DispatchV1(state: ResourceState, acl: (string, string) -> Filter, cx: AddressContext, book: AddressBook,
                    checks: Checks, session: Quote, body: Record, collect: map<string, Value> -> map<string, Value>)
    returns (o: Outcome<Reply>)
    requires session.Valid()
    requires state.quote == null || state.quote == session
    modifies state, session, session.billing, session.shipping
    ensures session.Valid()
    ensures var op := old(state.actionType) + old(state.operation);
            var loaded := AfterLoad(old(state.quote) != null, old(session.data), old(session.billing.data));
      && (op != ENTITY + CREATE && op != ENTITY + UPDATE ==> session.data == loaded.0 && session.billing.data == loaded.1)
      && (op !in ShippingAddress.ADDRESS_OPS || op == ENTITY + RETRIEVE ==>
            session.shipping == old(session.shipping) && session.shipping.data == old(session.shipping.data))
      && (op == ENTITY + RETRIEVE ==> o == Done(Reply(OK, Single(ProjectionV1(cx, acl(ENTITY, RETRIEVE), old(session.shipping.data))))))
      && (op == ENTITY + CREATE || op == ENTITY + UPDATE ==>
            var w := UpdatedV1(book, checks, acl(ENTITY, UPDATE), Field(loaded.0, "customer_id"), loaded.1,
                               old(session.shipping.data), body);
            && (o.Fault? <==> w.Fault?)
            && (w.Fault? ==> o == Fault(BAD_REQUEST, INVALID_ADDRESS) && session.data == loaded.0 && session.billing.data == loaded.1
                             && session.shipping.data == old(session.shipping.data))
            && (w.Done? ==> (session.data, session.billing.data)
                               == SavedQuote(true, old(session.totalsCollectedFlag), collect, loaded.0, loaded.1)
                            && session.totalsCollectedFlag
                            && session.shipping.data == w.value["collect_shipping_rates" := Bool(true)]
                            && o == Done(Reply(OK, Single(ProjectionV1(cx, acl(ENTITY, RETRIEVE), session.shipping.data))))))
      && (op == ENTITY + DELETE ==>
            && o == Done(Reply(OK, NoBody)) && old(session.shipping).deleted && old(session.shipping).data == old(session.shipping.data)
            && (!Truthy(old(session.shipping.Get("shipping_method"))) ==> session.shipping == old(session.shipping))
            && (Truthy(old(session.shipping.Get("shipping_method"))) ==>
                  && fresh(session.shipping) && !session.shipping.deleted
                  && session.shipping.data == map["address_type" := Str("shipping"), "shipping_method" := old(session.shipping.Get("shipping_method"))]))
      && (op !in ShippingAddress.ADDRESS_OPS ==> o == NotAllowed())
  {
    var quote := LoadQuote(state, session, false);
    ghost var loaded := AfterLoad(old(state.quote) != null, old(session.data), old(session.billing.data));
    assert session.data == loaded.0 && session.billing.data == loaded.1;
    var op := state.actionType + state.operation;
    OpsDistinct();
    if op == ENTITY + RETRIEVE {
      var r := PrepareResourceV1(state, acl, cx, session.shipping);
      o := Done(Reply(OK, Single(r)));
    } else if op == ENTITY + CREATE || op == ENTITY + UPDATE {
      o := WriteV1(state, acl, cx, book, checks, session, body, collect);
    } else if op == ENTITY + DELETE {
      DeleteKeepingMethod(session);
      o := Done(Reply(OK, NoBody));
    } else {
      o := NotAllowed();
    }
  }
}
