/**
 * Model/Payment/Rest/V1.php: the quote's payment. It is rendered field by
 * field; a write flattens a nested 'data' array into the top level, puts
 * the payment method on the address that collects totals, fixes the
 * method checks and hands the result to Magento's `importData`.
 */
module Payment {
  import opened Wrappers
  import opened Values
  import opened Casts
  import opened Codec
  import opened KeySort
  import opened Projection
  import opened Typing
  import opened Pipeline
  import opened Objects
  import opened QuoteSync
  import opened Resource
  import opened Address

  // The check flags of Mage_Payment_Model_Method_Abstract.
  const CHECK_USE_FOR_COUNTRY: bv8 := 1
  const CHECK_USE_FOR_CURRENCY: bv8 := 2
  const CHECK_USE_CHECKOUT: bv8 := 4
  const CHECK_USE_FOR_MULTISHIPPING: bv8 := 8
  const CHECK_USE_INTERNAL: bv8 := 16
  const CHECK_ORDER_TOTAL_MIN_MAX: bv8 := 32
  const CHECK_RECURRING_PROFILES: bv8 := 64
  const CHECK_ZERO_TOTAL: bv8 := 128

  /** The checks every write asks for: checkout use, country, currency and order total limits. */
  const PAYMENT_CHECKS: bv8 := CHECK_USE_CHECKOUT | CHECK_USE_FOR_COUNTRY | CHECK_USE_FOR_CURRENCY | CHECK_ORDER_TOTAL_MIN_MAX

  /** The checks are the four named flags and no other: 39, without the multishipping, internal, recurring or zero-total checks. */
  lemma PaymentChecksFlags()
    ensures PAYMENT_CHECKS as int == 39
    ensures PAYMENT_CHECKS & CHECK_USE_CHECKOUT != 0 && PAYMENT_CHECKS & CHECK_USE_FOR_COUNTRY != 0
    ensures PAYMENT_CHECKS & CHECK_USE_FOR_CURRENCY != 0 && PAYMENT_CHECKS & CHECK_ORDER_TOTAL_MIN_MAX != 0
    ensures PAYMENT_CHECKS & (CHECK_USE_FOR_MULTISHIPPING | CHECK_USE_INTERNAL | CHECK_RECURRING_PROFILES | CHECK_ZERO_TOTAL) == 0
  {
  }

  /** `prepareResource($payment)` for a payment with fields `fields`: all its fields, filtered, null-filled, sorted. */
  ghost function PaymentProjection(loc: Locale, currencyCode: Value, f: Filter, fields: map<string, Value>): Record {
    Projected(loc, currencyCode, UnmapAttributes([], SortedFields(fields)), f.readable, [], f.included)
  }

  /**
   * A projection is sorted by key and holds each readable field of the
   * payment, as it is stored (there is nothing to type), and null for each
   * other requested code; nothing else.
   */
  lemma PaymentProjectionShape(loc: Locale, currencyCode: Value, f: Filter, fields: map<string, Value>)
    ensures var r := PaymentProjection(loc, currencyCode, f, fields);
      && SortedKeys(r)
      && forall k :: Lookup(r, k) ==
           if k in f.readable && k in fields then Some(fields[k]) else if k in f.included then Some(Null) else None
  {
    var raw := SortedFields(fields);
    SortedFieldsContents(fields);
    MapNothing(raw);
    ProjectedShape(loc, currencyCode, raw, f.readable, [], f.included);
  }

  /** `prepareResource($payment)`: the state is switched to entity retrieve for the filter and restored. */
  method PrepareResource(state: ResourceState, acl: (string, string) -> Filter, loc: Locale, currencyCode: Value, payment: DataObject)
    returns (r: Record)
    modifies state
    ensures state.actionType == old(state.actionType) && state.operation == old(state.operation) && state.quote == old(state.quote)
    ensures r == PaymentProjection(loc, currencyCode, acl(ENTITY, RETRIEVE), payment.data)
  {
    var actionType := state.actionType;
    var operation := state.operation;
    state.actionType := ENTITY;
    state.operation := RETRIEVE;
    var f := acl(ENTITY, RETRIEVE);
    var data := ToArray(payment);
    data := UnmapAttributes([], data);
    data := Out(data, f.readable);
    data := FixTypes(loc, currencyCode, data, [], []);
    r := Finish(data, f.included);
    state.actionType := actionType;
    state.operation := operation;
  }

  /** `array_merge($nested, $base)` on string keys: the nested entries, each replaced by base's value, then base's other entries. */
  function Merge(nested: Record, base: Record): Record {
    if |base| == 0 then nested
    else
      var last := base[|base| - 1];
      Put(Merge(nested, base[..|base| - 1]), last.0, last.1)
  }

  /** In the merge the base wins: a key holds base's value when base has it, else the nested value. */
  lemma {:induction false} MergeLookup(nested: Record, base: Record, k: string)
    requires DistinctKeys(base)
    ensures Lookup(Merge(nested, base), k) == if HasKey(base, k) then Lookup(base, k) else Lookup(nested, k)
  {
    if |base| > 0 {
      var n := |base| - 1;
      var init := base[..n];
      assert base == init + [base[n]];
      assert DistinctKeys(init);
      MergeLookup(nested, init, k);
      LookupAppend(init, base[n], k);
      if base[n].0 == k {
        HasKeyIndex(init, k);
      }
    }
  }

  /** The merge of distinct-keyed arrays has distinct keys. */
  lemma {:induction false} MergeDistinct(nested: Record, base: Record)
    requires DistinctKeys(nested)
    ensures DistinctKeys(Merge(nested, base))
  {
    if |base| > 0 {
      var n := |base| - 1;
      MergeDistinct(nested, base[..n]);
      PutShape(Merge(nested, base[..n]), base[n].0, base[n].1);
    }
  }

  /** `isset($data['data']) && is_array($data['data'])`. */
  predicate NestedArray(data: Record) {
    var nested := Get(data, "data");
    nested.List? || nested.Dict?
  }

  /** The clean-up of the input: a nested 'data' array merged under the other keys, any other 'data' dropped. */
  function Flattened(data: Record): Record {
    if NestedArray(data) then Merge(ArrayCast(Get(data, "data")), Remove(data, "data"))
    else Remove(data, "data")
  }

  /** What `importData` receives: the filtered body, flattened, with 'checks' set. */
  function Imported(f: Filter, body: Record): Record {
    Put(Flattened(MapAttributes([], In(body, f))), "checks", Int(PAYMENT_CHECKS as int))
  }

  /**
   * Flattening: a top-level key other than 'data' keeps its value; a key
   * only the nested array has takes the nested value; a top-level 'data'
   * never survives (the nested array's own 'data' entry may).
   */
  lemma FlattenedLookup(data: Record, k: string)
    requires DistinctKeys(data)
    ensures Lookup(Flattened(data), k) ==
      if k != "data" && HasKey(data, k) then Lookup(data, k)
      else if NestedArray(data) then Lookup(ArrayCast(Get(data, "data")), k)
      else None
  {
    var base := Remove(data, "data");
    RemoveDistinct(data, "data");
    if NestedArray(data) {
      MergeLookup(ArrayCast(Get(data, "data")), base, k);
    }
  }

  /**
   * Whatever the body says, 'checks' is the fixed set of four checks;
   * every other key is the flattened body's, with the top level winning
   * over the nested 'data' array and 'data' itself dropped.
   */
  lemma ImportedLookup(f: Filter, body: Record, k: string)
    ensures Lookup(Imported(f, body), "checks") == Some(Int(39))
    ensures var data := In(body, f);
      k != "checks" && DistinctKeys(body) ==> (Lookup(Imported(f, body), k) ==
        if k != "data" && HasKey(data, k) then Lookup(data, k)
        else if NestedArray(data) then Lookup(ArrayCast(Get(data, "data")), k)
        else None)
  {
    PaymentChecksFlags();
    if DistinctKeys(body) {
      var data := In(body, f);
      RestrictDistinct(body, set c | c in f.writable);
      MapNothing(data);
      FlattenedLookup(data, k);
    }
  }

  /** Setting 'checks' leaves the payment method a record carries. */
  lemma PutKeepsMethod(r: Record)
    ensures Get(Put(r, "checks", Int(PAYMENT_CHECKS as int)), "method") == Get(r, "method")
  {
    assert "method"[0] != "checks"[0];
  }

  /**
   * `updateResource($payment, $data)`: the payment method (null when
   * missing) is set on the billing address of a virtual quote, else on the
   * shipping address, which is also told to collect shipping rates; the
   * payment imports the flattened data with its checks.
   */
  method UpdateResource(state: ResourceState, acl: (string, string) -> Filter,
                        importData: (map<string, Value>, Record) -> map<string, Value>, quote: Quote, body: Record)
    requires quote.Valid()
    modifies state, quote.payment, quote.billing, quote.shipping
    ensures var data := Imported(acl(ENTITY, UPDATE), body);
            var m := Get(data, "method");
      && quote.payment.data == importData(old(quote.payment.data), data)
      && (quote.isVirtual ==> quote.billing.data == old(quote.billing.data)["payment_method" := m]
                              && quote.shipping.data == old(quote.shipping.data))
      && (!quote.isVirtual ==> quote.shipping.data == old(quote.shipping.data)["payment_method" := m]["collect_shipping_rates" := Bool(true)]
                               && quote.billing.data == old(quote.billing.data))
    ensures state.actionType == old(state.actionType) && state.operation == old(state.operation) && state.quote == old(state.quote)
    ensures quote.payment.deleted == old(quote.payment.deleted)
    ensures quote.billing.deleted == old(quote.billing.deleted) && quote.shipping.deleted == old(quote.shipping.deleted)
  {
    var billing, shipping, payment := quote.billing, quote.shipping, quote.payment;
    var actionType := state.actionType;
    var operation := state.operation;
    state.actionType := ENTITY;
    state.operation := UPDATE;
    var f := acl(ENTITY, UPDATE);
    var flat := Flattened(MapAttributes([], In(body, f)));
    var m := Get(flat, "method");
    SetPaymentMethod(quote.isVirtual, billing, shipping, m);
    var data := Put(flat, "checks", Int(PAYMENT_CHECKS as int));
    PutKeepsMethod(flat);
    payment.data := importData(payment.data, data);
    state.actionType := actionType;
    state.operation := operation;
  }

  /**
   * The payment method goes on the billing address of a virtual quote and
   * on the shipping address otherwise, which then collects shipping rates.
   */
  method SetPaymentMethod(isVirtual: bool, billing: DataObject, shipping: DataObject, m: Value)
    requires billing != shipping
    modifies billing, shipping
    ensures isVirtual ==> billing.data == old(billing.data)["payment_method" := m] && shipping.data == old(shipping.data)
    ensures !isVirtual ==> shipping.data == old(shipping.data)["payment_method" := m]["collect_shipping_rates" := Bool(true)]
                           && billing.data == old(billing.data)
    ensures billing.deleted == old(billing.deleted) && shipping.deleted == old(shipping.deleted)
  {
    if isVirtual {
      billing.Set("payment_method", m);
    } else {
      shipping.Set("payment_method", m);
      shipping.Set("collect_shipping_rates", Bool(true));
    }
  }

  /** The operations `dispatch()` handles. */
  const PAYMENT_OPS: set<string> := {ENTITY + RETRIEVE, ENTITY + CREATE, ENTITY + UPDATE, ENTITY + DELETE}

  /**
   * The create and update branch of `dispatch()`: the payment is written
   * and the quote saved, then the payment is rendered.
   */
  method Write(state: ResourceState, acl: (string, string) -> Filter, loc: Locale, currencyCode: Value,
               importData: (map<string, Value>, Record) -> map<string, Value>, session: Quote, body: Record, collect: map<string, Value> -> map<string, Value>)
    returns (o: Outcome<Reply>)
    requires session.Valid()
    requires state.quote == null || state.quote == session
    modifies state, session, session.billing, session.shipping, session.payment
    ensures session.payment == old(session.payment) && session.billing == old(session.billing) && session.shipping == old(session.shipping)
    ensures session.isVirtual == old(session.isVirtual)
    ensures session.payment.data == importData(old(session.payment.data), Imported(acl(ENTITY, UPDATE), body))
    ensures var m := Get(Imported(acl(ENTITY, UPDATE), body), "method");
      && (session.data, session.billing.data)
         == SavedQuote(old(state.quote) != null, old(session.totalsCollectedFlag), collect, old(session.data),
                  if session.isVirtual then old(session.billing.data)["payment_method" := m] else old(session.billing.data))
      && session.totalsCollectedFlag
      && (session.isVirtual ==> session.shipping.data == old(session.shipping.data)["collect_shipping_rates" := Bool(true)])
      && (!session.isVirtual ==> session.shipping.data == old(session.shipping.data)["payment_method" := m]["collect_shipping_rates" := Bool(true)])
    ensures o == Done(Reply(OK, Single(PaymentProjection(loc, currencyCode, acl(ENTITY, RETRIEVE), session.payment.data))))
    ensures !session.isVirtual ==> Field(session.shipping.data, "payment_method") == Get(Imported(acl(ENTITY, UPDATE), body), "method")
  {
    ghost var m := Get(Imported(acl(ENTITY, UPDATE), body), "method");
    ghost var billing := if session.isVirtual then session.billing.data["payment_method" := m] else session.billing.data;
    ghost var shipping := if session.isVirtual then session.shipping.data
                          else session.shipping.data["payment_method" := m]["collect_shipping_rates" := Bool(true)];
    UpdateResource(state, acl, importData, session, body);
    assert session.billing.data == billing && session.shipping.data == shipping;
    assert |"payment_method"| != |"collect_shipping_rates"|;
    var _ := SaveQuote(state, session, collect);
    var r := PrepareResource(state, acl, loc, currencyCode, session.payment);
    o := Done(Reply(OK, Single(r)));
  }

  /**
   * `dispatch()`: retrieve renders the payment; create and update take the
   * same path: write it, save the quote and render it; delete deletes it
   * and answers 200 with no body; anything else is 405.
   */
  method Dispatch(state: ResourceState, acl: (string, string) -> Filter, loc: Locale, currencyCode: Value,
                  importData: (map<string, Value>, Record) -> map<string, Value>, session: Quote, body: Record, collect: map<string, Value> -> map<string, Value>)
    returns (o: Outcome<Reply>)
    requires session.Valid()
    requires state.quote == null || state.quote == session
    modifies state, session, session.billing, session.shipping, session.payment
    ensures session.payment == old(session.payment) && session.billing == old(session.billing) && session.shipping == old(session.shipping)
    ensures session.isVirtual == old(session.isVirtual)
    ensures var op := old(state.actionType) + old(state.operation);
            var loaded := AfterLoad(old(state.quote) != null, old(session.data), old(session.billing.data));
      && (op != ENTITY + CREATE && op != ENTITY + UPDATE ==>
            && session.data == loaded.0 && session.billing.data == loaded.1
            && session.shipping.data == old(session.shipping.data) && session.payment.data == old(session.payment.data))
      && (op == ENTITY + RETRIEVE ==> o == Done(Reply(OK, Single(PaymentProjection(loc, currencyCode, acl(ENTITY, RETRIEVE), old(session.payment.data))))))
      && (op == ENTITY + CREATE || op == ENTITY + UPDATE ==>
            var m := Get(Imported(acl(ENTITY, UPDATE), body), "method");
            && session.payment.data == importData(old(session.payment.data), Imported(acl(ENTITY, UPDATE), body))
            && (session.data, session.billing.data)
               == SavedQuote(true, old(session.totalsCollectedFlag), collect, loaded.0,
                        if session.isVirtual then loaded.1["payment_method" := m] else loaded.1)
            && session.totalsCollectedFlag
            && (session.isVirtual ==> session.shipping.data == old(session.shipping.data)["collect_shipping_rates" := Bool(true)])
            && (!session.isVirtual ==>
                  session.shipping.data == old(session.shipping.data)["payment_method" := m]["collect_shipping_rates" := Bool(true)])
            && o == Done(Reply(OK, Single(PaymentProjection(loc, currencyCode, acl(ENTITY, RETRIEVE), session.payment.data))))
            && (!session.isVirtual ==> Field(session.shipping.data, "payment_method") == Get(Imported(acl(ENTITY, UPDATE), body), "method")))
      && (op == ENTITY + DELETE ==> o == Done(Reply(OK, NoBody)) && session.payment.deleted)
      && (op !in PAYMENT_OPS ==> o == NotAllowed())
  {
    var quote := LoadQuote(state, session, false);
    ghost var loaded := AfterLoad(old(state.quote) != null, old(session.data), old(session.billing.data));
    assert session.data == loaded.0 && session.billing.data == loaded.1;
    var op := state.actionType + state.operation;
    OpsDistinct();
    if op == ENTITY + RETRIEVE {
      var r := PrepareResource(state, acl, loc, currencyCode, session.payment);
      o := Done(Reply(OK, Single(r)));
    } else if op == ENTITY + CREATE || op == ENTITY + UPDATE {
      o := Write(state, acl, loc, currencyCode, importData, session, body, collect);
    } else if op == ENTITY + DELETE {
      session.payment.Delete();
      o := Done(Reply(OK, NoBody));
    } else {
      o := NotAllowed();
    }
  }
}
