/**
 * Model/Cart/Rest/V1.php: the first version of the cart resource. Every
 * field of the quote is rendered, grand_total under the short name
 * 'total' as a currency amount, with the shipping method and the item
 * count; the items and the two addresses are embedded when the caller may
 * read them and call their resources, whatever the request asks. Writing,
 * the coupon check and deleting work as in the current version.
 */
module CartV1 {
  import opened Wrappers
  import opened Values
  import opened Casts
  import opened Codec
  import opened KeySort
  import opened Projection
  import opened Typing
  import opened Pipeline
  import opened Objects
  import opened QuoteSync
  import opened Resource
  import opened Cart

  /** `$attributeMap`. */
  const CART_MAP_V1: AttrMap := [("total", "grand_total")]

  /** `$attributeTypeMap`. */
  const CART_TYPES_V1: TypeMap := [("qty", TFloat), ("total", TCurrency)]

  /** The sub-resources the first version embeds, in order. */
  const EMBEDS_V1: seq<string> := ["items", "billing_address", "shipping_address"]

  /**
   * What a rendering reads besides the quote: the locale and currency code
   * for `fixTypes`, the use_qty setting, which sub-resources the caller
   * may call, and what each embedded sub-resource renders for this quote.
   */
  datatype CartV1Context = CartV1Context(
    loc: Locale,
    currencyCode: Value,
    useQty: bool,
    subCallAllowed: string -> bool,
    sub: string -> Value)

  /** 'total' stands for grand_total and nothing else is renamed. */
  lemma CartMapV1Facts(k: string)
    ensures DistinctKeys(CART_MAP_V1) && ValuesDistinct(CART_MAP_V1) && Separate(CART_MAP_V1)
    ensures ValueSet(CART_MAP_V1) == {"grand_total"}
    ensures Rename(CART_MAP_V1, k) == if k == "total" then "grand_total" else k
  {
    assert |"total"| == 5 && |"grand_total"| == 11;
    assert CART_MAP_V1[0].1 in ValueSet(CART_MAP_V1);
  }

  /** qty is a float, total a currency amount; nothing else is typed. */
  lemma CartTypesV1(k: string)
    ensures DistinctKeys(CART_TYPES_V1)
    ensures Lookup(CART_TYPES_V1, k) == if k == "qty" then Some(TFloat) else if k == "total" then Some(TCurrency) else None
  {
    assert |"qty"| == 3 && |"total"| == 5;
    assert CART_TYPES_V1[1..][1..] == [];
  }

  /** An embed of the first version is added: the caller may read its code and call its sub-resource. */
  predicate EmbedsV1(k: string, readable: set<string>, subCallAllowed: string -> bool) {
    k in EMBEDS_V1 && k in readable && EmbedAdds(k, subCallAllowed)
  }

  /** The three embed steps of `prepareResource`. */
  function EmbeddedV1(data: Record, readable: set<string>, subCallAllowed: string -> bool, sub: string -> Value): Record {
    var d1 := PutIf(data, "items" in readable && subCallAllowed("aoe_cartapi_item"), "items", sub("items"));
    var d2 := PutIf(d1, "billing_address" in readable && subCallAllowed("aoe_cartapi_billing_address"), "billing_address", sub("billing_address"));
    PutIf(d2, "shipping_address" in readable && subCallAllowed("aoe_cartapi_shipping_address"), "shipping_address", sub("shipping_address"))
  }

  lemma EmbeddedV1Lookup(data: Record, readable: set<string>, subCallAllowed: string -> bool, sub: string -> Value, k: string)
    ensures Lookup(EmbeddedV1(data, readable, subCallAllowed, sub), k) ==
            if EmbedsV1(k, readable, subCallAllowed) then Some(sub(k)) else Lookup(data, k)
    ensures DistinctKeys(data) ==> DistinctKeys(EmbeddedV1(data, readable, subCallAllowed, sub))
  {
    assert |"items"| == 5 && |"billing_address"| == 15 && |"shipping_address"| == 16;
    assert SubResource("items") == Some("aoe_cartapi_item");
    assert SubResource("billing_address") == Some("aoe_cartapi_billing_address");
    assert SubResource("shipping_address") == Some("aoe_cartapi_shipping_address");
  }

  /** The data `prepareResource` builds before the filter. */
  ghost function RawV1(cx: CartV1Context, readable: set<string>, quote: map<string, Value>, shipping: map<string, Value>): Record {
    var d := UnmapAttributes(CART_MAP_V1, SortedFields(quote));
    var d1 := Put(d, "shipping_method", Field(shipping, "shipping_method"));
    var d2 := Put(d1, "qty", Qty(cx.useQty, quote));
    EmbeddedV1(d2, readable, cx.subCallAllowed, cx.sub)
  }

  /** The codes `RawV1` holds: the added embeds, shipping_method, qty, and the stored fields under their external codes. */
  predicate BuiltV1(cx: CartV1Context, readable: set<string>, quote: map<string, Value>, k: string) {
    EmbedsV1(k, readable, cx.subCallAllowed) || k == "shipping_method" || k == "qty"
    || (k != "grand_total" && Rename(CART_MAP_V1, k) in quote)
  }

  /** An independent statement of `RawV1`, code by code. */
  function RawValueV1(cx: CartV1Context, readable: set<string>, quote: map<string, Value>, shipping: map<string, Value>, k: string): Value {
    if EmbedsV1(k, readable, cx.subCallAllowed) then cx.sub(k)
    else if k == "qty" then Qty(cx.useQty, quote)
    else if k == "shipping_method" then Field(shipping, "shipping_method")
    else Field(quote, Rename(CART_MAP_V1, k))
  }

  /** The quote has no field under the short name 'total'. */
  predicate NoShortName(quote: map<string, Value>) {
    "total" !in quote
  }

  /** The quote's fields, unmapped: 'total' holds grand_total, grand_total is gone, every other field is kept. */
  lemma UnmappedQuote(quote: map<string, Value>, k: string)
    requires NoShortName(quote)
    ensures var raw := UnmapAttributes(CART_MAP_V1, SortedFields(quote));
      && DistinctKeys(raw)
      && Lookup(raw, k) == if k != "grand_total" && Rename(CART_MAP_V1, k) in quote then Some(quote[Rename(CART_MAP_V1, k)]) else None
  {
    var s := SortedFields(quote);
    SortedFieldsContents(quote);
    CartMapV1Facts(k);
    forall i | 0 <= i < |s| ensures !HasKey(CART_MAP_V1, s[i].0) {
      HasKeyIndex(s, s[i].0);
      CartMapV1Facts(s[i].0);
      assert Lookup(s, s[i].0).Some?;
    }
    UnmapLookup(CART_MAP_V1, s, k);
    MapAttributesDistinct(Flip(CART_MAP_V1), s);
  }

  lemma RawV1Lookup(cx: CartV1Context, readable: set<string>, quote: map<string, Value>, shipping: map<string, Value>, k: string)
    requires NoShortName(quote)
    ensures Lookup(RawV1(cx, readable, quote, shipping), k) ==
            if BuiltV1(cx, readable, quote, k) then Some(RawValueV1(cx, readable, quote, shipping, k)) else None
    ensures DistinctKeys(RawV1(cx, readable, quote, shipping))
  {
    var d := UnmapAttributes(CART_MAP_V1, SortedFields(quote));
    UnmappedQuote(quote, k);
    var d1 := Put(d, "shipping_method", Field(shipping, "shipping_method"));
    PutShape(d, "shipping_method", Field(shipping, "shipping_method"));
    var d2 := Put(d1, "qty", Qty(cx.useQty, quote));
    PutShape(d1, "qty", Qty(cx.useQty, quote));
    EmbeddedV1Lookup(d2, readable, cx.subCallAllowed, cx.sub, k);
    CartMapV1Facts(k);
    assert |"qty"| == 3 && |"shipping_method"| == 15 && |"grand_total"| == 11;
  }

  /** `prepareResource($quote)` for a quote with fields `quote` and a shipping address with fields `shipping`. */
  ghost function ProjectionV1(cx: CartV1Context, f: Filter, quote: map<string, Value>, shipping: map<string, Value>): Record {
    Projected(cx.loc, cx.currencyCode, RawV1(cx, f.readable, quote, shipping), f.readable, CART_TYPES_V1, f.included)
  }

  /**
   * A projection is sorted by key. For a quote with no field named
   * 'total' it holds each readable code that was built, typed: the items
   * and the two addresses when the caller may call their resources, the
   * shipping method, the item count, and every stored field, grand_total
   * under 'total'. Every other requested code is null; nothing else.
   */
  lemma ProjectionV1Shape(cx: CartV1Context, f: Filter, quote: map<string, Value>, shipping: map<string, Value>)
    requires NoShortName(quote)
    ensures var r := ProjectionV1(cx, f, quote, shipping);
      && SortedKeys(r)
      && forall k :: Lookup(r, k) ==
           if k in f.readable && BuiltV1(cx, f.readable, quote, k)
           then Some(Typed(cx.loc, cx.currencyCode, CART_TYPES_V1, k, RawValueV1(cx, f.readable, quote, shipping, k)))
           else if k in f.included then Some(Null) else None
  {
    var raw := RawV1(cx, f.readable, quote, shipping);
    RawV1Lookup(cx, f.readable, quote, shipping, "");
    CartTypesV1("");
    ProjectedShape(cx.loc, cx.currencyCode, raw, f.readable, CART_TYPES_V1, f.included);
    forall k ensures Lookup(raw, k) == if BuiltV1(cx, f.readable, quote, k) then Some(RawValueV1(cx, f.readable, quote, shipping, k)) else None {
      RawV1Lookup(cx, f.readable, quote, shipping, k);
    }
  }

  /** 'total' is built from grand_total, and grand_total is not built under its own name. */
  lemma TotalBuilt(cx: CartV1Context, readable: set<string>, quote: map<string, Value>, shipping: map<string, Value>)
    requires "grand_total" in quote
    ensures BuiltV1(cx, readable, quote, "total") && RawValueV1(cx, readable, quote, shipping, "total") == quote["grand_total"]
    ensures !BuiltV1(cx, readable, quote, "grand_total")
  {
    CartMapV1Facts("total");
    CartMapV1Facts("grand_total");
    assert |"total"| == 5 && |"qty"| == 3 && |"shipping_method"| == 15 && |"grand_total"| == 11;
    assert "total" !in EMBEDS_V1 && "grand_total" !in EMBEDS_V1;
  }

  /** A readable 'total' is the quote's grand_total as a currency amount. */
  lemma ProjectionV1Total(cx: CartV1Context, f: Filter, quote: map<string, Value>, shipping: map<string, Value>)
    requires NoShortName(quote)
    requires "total" in f.readable && "grand_total" in quote && Castable(quote["grand_total"])
    ensures Lookup(ProjectionV1(cx, f, quote, shipping), "total") == Some(CurrencyTriple(cx.loc, cx.currencyCode, quote["grand_total"]))
  {
    TotalBuilt(cx, f.readable, quote, shipping);
    CartTypesV1("total");
    var v := quote["grand_total"];
    assert Typed(cx.loc, cx.currencyCode, CART_TYPES_V1, "total", v) == CurrencyTriple(cx.loc, cx.currencyCode, v);
    ProjectionV1At(cx, f, quote, shipping, "total");
  }

  /** grand_total is never rendered under its own name: it is null when requested and absent otherwise. */
  lemma ProjectionV1GrandTotal(cx: CartV1Context, f: Filter, quote: map<string, Value>, shipping: map<string, Value>)
    requires NoShortName(quote)
    requires "grand_total" in quote
    ensures Lookup(ProjectionV1(cx, f, quote, shipping), "grand_total") == if "grand_total" in f.included then Some(Null) else None
  {
    TotalBuilt(cx, f.readable, quote, shipping);
    ProjectionV1At(cx, f, quote, shipping, "grand_total");
  }

  /** The embed codes are none of the codes the first version builds or renames otherwise. */
  lemma EmbedNames(k: string)
    requires k in EMBEDS_V1
    ensures k != "qty" && k != "total" && k != "shipping_method" && k != "grand_total"
  {
    assert k == "items" || k == "billing_address" || k == "shipping_address";
    assert |"items"| == 5 && |"billing_address"| == 15 && |"shipping_address"| == 16;
    assert |"total"| == 5 && |"qty"| == 3 && |"grand_total"| == 11;
    assert |"shipping_method"| == 15 && "billing_address"[0] != "shipping_method"[0];
  }

  /** `ProjectionV1Shape` at one code. */
  lemma ProjectionV1At(cx: CartV1Context, f: Filter, quote: map<string, Value>, shipping: map<string, Value>, k: string)
    requires NoShortName(quote)
    ensures Lookup(ProjectionV1(cx, f, quote, shipping), k) ==
           if k in f.readable && BuiltV1(cx, f.readable, quote, k)
           then Some(Typed(cx.loc, cx.currencyCode, CART_TYPES_V1, k, RawValueV1(cx, f.readable, quote, shipping, k)))
           else if k in f.included then Some(Null) else None
  {
    ProjectionV1Shape(cx, f, quote, shipping);
  }

  /**
   * The items and the two addresses are embedded exactly when the caller
   * may read them and call their resources; otherwise, as long as the
   * quote stores no field of that name, they are null when requested and
   * absent when not.
   */
  lemma ProjectionV1Embeds(cx: CartV1Context, f: Filter, quote: map<string, Value>, shipping: map<string, Value>, k: string)
    requires NoShortName(quote)
    requires k in EMBEDS_V1
    ensures EmbedsV1(k, f.readable, cx.subCallAllowed) ==> Lookup(ProjectionV1(cx, f, quote, shipping), k) == Some(cx.sub(k))
    ensures !EmbedsV1(k, f.readable, cx.subCallAllowed) && k !in quote ==>
              Lookup(ProjectionV1(cx, f, quote, shipping), k) == if k in f.included then Some(Null) else None
  {
    ProjectionV1At(cx, f, quote, shipping, k);
    EmbedNames(k);
    CartTypesV1(k);
    CartMapV1Facts(k);
    if EmbedsV1(k, f.readable, cx.subCallAllowed) {
      assert RawValueV1(cx, f.readable, quote, shipping, k) == cx.sub(k);
    } else if k !in quote {
      assert !BuiltV1(cx, f.readable, quote, k);
    }
  }

  /** `prepareResource($quote)`: the state is switched to entity retrieve for the filter and restored. */
  method PrepareResourceV1(state: ResourceState, acl: (string, string) -> Filter, cx: CartV1Context, quote: Quote)
    returns (r: Record)
    modifies state
    ensures state.actionType == old(state.actionType) && state.operation == old(state.operation) && state.quote == old(state.quote)
    ensures r == ProjectionV1(cx, acl(ENTITY, RETRIEVE), quote.data, quote.shipping.data)
  {
    var actionType := state.actionType;
    var operation := state.operation;
    state.actionType := ENTITY;
    state.operation := RETRIEVE;
    var f := acl(ENTITY, RETRIEVE);
    var data := ReadCartV1(cx, f.readable, quote);
    data := Out(data, f.readable);
    data := FixTypes(cx.loc, cx.currencyCode, data, [], CART_TYPES_V1);
    r := Finish(data, f.included);
    state.actionType := actionType;
    state.operation := operation;
  }

  /** The raw data of `prepareResource`: the quote's fields unmapped, the two manual codes, the embeds. */
  method ReadCartV1(cx: CartV1Context, readable: set<string>, quote: Quote) returns (data: Record)
    ensures data == RawV1(cx, readable, quote.data, quote.shipping.data)
  {
    data := FieldsArray(quote.data);
    data := UnmapAttributes(CART_MAP_V1, data);
    data := Put(data, "shipping_method", quote.shipping.Get("shipping_method"));
    data := Put(data, "qty", if cx.useQty then quote.Get("items_qty") else quote.Get("items_count"));
    if "items" in readable && cx.subCallAllowed("aoe_cartapi_item") {
      data := Put(data, "items", cx.sub("items"));
    }
    if "billing_address" in readable && cx.subCallAllowed("aoe_cartapi_billing_address") {
      data := Put(data, "billing_address", cx.sub("billing_address"));
    }
    if "shipping_address" in readable && cx.subCallAllowed("aoe_cartapi_shipping_address") {
      data := Put(data, "shipping_address", cx.sub("shipping_address"));
    }
  }

  /**
   * `dispatch()`: entity retrieve renders the cart; entity create and
   * update write it ('total' to grand_total), save it and render it, or
   * fail with 400 on a refused coupon before saving; entity delete
   * deactivates and saves a quote that has an id and answers with no body;
   * anything else is 405.
   */
  method DispatchV1(state: ResourceState, acl: (string, string) -> Filter, cx: CartV1Context, session: Quote, body: Record,
                    collect: map<string, Value> -> map<string, Value>)
    returns (o: Outcome<Reply>)
    requires session.Valid()
    requires state.quote == null || state.quote == session
    modifies state, session, session.billing, session.shipping
    ensures var op := old(state.actionType) + old(state.operation);
            var loaded := AfterLoad(old(state.quote) != null, old(session.data), old(session.billing.data));
            var collecting := old(session.shipping.data)["collect_shipping_rates" := Bool(true)];
      && (op == ENTITY + RETRIEVE ==>
            && o == Done(Reply(OK, Single(ProjectionV1(cx, acl(ENTITY, RETRIEVE), loaded.0, old(session.shipping.data)))))
            && session.data == loaded.0 && session.billing.data == loaded.1 && session.shipping.data == old(session.shipping.data))
      && (op == ENTITY + CREATE || op == ENTITY + UPDATE ==>
            var data := MapAttributes(CART_MAP_V1, In(body, acl(ENTITY, UPDATE)));
            var updated := Updated(loaded.0, old(session.totalsCollectedFlag), collect, data);
            if CouponRefused(data, updated) then
              && o == Fault(BAD_REQUEST, "Failed validation")
              && session.data == updated && session.billing.data == loaded.1 && session.shipping.data == old(session.shipping.data)
            else
              && (session.data, session.billing.data) == Synced(updated, loaded.1, true)
              && session.shipping.data == collecting
              && o == Done(Reply(OK, Single(ProjectionV1(cx, acl(ENTITY, RETRIEVE), Synced(updated, loaded.1, true).0, collecting)))))
      && (op == ENTITY + DELETE ==>
            o == Done(Reply(OK, NoBody))
            && (Truthy(Field(loaded.0, "entity_id")) ==>
                  && session.data == WithTotals(old(session.totalsCollectedFlag), Deactivated(loaded.0, loaded.1).0, collect)
                  && session.billing.data == Deactivated(loaded.0, loaded.1).1
                  && session.shipping.data == collecting && session.totalsCollectedFlag)
            && (!Truthy(Field(loaded.0, "entity_id")) ==>
                  session.data == loaded.0 && session.billing.data == loaded.1 && session.shipping.data == old(session.shipping.data)))
      && (op !in {ENTITY + RETRIEVE, ENTITY + CREATE, ENTITY + UPDATE, ENTITY + DELETE} ==>
            && o == NotAllowed()
            && session.data == loaded.0 && session.billing.data == loaded.1 && session.shipping.data == old(session.shipping.data))
  {
    var quote := LoadQuote(state, session, false);
    ghost var loaded := AfterLoad(old(state.quote) != null, old(session.data), old(session.billing.data));
    assert session.data == loaded.0 && session.billing.data == loaded.1;
    var op := state.actionType + state.operation;
    OpsDistinct();
    if op == ENTITY + RETRIEVE {
      var r := PrepareResourceV1(state, acl, cx, session);
      o := Done(Reply(OK, Single(r)));
    } else if op == ENTITY + CREATE || op == ENTITY + UPDATE {
      o := WriteCartV1(state, acl, cx, session, body, collect);
    } else if op == ENTITY + DELETE {
      o := DeleteCart(state, session, collect);
    } else {
      o := NotAllowed();
    }
  }

  /** Entity create and update: write the quote, save it and render it; a refused coupon fails before the save. */
  method WriteCartV1(state: ResourceState, acl: (string, string) -> Filter, cx: CartV1Context, session: Quote, body: Record,
                     collect: map<string, Value> -> map<string, Value>)
    returns (o: Outcome<Reply>)
    requires session.Valid() && state.quote == session
    modifies state, session, session.billing, session.shipping
    ensures var data := MapAttributes(CART_MAP_V1, In(body, acl(ENTITY, UPDATE)));
            var updated := Updated(old(session.data), old(session.totalsCollectedFlag), collect, data);
            var collecting := old(session.shipping.data)["collect_shipping_rates" := Bool(true)];
            if CouponRefused(data, updated) then
              && o == Fault(BAD_REQUEST, "Failed validation")
              && session.data == updated && session.billing.data == old(session.billing.data)
              && session.shipping.data == old(session.shipping.data)
            else
              && (session.data, session.billing.data) == Synced(updated, old(session.billing.data), true)
              && session.shipping.data == collecting
              && o == Done(Reply(OK, Single(ProjectionV1(cx, acl(ENTITY, RETRIEVE), Synced(updated, old(session.billing.data), true).0, collecting))))
    ensures session.totalsCollectedFlag
  {
    var u := UpdateResource(state, acl, CART_MAP_V1, session, body, collect);
    if u.Fault? {
      return Fault(u.code, u.message);
    }
    var _ := SaveQuote(state, session, collect);
    var r := PrepareResourceV1(state, acl, cx, session);
    o := Done(Reply(OK, Single(r)));
  }
}
