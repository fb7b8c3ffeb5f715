/**
 * Model/Cart.php: the cart itself, that is the session's quote. It is
 * rendered with its shipping method, item count, totals (as currency
 * amounts with their titles), messages grouped by type and the embedded
 * sub-resources; it is written field by field, after which a coupon code
 * the totals collection does not keep is refused; deleting it deactivates
 * it.
 */
module Cart {
  import opened Wrappers
  import opened Values
  import opened Casts
  import opened Codec
  import opened KeySort
  import opened Projection
  import opened Typing
  import opened Pipeline
  import opened Objects
  import opened QuoteSync
  import opened Resource
  import opened Address

  /** `$attributeTypeMap`. */
  const CART_TYPES: TypeMap := [("coupon_code", TString), ("has_error", TBool), ("shipping_method", TString), ("qty", TFloat)]

  /** `$manualAttributes`. */
  const CART_MANUAL: set<string> := {"shipping_method", "qty", "totals", "messages"}

  /** `$attributeMap`: the default, which renames nothing. */
  const CART_MAP: AttrMap := []

  /** `$defaultEmbeds`. */
  const DEFAULT_EMBEDS: seq<string> := ["items", "billing_address", "shipping_address", "payment"]

  /** One entry of `$quote->getTotals()`: its value and its title. */
  datatype Total = Total(value: Value, title: Value)

  /** One of `$quote->getMessages()`: its type ('error', 'notice', …) and its text. */
  datatype Message = Message(kind: string, text: Value)

  /**
   * What a cart rendering reads besides the quote's own fields: the locale
   * and the quote's currency code for `fixTypes`, the
   * checkout/cart_link/use_qty setting, the quote's totals and messages,
   * the `embed` request parameter, which sub-resources the caller may
   * call, and what each embedded sub-resource renders for this quote.
   */
  datatype CartContext = CartContext(
    loc: Locale,
    currencyCode: Value,
    useQty: bool,
    totals: Assoc<Total>,
    messages: seq<Message>,
    embedParam: Value,
    subCallAllowed: string -> bool,
    sub: string -> Value)

  lemma CartTypesDistinct()
    ensures DistinctKeys(CART_TYPES)
  {
    assert |"coupon_code"| == 11 && |"has_error"| == 9 && |"shipping_method"| == 15 && |"qty"| == 3;
  }

  // ---------------------------------------------------------------------
  // Totals

  /** The array the totals loop fills with one part of each total, under the total's code. */
  function Column<V>(totals: Assoc<Total>, pick: Total -> V): Assoc<V> {
    if |totals| == 0 then []
    else
      var n := |totals| - 1;
      Put(Column(totals[..n], pick), totals[n].0, pick(totals[n].1))
  }

  /** On the distinct codes of a PHP array, each column holds the picked part of every total and nothing else. */
  lemma {:induction false} ColumnLookup<V>(totals: Assoc<Total>, pick: Total -> V, code: string)
    requires DistinctKeys(totals)
    ensures Lookup(Column(totals, pick), code) ==
            match Lookup(totals, code)
            case Some(t) => Some(pick(t))
            case None => None
    ensures DistinctKeys(Column(totals, pick))
  {
    if |totals| > 0 {
      var n := |totals| - 1;
      var init := totals[..n];
      assert totals == init + [totals[n]];
      assert DistinctKeys(init);
      ColumnLookup(init, pick, code);
      PutShape(Column(init, pick), totals[n].0, pick(totals[n].1));
      LookupAppend(init, totals[n], code);
      if totals[n].0 == code {
        HasKeyIndex(init, code);
      }
    }
  }

  /** `$data['totals'][$code]['title'] = $title` on a total's typed value. */
  function Titled(v: Value, title: Value): Value {
    match v
    case Dict(fields) => Dict(Put(fields, "title", title))
    case List(items) => Dict(Put(Indexed(items), "title", title))
    case _ => v
  }

  /** The typed totals with the title of each added. */
  function TitledAll(fixed: Record, titles: Record): Record {
    if |fixed| == 0 then []
    else
      var n := |fixed| - 1;
      TitledAll(fixed[..n], titles) + [(fixed[n].0, Titled(fixed[n].1, Get(titles, fixed[n].0)))]
  }

  lemma {:induction false} TitledAllLookup(fixed: Record, titles: Record, k: string)
    ensures Lookup(TitledAll(fixed, titles), k) ==
            match Lookup(fixed, k)
            case Some(v) => Some(Titled(v, Get(titles, k)))
            case None => None
    ensures DistinctKeys(fixed) ==> DistinctKeys(TitledAll(fixed, titles))
  {
    if |fixed| > 0 {
      var n := |fixed| - 1;
      var init := fixed[..n];
      assert fixed == init + [fixed[n]];
      TitledAllLookup(init, titles, k);
      LookupAppend(init, fixed[n], k);
      LookupAppend(TitledAll(init, titles), (fixed[n].0, Titled(fixed[n].1, Get(titles, fixed[n].0))), k);
      if DistinctKeys(fixed) {
        assert DistinctKeys(init);
        var t := TitledAll(init, titles);
        TitledAllLookup(init, titles, fixed[n].0);
        HasKeyIndex(init, fixed[n].0);
        HasKeyIndex(t, fixed[n].0);
        TitledAllKeys(init, titles);
      }
    }
  }

  lemma {:induction false} TitledAllKeys(fixed: Record, titles: Record)
    ensures |TitledAll(fixed, titles)| == |fixed|
    ensures forall i :: 0 <= i < |fixed| ==> TitledAll(fixed, titles)[i].0 == fixed[i].0
  {
    if |fixed| > 0 {
      TitledAllKeys(fixed[..|fixed| - 1], titles);
    }
  }

  /** The value of one total after `fixTypes` with the all-currency type map: a scalar or null becomes a currency triple. */
  function TotalCast(loc: Locale, currencyCode: Value, v: Value): Value {
    if Castable(v) then CurrencyTriple(loc, currencyCode, v) else v
  }

  /**
   * `$data['totals']`: the values typed as currencies by `fixTypes` (an
   * empty type map falls back to the cart's own, which has nothing to do
   * on no data), each with its title.
   */
  function TotalsFields(loc: Locale, currencyCode: Value, totals: Assoc<Total>): Record {
    var titles := Column(totals, (t: Total) => t.title);
    TitledAll(TypedTotals(loc, currencyCode, totals), titles)
  }

  /**
   * Every total of the quote appears under its code, as its value cast to
   * a currency (when it is a scalar or null) with its title added; there is
   * no other entry.
   */
  lemma TotalsLookup(loc: Locale, currencyCode: Value, totals: Assoc<Total>, code: string)
    requires DistinctKeys(totals)
    ensures Lookup(TotalsFields(loc, currencyCode, totals), code) ==
            match Lookup(totals, code)
            case Some(t) => Some(Titled(TotalCast(loc, currencyCode, t.value), t.title))
            case None => None
    ensures DistinctKeys(TotalsFields(loc, currencyCode, totals))
  {
    var titles := Column(totals, (t: Total) => t.title);
    var fixed := TypedTotals(loc, currencyCode, totals);
    TypedTotalsLookup(loc, currencyCode, totals, code);
    ColumnLookup(totals, (t: Total) => t.title, code);
    TitledAllLookup(fixed, titles, code);
  }

  /** The totals' values after `fixTypes`, before the titles are added. */
  function TypedTotals(loc: Locale, currencyCode: Value, totals: Assoc<Total>): Record {
    var values := Column(totals, (t: Total) => t.value);
    var types := Column(totals, (t: Total) => TCurrency);
    FixedTypes(loc, currencyCode, values, EffectiveTypeMap(types, CART_TYPES))
  }

  lemma TypedTotalsLookup(loc: Locale, currencyCode: Value, totals: Assoc<Total>, code: string)
    requires DistinctKeys(totals)
    ensures Lookup(TypedTotals(loc, currencyCode, totals), code) ==
            match Lookup(totals, code)
            case Some(t) => Some(TotalCast(loc, currencyCode, t.value))
            case None => None
    ensures DistinctKeys(TypedTotals(loc, currencyCode, totals))
  {
    var values := Column(totals, (t: Total) => t.value);
    var types := Column(totals, (t: Total) => TCurrency);
    var typeMap := EffectiveTypeMap(types, CART_TYPES);
    ColumnLookup(totals, (t: Total) => t.value, code);
    FixedTypesKeys(loc, currencyCode, values, typeMap);
    if |totals| == 0 {
      FixedTypesLookup(loc, currencyCode, values, [], code);
      assert FixedTypes(loc, currencyCode, [], CART_TYPES) == [] by {
        FixedTypesKeys(loc, currencyCode, [], CART_TYPES);
      }
    } else {
      ColumnLookup(totals, (t: Total) => TCurrency, code);
      FixedTypesLookup(loc, currencyCode, values, types, code);
    }
  }

  /** A scalar total reads as its currency code, rounded amount and formatted text, followed by its title. */
  lemma TotalEntryShape(loc: Locale, currencyCode: Value, t: Total)
    requires Castable(t.value)
    ensures var amount := loc.roundAmount(currencyCode, ToFloat(t.value));
            Titled(TotalCast(loc, currencyCode, t.value), t.title)
            == Dict([("currency", currencyCode), ("amount", Float(amount)),
                     ("formatted", Str(loc.formatAmount(currencyCode, amount))), ("title", t.title)])
  {
    var amount := loc.roundAmount(currencyCode, ToFloat(t.value));
    var triple := [("currency", currencyCode), ("amount", Float(amount)), ("formatted", Str(loc.formatAmount(currencyCode, amount)))];
    assert |"title"| == 5 && |"currency"| == 8 && |"amount"| == 6 && |"formatted"| == 9;
    assert triple[0].0 != "title" && triple[1].0 != "title" && triple[2].0 != "title";
    HasKeyIndex(triple, "title");
    PutShape(triple, "title", t.title);
  }

  /** The two loops over the quote's totals. */
  method CollectTotalsData(loc: Locale, currencyCode: Value, totals: Assoc<Total>) returns (r: Record)
    ensures r == TotalsFields(loc, currencyCode, totals)
  {
    var values: Record := [];
    var types: TypeMap := [];
    var titles: Record := [];
    var i := 0;
    while i < |totals|
      invariant 0 <= i <= |totals|
      invariant values == Column(totals[..i], (t: Total) => t.value)
      invariant types == Column(totals[..i], (t: Total) => TCurrency)
      invariant titles == Column(totals[..i], (t: Total) => t.title)
    {
      assert totals[..i + 1][..i] == totals[..i];
      values := Put(values, totals[i].0, totals[i].1.value);
      types := Put(types, totals[i].0, TCurrency);
      titles := Put(titles, totals[i].0, totals[i].1.title);
      i := i + 1;
    }
    assert totals[..|totals|] == totals;
    var fixed := FixTypes(loc, currencyCode, values, types, CART_TYPES);
    assert fixed == TypedTotals(loc, currencyCode, totals);
    r := [];
    var j := 0;
    while j < |fixed|
      invariant 0 <= j <= |fixed|
      invariant r == TitledAll(fixed[..j], titles)
    {
      assert fixed[..j + 1][..j] == fixed[..j];
      r := r + [(fixed[j].0, Titled(fixed[j].1, Get(titles, fixed[j].0)))];
      j := j + 1;
    }
    assert fixed[..|fixed|] == fixed;
  }

  // ---------------------------------------------------------------------
  // Messages

  /** The texts of the messages of one type, in order: an independent statement of one group. */
  function TextsOf(messages: seq<Message>, kind: string): seq<Value> {
    if |messages| == 0 then []
    else
      var n := |messages| - 1;
      TextsOf(messages[..n], kind) + (if messages[n].kind == kind then [messages[n].text] else [])
  }

  /** `$data['messages'][$message->getType()][] = $message->getText()` for each message in turn. */
  function Grouped(messages: seq<Message>): Assoc<seq<Value>> {
    if |messages| == 0 then []
    else
      var n := |messages| - 1;
      var g := Grouped(messages[..n]);
      var group := match Lookup(g, messages[n].kind) case Some(s) => s case None => [];
      Put(g, messages[n].kind, group + [messages[n].text])
  }

  /**
   * The messages are grouped by type: a type holds the texts of its
   * messages in order, and a type with no message does not appear.
   */
  lemma {:induction false} GroupedLookup(messages: seq<Message>, kind: string)
    ensures Lookup(Grouped(messages), kind) == if TextsOf(messages, kind) == [] then None else Some(TextsOf(messages, kind))
    ensures DistinctKeys(Grouped(messages))
  {
    if |messages| > 0 {
      var n := |messages| - 1;
      var init := messages[..n];
      GroupedLookup(init, kind);
      GroupedLookup(init, messages[n].kind);
      var g := Grouped(init);
      var group := match Lookup(g, messages[n].kind) case Some(s) => s case None => [];
      assert group == TextsOf(init, messages[n].kind);
      assert Grouped(messages) == Put(g, messages[n].kind, group + [messages[n].text]);
      PutShape(g, messages[n].kind, group + [messages[n].text]);
      if kind == messages[n].kind {
        assert TextsOf(messages, kind) == group + [messages[n].text];
      } else {
        assert TextsOf(messages, kind) == TextsOf(init, kind);
      }
    }
  }

  /** Every message's text is among the texts of its type. */
  lemma {:induction false} TextsOfHolds(messages: seq<Message>, i: nat)
    requires i < |messages|
    ensures messages[i].text in TextsOf(messages, messages[i].kind)
  {
    var n := |messages| - 1;
    if i < n {
      assert messages[..n][i] == messages[i];
      TextsOfHolds(messages[..n], i);
    }
  }

  /** The groups as the PHP array of lists they are. */
  function AsLists(g: Assoc<seq<Value>>): (r: Record)
    ensures |r| == |g|
  {
    if |g| == 0 then [] else [(g[0].0, List(g[0].1))] + AsLists(g[1..])
  }

  lemma {:induction false} AsListsLookup(g: Assoc<seq<Value>>, k: string)
    ensures Lookup(AsLists(g), k) == match Lookup(g, k) case Some(s) => Some(List(s)) case None => None
    ensures forall i :: 0 <= i < |g| ==> AsLists(g)[i].0 == g[i].0
  {
    if |g| > 0 {
      AsListsLookup(g[1..], k);
    }
  }

  /** The loop over the quote's messages. */
  method GroupMessages(messages: seq<Message>) returns (g: Assoc<seq<Value>>)
    ensures g == Grouped(messages)
  {
    g := [];
    var i := 0;
    while i < |messages|
      invariant 0 <= i <= |messages|
      invariant g == Grouped(messages[..i])
    {
      assert messages[..i + 1][..i] == messages[..i];
      var group := match Lookup(g, messages[i].kind) case Some(s) => s case None => [];
      g := Put(g, messages[i].kind, group + [messages[i].text]);
      i := i + 1;
    }
    assert messages[..|messages|] == messages;
  }

  // ---------------------------------------------------------------------
  // Embeds

  /** The sub-resource an embed name calls; 'payment' and unknown names call none. */
  function SubResource(embed: string): Option<string> {
    if embed == "items" then Some("aoe_cartapi_item")
    else if embed == "billing_address" then Some("aoe_cartapi_billing_address")
    else if embed == "shipping_address" then Some("aoe_cartapi_shipping_address")
    else if embed == "shipping_methods" then Some("aoe_cartapi_shipping_method")
    else if embed == "crosssells" then Some("aoe_cartapi_crosssell")
    else None
  }

  /** An embed name adds its sub-resource's rendering: it names one, and the caller may call it. */
  predicate EmbedAdds(embed: string, subCallAllowed: string -> bool) {
    SubResource(embed).Some? && subCallAllowed(SubResource(embed).value)
  }

  /** The data after the embed loop has visited `embeds` in order. */
  function Embedded(data: Record, embeds: seq<string>, subCallAllowed: string -> bool, sub: string -> Value): Record {
    if |embeds| == 0 then data
    else
      var n := |embeds| - 1;
      var d := Embedded(data, embeds[..n], subCallAllowed, sub);
      if EmbedAdds(embeds[n], subCallAllowed) then Put(d, embeds[n], sub(embeds[n])) else d
  }

  /** An embed the caller asked for and may call holds its sub-resource's rendering; every other key is left alone. */
  lemma {:induction false} EmbeddedLookup(data: Record, embeds: seq<string>, subCallAllowed: string -> bool, sub: string -> Value, k: string)
    ensures Lookup(Embedded(data, embeds, subCallAllowed, sub), k) ==
            if k in embeds && EmbedAdds(k, subCallAllowed) then Some(sub(k)) else Lookup(data, k)
    ensures DistinctKeys(data) ==> DistinctKeys(Embedded(data, embeds, subCallAllowed, sub))
  {
    if |embeds| > 0 {
      var n := |embeds| - 1;
      EmbeddedLookup(data, embeds[..n], subCallAllowed, sub, k);
      assert k in embeds <==> k in embeds[..n] || k == embeds[n];
      var d := Embedded(data, embeds[..n], subCallAllowed, sub);
      if EmbedAdds(embeds[n], subCallAllowed) {
        PutShape(d, embeds[n], sub(embeds[n]));
      }
    }
  }

  /** No embed name is in the cart's type map, so an embedded rendering is never cast. */
  lemma EmbedsUntyped(k: string)
    requires SubResource(k).Some?
    ensures Lookup(CART_TYPES, k) == None
  {
    assert |"items"| == 5 && |"billing_address"| == 15 && |"shipping_address"| == 16 && |"shipping_methods"| == 16 && |"crosssells"| == 10;
    assert |"coupon_code"| == 11 && |"has_error"| == 9 && |"shipping_method"| == 15 && |"qty"| == 3;
    assert "billing_address"[0] != "shipping_method"[0];
  }

  // ---------------------------------------------------------------------
  // The projection

  /** `checkout/cart_link/use_qty ? getItemsQty() : getItemsCount()`. */
  function Qty(useQty: bool, quote: map<string, Value>): Value {
    if useQty then Field(quote, "items_qty") else Field(quote, "items_count")
  }

  /** The data `prepareResource` builds before the event and the filter. */
  function Raw(cx: CartContext, included: seq<string>, quote: map<string, Value>, shipping: map<string, Value>): Record {
    var d := LoadedAttributes(quote, included, CART_MANUAL, [], []);
    var d1 := Put(d, "shipping_method", Field(shipping, "shipping_method"));
    var d2 := Put(d1, "qty", Qty(cx.useQty, quote));
    var d3 := PutIf(d2, "totals" in included, "totals", Dict(TotalsFields(cx.loc, cx.currencyCode, cx.totals)));
    PutIf(d3, "messages" in included, "messages", Dict(AsLists(Grouped(cx.messages))))
  }

  /** An independent statement of `Raw`, code by code. */
  function RawValue(cx: CartContext, quote: map<string, Value>, shipping: map<string, Value>, k: string): Value {
    if k == "shipping_method" then Field(shipping, "shipping_method")
    else if k == "qty" then Qty(cx.useQty, quote)
    else if k == "totals" then Dict(TotalsFields(cx.loc, cx.currencyCode, cx.totals))
    else if k == "messages" then Dict(AsLists(Grouped(cx.messages)))
    else Field(quote, k)
  }

  /** The codes `Raw` holds: the requested ones, and shipping_method and qty whether requested or not. */
  predicate Built(included: seq<string>, k: string) {
    k in included || k == "shipping_method" || k == "qty"
  }

  lemma RawLookup(cx: CartContext, included: seq<string>, quote: map<string, Value>, shipping: map<string, Value>, k: string)
    ensures Lookup(Raw(cx, included, quote, shipping), k) == if Built(included, k) then Some(RawValue(cx, quote, shipping, k)) else None
    ensures DistinctKeys(Raw(cx, included, quote, shipping))
  {
    RawDistinct(cx, included, quote, shipping);
    var d := LoadedAttributes(quote, included, CART_MANUAL, [], []);
    ReadPart(quote, included, k);
    var d1 := Put(d, "shipping_method", Field(shipping, "shipping_method"));
    var d2 := Put(d1, "qty", Qty(cx.useQty, quote));
    var d3 := PutIf(d2, "totals" in included, "totals", Dict(TotalsFields(cx.loc, cx.currencyCode, cx.totals)));
    var d4 := PutIf(d3, "messages" in included, "messages", Dict(AsLists(Grouped(cx.messages))));
    assert Raw(cx, included, quote, shipping) == d4;
    ManualNames();
    if k == "messages" {
    } else if k == "totals" {
    } else if k == "qty" {
      assert Lookup(d2, k) == Some(Qty(cx.useQty, quote));
    } else if k == "shipping_method" {
      assert Lookup(d1, k) == Some(Field(shipping, "shipping_method"));
      assert Lookup(d2, k) == Lookup(d1, k);
    } else {
      assert Lookup(d2, k) == Lookup(d, k);
    }
  }

  /** The built data has distinct codes. */
  lemma RawDistinct(cx: CartContext, included: seq<string>, quote: map<string, Value>, shipping: map<string, Value>)
    ensures DistinctKeys(Raw(cx, included, quote, shipping))
  {
    var d := LoadedAttributes(quote, included, CART_MANUAL, [], []);
    ReadPart(quote, included, "");
    var d1 := Put(d, "shipping_method", Field(shipping, "shipping_method"));
    PutShape(d, "shipping_method", Field(shipping, "shipping_method"));
    PutShape(d1, "qty", Qty(cx.useQty, quote));
  }

  /** The attributes read from the quote: the requested codes that are not manual, each as the quote holds it. */
  lemma ReadPart(quote: map<string, Value>, included: seq<string>, k: string)
    ensures Lookup(LoadedAttributes(quote, included, CART_MANUAL, [], []), k) ==
            if k in included && k !in CART_MANUAL then Some(Field(quote, k)) else None
    ensures DistinctKeys(LoadedAttributes(quote, included, CART_MANUAL, [], []))
  {
    ReadIntoDistinct([], Plan(Without(included, CART_MANUAL), []), quote);
    LoadedAttributesContents(quote, included, CART_MANUAL, [], [], k);
    assert Rename([], k) == k;
  }

  /** The four manual codes are four different names. */
  lemma ManualNames()
    ensures |"shipping_method"| == 15 && |"qty"| == 3 && |"totals"| == 6 && |"messages"| == 8
  {
  }

  /** `prepareResource($quote)` for a quote with fields `quote` and a shipping address with fields `shipping`. */
  function CartProjection(cx: CartContext, f: Filter, quote: map<string, Value>, shipping: map<string, Value>): Record {
    var out := Out(Raw(cx, f.included, quote, shipping), f.readable);
    var embedded := Embedded(out, ParseEmbeds(cx.loc, cx.embedParam, DEFAULT_EMBEDS), cx.subCallAllowed, cx.sub);
    Finish(FixedTypes(cx.loc, cx.currencyCode, embedded, CART_TYPES), f.included)
  }

  /**
   * A cart projection is sorted by key. An embed the caller asked for (or,
   * with no `embed` parameter, a default one) whose sub-resource the caller
   * may call holds that sub-resource's rendering, whether or not the filter
   * lets the code through. Otherwise a readable code that was built holds
   * its value, typed; shipping_method and qty are built even when not
   * requested. Every other requested code is null, and there is nothing
   * else.
   */
  lemma CartProjectionShape(cx: CartContext, f: Filter, quote: map<string, Value>, shipping: map<string, Value>)
    ensures var r := CartProjection(cx, f, quote, shipping);
            var embeds := ParseEmbeds(cx.loc, cx.embedParam, DEFAULT_EMBEDS);
      && SortedKeys(r)
      && forall k :: Lookup(r, k) ==
           if k in embeds && EmbedAdds(k, cx.subCallAllowed) then Some(cx.sub(k))
           else if k in f.readable && Built(f.included, k) then Some(Typed(cx.loc, cx.currencyCode, CART_TYPES, k, RawValue(cx, quote, shipping, k)))
           else if k in f.included then Some(Null) else None
  {
    var raw := Raw(cx, f.included, quote, shipping);
    var out := Out(raw, f.readable);
    var embeds := ParseEmbeds(cx.loc, cx.embedParam, DEFAULT_EMBEDS);
    var embedded := Embedded(out, embeds, cx.subCallAllowed, cx.sub);
    RawLookup(cx, f.included, quote, shipping, "");
    OutDistinct(raw, f.readable);
    EmbeddedLookup(out, embeds, cx.subCallAllowed, cx.sub, "");
    CartTypesDistinct();
    TypedFinishShape(cx.loc, cx.currencyCode, embedded, CART_TYPES, f.included);
    forall k ensures Lookup(CartProjection(cx, f, quote, shipping), k) ==
           if k in embeds && EmbedAdds(k, cx.subCallAllowed) then Some(cx.sub(k))
           else if k in f.readable && Built(f.included, k) then Some(Typed(cx.loc, cx.currencyCode, CART_TYPES, k, RawValue(cx, quote, shipping, k)))
           else if k in f.included then Some(Null) else None
    {
      RawLookup(cx, f.included, quote, shipping, k);
      EmbeddedLookup(out, embeds, cx.subCallAllowed, cx.sub, k);
      if k in embeds && EmbedAdds(k, cx.subCallAllowed) {
        EmbedsUntyped(k);
      }
    }
  }

  /** `CartProjectionShape` at one code. */
  lemma CartProjectionAt(cx: CartContext, f: Filter, quote: map<string, Value>, shipping: map<string, Value>, k: string)
    ensures var embeds := ParseEmbeds(cx.loc, cx.embedParam, DEFAULT_EMBEDS);
      Lookup(CartProjection(cx, f, quote, shipping), k) ==
        if k in embeds && EmbedAdds(k, cx.subCallAllowed) then Some(cx.sub(k))
        else if k in f.readable && Built(f.included, k) then Some(Typed(cx.loc, cx.currencyCode, CART_TYPES, k, RawValue(cx, quote, shipping, k)))
        else if k in f.included then Some(Null) else None
  {
    CartProjectionShape(cx, f, quote, shipping);
  }

  /** The cart's type map casts qty to a float and shipping_method to text. */
  lemma CartTypeOf()
    ensures Lookup(CART_TYPES, "qty") == Some(TFloat)
    ensures Lookup(CART_TYPES, "shipping_method") == Some(TString)
  {
    assert |"coupon_code"| == 11 && |"has_error"| == 9 && |"shipping_method"| == 15 && |"qty"| == 3;
  }

  /** qty, shipping_method and payment are not embed names that call a sub-resource. */
  lemma NotEmbeds()
    ensures SubResource("qty") == None && SubResource("shipping_method") == None && SubResource("payment") == None
  {
    assert |"items"| == 5 && |"billing_address"| == 15 && |"shipping_address"| == 16 && |"crosssells"| == 10;
    assert |"payment"| == 7 && |"shipping_methods"| == 16 && |"qty"| == 3 && |"shipping_method"| == 15;
    assert "billing_address"[0] != "shipping_method"[0];
  }

  /** The readable qty is the item quantity or the item count, as the use_qty setting says, as a float. */
  lemma CartQty(cx: CartContext, f: Filter, quote: map<string, Value>, shipping: map<string, Value>)
    requires "qty" in f.readable && Castable(Qty(cx.useQty, quote))
    ensures Lookup(CartProjection(cx, f, quote, shipping), "qty") == Some(Float(ToFloat(Qty(cx.useQty, quote))))
  {
    CartProjectionAt(cx, f, quote, shipping, "qty");
    NotEmbeds();
    CartTypeOf();
    assert RawValue(cx, quote, shipping, "qty") == Qty(cx.useQty, quote);
  }

  /** The readable shipping_method is the shipping address's, as text. */
  lemma CartShippingMethod(cx: CartContext, f: Filter, quote: map<string, Value>, shipping: map<string, Value>)
    requires "shipping_method" in f.readable && Castable(Field(shipping, "shipping_method"))
    ensures Lookup(CartProjection(cx, f, quote, shipping), "shipping_method") == Some(Str(ToText(cx.loc, Field(shipping, "shipping_method"))))
  {
    CartProjectionAt(cx, f, quote, shipping, "shipping_method");
    NotEmbeds();
    CartTypeOf();
    var v := Field(shipping, "shipping_method");
    assert RawValue(cx, quote, shipping, "shipping_method") == v;
    assert !EmbedAdds("shipping_method", cx.subCallAllowed);
    assert Typed(cx.loc, cx.currencyCode, CART_TYPES, "shipping_method", v) == Str(ToText(cx.loc, v));
  }

  /** The payment is never embedded: an unreadable payment code is null when requested and absent otherwise. */
  lemma CartPaymentNotEmbedded(cx: CartContext, f: Filter, quote: map<string, Value>, shipping: map<string, Value>)
    requires "payment" !in f.readable
    ensures Lookup(CartProjection(cx, f, quote, shipping), "payment") == if "payment" in f.included then Some(Null) else None
  {
    CartProjectionAt(cx, f, quote, shipping, "payment");
    NotEmbeds();
  }

  /** `prepareResource($quote)`: the state is switched to entity retrieve for the filter and restored. */
  method PrepareResource(state: ResourceState, acl: (string, string) -> Filter, cx: CartContext, quote: Quote)
    returns (r: Record)
    modifies state
    ensures state.actionType == old(state.actionType) && state.operation == old(state.operation) && state.quote == old(state.quote)
    ensures r == CartProjection(cx, acl(ENTITY, RETRIEVE), quote.data, quote.shipping.data)
  {
    var actionType := state.actionType;
    var operation := state.operation;
    state.actionType := ENTITY;
    state.operation := RETRIEVE;
    var f := acl(ENTITY, RETRIEVE);
    var data := ReadCart(cx, f.included, quote);
    data := Out(data, f.readable);
    data := EmbedAll(data, ParseEmbeds(cx.loc, cx.embedParam, DEFAULT_EMBEDS), cx.subCallAllowed, cx.sub);
    data := FixTypes(cx.loc, cx.currencyCode, data, [], CART_TYPES);
    r := Finish(data, f.included);
    state.actionType := actionType;
    state.operation := operation;
  }

  /** The raw data of `prepareResource`: the requested attributes, the manual codes, the totals and the messages. */
  method ReadCart(cx: CartContext, included: seq<string>, quote: Quote) returns (data: Record)
    ensures data == Raw(cx, included, quote.data, quote.shipping.data)
  {
    data := LoadedAttributes(quote.data, included, CART_MANUAL, [], []);
    data := Put(data, "shipping_method", quote.shipping.Get("shipping_method"));
    data := Put(data, "qty", if cx.useQty then quote.Get("items_qty") else quote.Get("items_count"));
    if "totals" in included {
      var totals := CollectTotalsData(cx.loc, cx.currencyCode, cx.totals);
      data := Put(data, "totals", Dict(totals));
    }
    if "messages" in included {
      var groups := GroupMessages(cx.messages);
      data := Put(data, "messages", Dict(AsLists(groups)));
    }
  }

  /** The embed loop of `prepareResource`. */
  method EmbedAll(data: Record, embeds: seq<string>, subCallAllowed: string -> bool, sub: string -> Value) returns (r: Record)
    ensures r == Embedded(data, embeds, subCallAllowed, sub)
  {
    r := data;
    var i := 0;
    while i < |embeds|
      invariant 0 <= i <= |embeds|
      invariant r == Embedded(data, embeds[..i], subCallAllowed, sub)
    {
      assert embeds[..i + 1][..i] == embeds[..i];
      match SubResource(embeds[i]) {
        case Some(resource) =>
          if subCallAllowed(resource) {
            r := Put(r, embeds[i], sub(embeds[i]));
          }
        case None =>
      }
      i := i + 1;
    }
    assert embeds[..|embeds|] == embeds;
  }

  // ---------------------------------------------------------------------
  // Writing and deleting

  /** The quote's data after the written fields and the totals collection. */
  function Updated(quote: map<string, Value>, collected: bool, collect: map<string, Value> -> map<string, Value>, data: Record): map<string, Value> {
    WithTotals(collected, WrittenAll(quote, data), collect)
  }

  /**
   * `isset($data['coupon_code']) && $resource->getCouponCode() != $data['coupon_code']`:
   * a coupon code was written and the totals collection did not keep it.
   */
  predicate CouponRefused(data: Record, quote: map<string, Value>) {
    IsSet(data, "coupon_code") && Field(quote, "coupon_code") != Get(data, "coupon_code")
  }

  /**
   * `updateResource($quote, $data)` with the resource's attribute map `m`:
   * the writable fields of the body, renamed to internal fields, are set
   * on the quote and the totals collected. A coupon code the
   * collection did not keep is refused with 400 'Failed validation', and
   * the state is then left switched to entity update; otherwise it is
   * restored.
   */
  method UpdateResource(state: ResourceState, acl: (string, string) -> Filter, m: AttrMap, quote: Quote, body: Record,
                        collect: map<string, Value> -> map<string, Value>)
    returns (o: Outcome<()>)
    modifies state, quote
    ensures var data := MapAttributes(m, In(body, acl(ENTITY, UPDATE)));
      && quote.data == Updated(old(quote.data), old(quote.totalsCollectedFlag), collect, data)
      && quote.totalsCollectedFlag
      && (o.Fault? <==> CouponRefused(data, quote.data))
    ensures o.Fault? ==> o == Fault(BAD_REQUEST, "Failed validation") && state.actionType == ENTITY && state.operation == UPDATE
    ensures o.Done? ==> state.actionType == old(state.actionType) && state.operation == old(state.operation)
    ensures state.quote == old(state.quote)
    ensures quote.billing == old(quote.billing) && quote.shipping == old(quote.shipping) && quote.payment == old(quote.payment)
    ensures quote.items == old(quote.items) && quote.isVirtual == old(quote.isVirtual)
  {
    var actionType := state.actionType;
    var operation := state.operation;
    state.actionType := ENTITY;
    state.operation := UPDATE;
    var data := In(body, acl(ENTITY, UPDATE));
    data := MapAttributes(m, data);
    WriteQuote(quote, data);
    CollectTotals(quote, collect);
    if IsSet(data, "coupon_code") && quote.Get("coupon_code") != Get(data, "coupon_code") {
      return Fault(BAD_REQUEST, "Failed validation");
    }
    state.actionType := actionType;
    state.operation := operation;
    o := Done(());
  }

  /** `foreach ($data as $key => $value) $quote->setDataUsingMethod($key, $value);` */
  method WriteQuote(quote: Quote, data: Record)
    modifies quote
    ensures quote.data == WrittenAll(old(quote.data), data)
    ensures quote.billing == old(quote.billing) && quote.shipping == old(quote.shipping) && quote.payment == old(quote.payment)
    ensures quote.items == old(quote.items) && quote.isVirtual == old(quote.isVirtual)
    ensures quote.totalsCollectedFlag == old(quote.totalsCollectedFlag)
  {
    var i := 0;
    while i < |data|
      invariant 0 <= i <= |data|
      invariant quote.data == WrittenAll(old(quote.data), data[..i])
      invariant quote.billing == old(quote.billing) && quote.shipping == old(quote.shipping) && quote.payment == old(quote.payment)
      invariant quote.items == old(quote.items) && quote.isVirtual == old(quote.isVirtual)
      invariant quote.totalsCollectedFlag == old(quote.totalsCollectedFlag)
    {
      assert data[..i + 1][..i] == data[..i];
      quote.Set(data[i].0, data[i].1);
      i := i + 1;
    }
    assert data[..|data|] == data;
  }

  /**
   * A write keeps a coupon code exactly when the totals collection leaves
   * the quote holding it; a body with no coupon code (or a null one) is
   * never refused.
   */
  lemma CouponRule(quote: map<string, Value>, collected: bool, collect: map<string, Value> -> map<string, Value>, data: Record)
    ensures !IsSet(data, "coupon_code") ==> !CouponRefused(data, Updated(quote, collected, collect, data))
    ensures IsSet(data, "coupon_code") ==>
              (CouponRefused(data, Updated(quote, collected, collect, data))
               <==> Field(Updated(quote, collected, collect, data), "coupon_code") != Lookup(data, "coupon_code").value)
  {
  }

  /** The quote's data after delete, before the totals collection: deactivated, then reconciled on the save path. */
  function Deactivated(quote: map<string, Value>, billing: map<string, Value>): (map<string, Value>, map<string, Value>) {
    Synced(quote["is_active" := Bool(false)], billing, true)
  }

  /** Deleting a cart leaves it inactive; only its email can change besides. */
  lemma DeactivatedInactive(quote: map<string, Value>, billing: map<string, Value>, k: string)
    ensures Field(Deactivated(quote, billing).0, "is_active") == Bool(false)
    ensures k != "is_active" && k != "customer_email" ==> Field(Deactivated(quote, billing).0, k) == Field(quote, k)
  {
    SyncedOnlyEmails(quote["is_active" := Bool(false)], billing, true);
    assert |"is_active"| == 9 && |"customer_email"| == 14;
    assert Slot(Deactivated(quote, billing).0, "is_active") == Slot(quote["is_active" := Bool(false)], "is_active");
    if k != "is_active" && k != "customer_email" {
      assert Slot(Deactivated(quote, billing).0, k) == Slot(quote["is_active" := Bool(false)], k);
    }
  }

  /**
   * `dispatch()`: entity retrieve renders the cart; entity create and
   * update write it, save it and render it (or fail with 400 on a refused
   * coupon, before saving); entity delete deactivates and saves a quote
   * that has an id and answers with no body; anything else is 405.
   */
  method Dispatch(state: ResourceState, acl: (string, string) -> Filter, cx: CartContext, session: Quote, body: Record,
                  collect: map<string, Value> -> map<string, Value>)
    returns (o: Outcome<Reply>)
    requires session.Valid()
    requires state.quote == null || state.quote == session
    modifies state, session, session.billing, session.shipping
    ensures var op := old(state.actionType) + old(state.operation);
            var loaded := AfterLoad(old(state.quote) != null, old(session.data), old(session.billing.data));
            var collecting := old(session.shipping.data)["collect_shipping_rates" := Bool(true)];
      && (op == ENTITY + RETRIEVE ==>
            && o == Done(Reply(OK, Single(CartProjection(cx, acl(ENTITY, RETRIEVE), loaded.0, old(session.shipping.data)))))
            && session.data == loaded.0 && session.billing.data == loaded.1 && session.shipping.data == old(session.shipping.data))
      && (op == ENTITY + CREATE || op == ENTITY + UPDATE ==>
            var data := MapAttributes(CART_MAP, In(body, acl(ENTITY, UPDATE)));
            var updated := Updated(loaded.0, old(session.totalsCollectedFlag), collect, data);
            if CouponRefused(data, updated) then
              && o == Fault(BAD_REQUEST, "Failed validation")
              && session.data == updated && session.billing.data == loaded.1 && session.shipping.data == old(session.shipping.data)
            else
              && (session.data, session.billing.data) == Synced(updated, loaded.1, true)
              && session.shipping.data == collecting
              && o == Done(Reply(OK, Single(CartProjection(cx, acl(ENTITY, RETRIEVE), Synced(updated, loaded.1, true).0, collecting)))))
      && (op == ENTITY + DELETE ==>
            o == Done(Reply(OK, NoBody))
            && (Truthy(Field(loaded.0, "entity_id")) ==>
                  && session.data == WithTotals(old(session.totalsCollectedFlag), Deactivated(loaded.0, loaded.1).0, collect)
                  && session.billing.data == Deactivated(loaded.0, loaded.1).1
                  && session.shipping.data == collecting && session.totalsCollectedFlag)
            && (!Truthy(Field(loaded.0, "entity_id")) ==>
                  session.data == loaded.0 && session.billing.data == loaded.1 && session.shipping.data == old(session.shipping.data)))
      && (op !in {ENTITY + RETRIEVE, ENTITY + CREATE, ENTITY + UPDATE, ENTITY + DELETE} ==>
            && o == NotAllowed()
            && session.data == loaded.0 && session.billing.data == loaded.1 && session.shipping.data == old(session.shipping.data))
  {
    ghost var shipping := session.shipping.data;
    ghost var collected := session.totalsCollectedFlag;
    var quote := LoadQuote(state, session, false);
    ghost var loaded := AfterLoad(old(state.quote) != null, old(session.data), old(session.billing.data));
    assert session.data == loaded.0 && session.billing.data == loaded.1;
    assert session.shipping.data == shipping && session.totalsCollectedFlag == collected;
    var op := state.actionType + state.operation;
    OpsDistinct();
    if op == ENTITY + RETRIEVE {
      var r := PrepareResource(state, acl, cx, session);
      o := Done(Reply(OK, Single(r)));
      assert o == Done(Reply(OK, Single(CartProjection(cx, acl(ENTITY, RETRIEVE), loaded.0, shipping))));
    } else if op == ENTITY + CREATE || op == ENTITY + UPDATE {
      o := WriteCart(state, acl, cx, session, body, collect);
    } else if op == ENTITY + DELETE {
      o := DeleteCart(state, session, collect);
    } else {
      o := NotAllowed();
    }
  }

  /** Entity create and update: write the quote, save it and render it; a refused coupon fails before the save. */
  method WriteCart(state: ResourceState, acl: (string, string) -> Filter, cx: CartContext, session: Quote, body: Record,
                   collect: map<string, Value> -> map<string, Value>)
    returns (o: Outcome<Reply>)
    requires session.Valid() && state.quote == session
    modifies state, session, session.billing, session.shipping
    ensures var data := MapAttributes(CART_MAP, In(body, acl(ENTITY, UPDATE)));
            var updated := Updated(old(session.data), old(session.totalsCollectedFlag), collect, data);
            var collecting := old(session.shipping.data)["collect_shipping_rates" := Bool(true)];
            if CouponRefused(data, updated) then
              && o == Fault(BAD_REQUEST, "Failed validation")
              && session.data == updated && session.billing.data == old(session.billing.data)
              && session.shipping.data == old(session.shipping.data)
            else
              && (session.data, session.billing.data) == Synced(updated, old(session.billing.data), true)
              && session.shipping.data == collecting
              && o == Done(Reply(OK, Single(CartProjection(cx, acl(ENTITY, RETRIEVE), Synced(updated, old(session.billing.data), true).0, collecting))))
    ensures session.totalsCollectedFlag
  {
    var u := UpdateResource(state, acl, CART_MAP, session, body, collect);
    if u.Fault? {
      return Fault(u.code, u.message);
    }
    var _ := SaveQuote(state, session, collect);
    var r := PrepareResource(state, acl, cx, session);
    o := Done(Reply(OK, Single(r)));
  }

  /**
   * Entity delete: a quote with an id is deactivated and saved, which
   * collects its totals unless they already were; the answer has no body.
   */
  method DeleteCart(state: ResourceState, session: Quote, collect: map<string, Value> -> map<string, Value>) returns (o: Outcome<Reply>)
    requires session.Valid() && state.quote == session
    modifies state, session, session.billing, session.shipping
    ensures o == Done(Reply(OK, NoBody))
    ensures Truthy(Field(old(session.data), "entity_id")) ==>
              var deactivated := Deactivated(old(session.data), old(session.billing.data));
              && session.data == WithTotals(old(session.totalsCollectedFlag), deactivated.0, collect)
              && session.billing.data == deactivated.1
              && session.shipping.data == old(session.shipping.data)["collect_shipping_rates" := Bool(true)]
              && session.totalsCollectedFlag
    ensures !Truthy(Field(old(session.data), "entity_id")) ==>
              session.data == old(session.data) && session.billing.data == old(session.billing.data)
              && session.shipping.data == old(session.shipping.data)
  {
    if Truthy(session.Get("entity_id")) {
      session.Set("is_active", Bool(false));
      var _ := SaveQuote(state, session, collect);
    }
    o := Done(Reply(OK, NoBody));
  }
}
