/**
 * Model/ShippingMethod.php: the shipping rates of the cart, filtered,
 * ordered cheapest first and projected one by one.
 */
module ShippingMethod {
  import opened Wrappers
  import opened Values
  import opened Casts
  import opened Codec
  import opened KeySort
  import opened Projection
  import opened Typing
  import opened Pipeline
  import opened Objects
  import opened QuoteSync
  import opened Resource

  /**
   * A quote address rate: its data, Magento's deleted flag, the sort order
   * of its carrier instance (None when `getCarrierInstance()` gives
   * nothing), and `intval(round(floatval(price) * 10000))`, the price key
   * the comparator orders by.
   */
  datatype Rate = Rate(data: map<string, Value>, deleted: bool, carrier: Option<int>, priceKey: int)

  /** `$attributeMap`. */
  const RATE_MAP: AttrMap := [("description", "method_description")]

  /** `$attributeTypeMap`. */
  const RATE_TYPES: TypeMap := [("carrier", TString), ("carrier_title", TString), ("method", TString),
                                ("method_title", TString), ("description", TString), ("price", TCurrency)]

  predicate HasCarrier(r: Rate) {
    r.carrier.Some?
  }

  /** The method's own sort order, `intval($rate->getSortOrder())`. */
  function MethodOrder(r: Rate): int {
    ToInt(if "sort_order" in r.data then r.data["sort_order"] else Null)
  }

  /** `sortRates($a, $b)`: by price key, then carrier sort order, then method sort order, lowest first. */
  function Compare(a: Rate, b: Rate): int
    requires HasCarrier(a) && HasCarrier(b)
  {
    if a.priceKey < b.priceKey then -1
    else if a.priceKey > b.priceKey then 1
    else if a.carrier.value < b.carrier.value then -1
    else if a.carrier.value > b.carrier.value then 1
    else if MethodOrder(a) < MethodOrder(b) then -1
    else if MethodOrder(a) > MethodOrder(b) then 1
    else 0
  }

  /** The three sort keys of a rate. */
  function SortKey(r: Rate): (int, int, int)
    requires HasCarrier(r)
  {
    (r.priceKey, r.carrier.value, MethodOrder(r))
  }

  /** Lexicographic order on sort keys, as an independent reference. */
  predicate KeyBefore(x: (int, int, int), y: (int, int, int)) {
    x.0 < y.0 || (x.0 == y.0 && (x.1 < y.1 || (x.1 == y.1 && x.2 < y.2)))
  }

  /**
   * The comparator is the lexicographic order of the three keys: it is
   * negative iff a's keys come first, zero iff all three keys are equal,
   * and swapping the arguments negates it.
   */
  lemma CompareIsLexicographic(a: Rate, b: Rate)
    requires HasCarrier(a) && HasCarrier(b)
    ensures Compare(a, b) in {-1, 0, 1}
    ensures Compare(a, b) < 0 <==> KeyBefore(SortKey(a), SortKey(b))
    ensures Compare(a, b) == 0 <==> SortKey(a) == SortKey(b)
    ensures Compare(a, b) == -Compare(b, a)
  {
  }

  /** The comparator is a total preorder: "not after" is transitive. */
  lemma CompareTransitive(a: Rate, b: Rate, c: Rate)
    requires HasCarrier(a) && HasCarrier(b) && HasCarrier(c)
    requires Compare(a, b) <= 0 && Compare(b, c) <= 0
    ensures Compare(a, c) <= 0
  {
  }

  /** The rates `prepareCollection` keeps: not deleted and with a carrier instance, in collection order. */
  function Usable(rates: seq<Rate>): (r: seq<Rate>)
    ensures forall x :: x in r <==> x in rates && !x.deleted && HasCarrier(x)
    ensures |r| <= |rates|
  {
    if |rates| == 0 then []
    else
      var init := Usable(rates[..|rates| - 1]);
      var last := rates[|rates| - 1];
      assert forall x :: x in rates <==> x in rates[..|rates| - 1] || x == last;
      if !last.deleted && HasCarrier(last) then init + [last] else init
  }

  predicate AllHaveCarrier(rates: seq<Rate>) {
    forall i :: 0 <= i < |rates| ==> HasCarrier(rates[i])
  }

  predicate SortedRates(rates: seq<Rate>)
    requires AllHaveCarrier(rates)
  {
    forall i, j :: 0 <= i < j < |rates| ==> Compare(rates[i], rates[j]) <= 0
  }

  /** Places a rate before the first rate it does not come after; equal rates keep their order. */
  function InsertRate(x: Rate, s: seq<Rate>): (r: seq<Rate>)
    requires HasCarrier(x) && AllHaveCarrier(s)
    ensures multiset(r) == multiset(s) + multiset{x}
    ensures AllHaveCarrier(r)
  {
    if |s| == 0 then [x]
    else if Compare(x, s[0]) <= 0 then [x] + s
    else
      assert s == [s[0]] + s[1..];
      var rest := InsertRate(x, s[1..]);
      assert forall y :: y in rest ==> y in multiset(rest);
      [s[0]] + rest
  }

  /** `uasort($rates, [$this, 'sortRates'])`, as a stable insertion sort. */
  function SortRates(rates: seq<Rate>): (r: seq<Rate>)
    requires AllHaveCarrier(rates)
    ensures multiset(r) == multiset(rates)
    ensures AllHaveCarrier(r)
  {
    if |rates| == 0 then []
    else
      assert rates == [rates[0]] + rates[1..];
      InsertRate(rates[0], SortRates(rates[1..]))
  }

  lemma {:induction false} InsertRateSorted(x: Rate, s: seq<Rate>)
    requires HasCarrier(x) && AllHaveCarrier(s) && SortedRates(s)
    ensures SortedRates(InsertRate(x, s))
  {
    if |s| > 0 {
      if Compare(x, s[0]) <= 0 {
        forall j | 0 <= j < |s| ensures Compare(x, s[j]) <= 0 {
          if j > 0 { CompareTransitive(x, s[0], s[j]); }
        }
        ConsSorted(x, s);
      } else {
        InsertRateSorted(x, s[1..]);
        CompareIsLexicographic(x, s[0]);
        InsertRateAfterHead(x, s);
        ConsSorted(s[0], InsertRate(x, s[1..]));
      }
    }
  }

  /** A rate that comes before every rate of a sorted sequence can be put in front of it. */
  lemma ConsSorted(a: Rate, t: seq<Rate>)
    requires HasCarrier(a) && AllHaveCarrier(t) && SortedRates(t)
    requires forall j :: 0 <= j < |t| ==> Compare(a, t[j]) <= 0
    ensures AllHaveCarrier([a] + t) && SortedRates([a] + t)
  {
    var r := [a] + t;
    forall i, j | 0 <= i < j < |r| ensures Compare(r[i], r[j]) <= 0 {
      assert r[j] == t[j - 1];
      if i > 0 {
        assert r[i] == t[i - 1];
      }
    }
  }

  /** Inserting a later rate into the tail of a sorted sequence keeps every rate at or after its head. */
  lemma InsertRateAfterHead(x: Rate, s: seq<Rate>)
    requires HasCarrier(x) && AllHaveCarrier(s) && SortedRates(s) && |s| > 0
    requires Compare(s[0], x) <= 0
    ensures forall j :: 0 <= j < |InsertRate(x, s[1..])| ==> Compare(s[0], InsertRate(x, s[1..])[j]) <= 0
  {
    var rest := InsertRate(x, s[1..]);
    forall j | 0 <= j < |rest| ensures Compare(s[0], rest[j]) <= 0 {
      var y := rest[j];
      assert y in multiset(rest);
      assert y in multiset(s[1..]) + multiset{x};
      if y in multiset(s[1..]) {
        var i :| 0 <= i < |s| - 1 && s[1..][i] == y;
        assert s[i + 1] == y;
      }
    }
  }

  /** The sorted rates are in comparator order and are a permutation of the input. */
  lemma {:induction false} SortRatesCorrect(rates: seq<Rate>)
    requires AllHaveCarrier(rates)
    ensures SortedRates(SortRates(rates)) && multiset(SortRates(rates)) == multiset(rates)
  {
    if |rates| > 0 {
      SortRatesCorrect(rates[1..]);
      InsertRateSorted(rates[0], SortRates(rates[1..]));
    }
  }

  /** `prepareRate($rate, $filter)`: read the requested codes (description from method_description), then the pipeline. */
  function PrepareRate(loc: Locale, currencyCode: Value, rate: Rate, readable: set<string>, requested: seq<string>): Record {
    Projected(loc, currencyCode, ReadInto([], Plan(requested, RATE_MAP), rate.data), readable, RATE_TYPES, requested)
  }

  /**
   * A rate projection is sorted, has every requested code, and holds for
   * each readable requested code the rate's field typed by the type map:
   * 'description' is read from the internal 'method_description'.
   */
  lemma PrepareRateShape(loc: Locale, currencyCode: Value, rate: Rate, readable: set<string>, requested: seq<string>)
    ensures var r := PrepareRate(loc, currencyCode, rate, readable, requested);
      && SortedKeys(r)
      && (forall c :: c in requested ==> HasKey(r, c))
      && (forall k :: HasKey(r, k) ==> k in requested)
      && (forall k :: k in requested && k in readable ==>
            Lookup(r, k) == Some(Typed(loc, currencyCode, RATE_TYPES, k, Field(rate.data, Rename(RATE_MAP, k)))))
      && (forall k :: k in requested && k !in readable ==> Lookup(r, k) == Some(Null))
      && ("description" in requested && "description" in readable ==>
            Lookup(r, "description") == Some(Typed(loc, currencyCode, RATE_TYPES, "description", Field(rate.data, "method_description"))))
  {
    var plan := Plan(requested, RATE_MAP);
    var raw := ReadInto([], plan, rate.data);
    ReadIntoDistinct([], plan, rate.data);
    forall k ensures Lookup(raw, k) == if k in requested then Some(Field(rate.data, Rename(RATE_MAP, k))) else None {
      ReadIntoLookup([], plan, rate.data, k);
    }
    assert DistinctKeys(RATE_TYPES);
    ProjectedShape(loc, currencyCode, raw, readable, RATE_TYPES, requested);
    assert Rename(RATE_MAP, "description") == "method_description";
  }

  /** The usable rates, in comparator order. */
  function OrderedRates(rates: seq<Rate>): seq<Rate>
    ensures AllHaveCarrier(OrderedRates(rates))
  {
    var u := Usable(rates);
    assert AllHaveCarrier(u);
    SortRates(u)
  }

  /**
   * The rates `prepareCollection` lists are exactly the usable ones, each
   * as often as in the collection, in comparator order.
   */
  lemma OrderedRatesCorrect(rates: seq<Rate>)
    ensures SortedRates(OrderedRates(rates))
    ensures forall x :: x in OrderedRates(rates) <==> x in rates && !x.deleted && HasCarrier(x)
    ensures multiset(OrderedRates(rates)) == multiset(Usable(rates))
  {
    var u := Usable(rates);
    SortRatesCorrect(u);
    forall x ensures x in OrderedRates(rates) <==> x in u {
      assert x in OrderedRates(rates) <==> x in multiset(OrderedRates(rates));
      assert x in u <==> x in multiset(u);
    }
  }

  /** The filter loop of `prepareCollection`. */
  method CollectUsable(rates: seq<Rate>) returns (usable: seq<Rate>)
    ensures usable == Usable(rates)
  {
    usable := [];
    var i := 0;
    while i < |rates|
      invariant 0 <= i <= |rates|
      invariant usable == Usable(rates[..i])
    {
      assert rates[..i + 1][..i] == rates[..i];
      if !rates[i].deleted && rates[i].carrier.Some? {
        usable := usable + [rates[i]];
      }
      i := i + 1;
    }
    assert rates[..|rates|] == rates;
  }

  /** The projection loop of `prepareCollection`: one projection per rate, in order. */
  method PrepareRates(loc: Locale, currencyCode: Value, ordered: seq<Rate>, readable: set<string>, requested: seq<string>)
    returns (data: seq<Record>)
    ensures |data| == |ordered|
    ensures forall i :: 0 <= i < |data| ==> data[i] == PrepareRate(loc, currencyCode, ordered[i], readable, requested)
  {
    data := [];
    var i := 0;
    while i < |ordered|
      invariant 0 <= i <= |ordered|
      invariant |data| == i
      invariant forall j :: 0 <= j < i ==> data[j] == PrepareRate(loc, currencyCode, ordered[j], readable, requested)
    {
      data := data + [PrepareRate(loc, currencyCode, ordered[i], readable, requested)];
      i := i + 1;
    }
  }

  /**
   * `prepareCollection($quote)`: a virtual quote gives an empty list and
   * touches nothing; otherwise the shipping address is flagged to collect
   * rates and collects them (`collectRates`, Magento's own code), the
   * usable rates of the collection Magento then holds (`rates`) are
   * ordered and each is projected, and the action type and operation are
   * restored.
   */
  method PrepareCollection(state: ResourceState, quote: Quote, rates: seq<Rate>, loc: Locale, readable: set<string>, requested: seq<string>,
                           collectRates: map<string, Value> -> map<string, Value>)
    returns (data: seq<Record>)
    modifies state, quote.shipping
    ensures state.actionType == old(state.actionType) && state.operation == old(state.operation) && state.quote == old(state.quote)
    ensures quote.isVirtual ==> data == [] && quote.shipping.data == old(quote.shipping.data)
    ensures !quote.isVirtual ==> quote.shipping.data == collectRates(old(quote.shipping.data)["collect_shipping_rates" := Bool(true)])
    ensures !quote.isVirtual ==>
              var ordered := OrderedRates(rates);
              |data| == |ordered|
              && forall i :: 0 <= i < |data| ==>
                   data[i] == PrepareRate(loc, quote.Get("quote_currency_code"), ordered[i], readable, requested)
  {
    if quote.isVirtual {
      return [];
    }
    var actionType := state.actionType;
    var operation := state.operation;
    state.actionType := COLLECTION;
    state.operation := RETRIEVE;
    quote.shipping.Set("collect_shipping_rates", Bool(true));
    quote.shipping.data := collectRates(quote.shipping.data);
    var usable := CollectUsable(rates);
    assert AllHaveCarrier(usable);
    var ordered := SortRates(usable);
    data := PrepareRates(loc, quote.Get("quote_currency_code"), ordered, readable, requested);
    state.actionType := actionType;
    state.operation := operation;
  }

  /** `dispatch()`: collection retrieve lists the rates; anything else is 405. */
  method Dispatch(state: ResourceState, session: Quote, rates: seq<Rate>, loc: Locale, readable: set<string>, requested: seq<string>,
                  collectRates: map<string, Value> -> map<string, Value>)
    returns (o: Outcome<seq<Record>>)
    requires session.Valid()
    requires state.quote == null || state.quote == session
    modifies state, session, session.billing, session.shipping
    ensures state.actionType == old(state.actionType) && state.operation == old(state.operation)
    ensures session.billing == old(session.billing) && session.shipping == old(session.shipping)
    ensures session.isVirtual == old(session.isVirtual) && session.items == old(session.items)
    ensures (session.data, session.billing.data) == AfterLoad(old(state.quote) != null, old(session.data), old(session.billing.data))
    ensures state.actionType + state.operation != COLLECTION + RETRIEVE ==>
              o == NotAllowed() && session.shipping.data == old(session.shipping.data)
    ensures state.actionType + state.operation == COLLECTION + RETRIEVE ==>
              && o.Done?
              && (old(session.isVirtual) ==> o.value == [] && session.shipping.data == old(session.shipping.data))
              && (!old(session.isVirtual) ==>
                    var currencyCode := Field(AfterLoad(old(state.quote) != null, old(session.data), old(session.billing.data)).0,
                                              "quote_currency_code");
                    var ordered := OrderedRates(rates);
                    && session.shipping.data == collectRates(old(session.shipping.data)["collect_shipping_rates" := Bool(true)])
                    && |o.value| == |ordered|
                    && forall i :: 0 <= i < |ordered| ==> o.value[i] == PrepareRate(loc, currencyCode, ordered[i], readable, requested))
  {
    var quote := LoadQuote(state, session, false);
    if state.actionType + state.operation == COLLECTION + RETRIEVE {
      var data := PrepareCollection(state, quote, rates, loc, readable, requested, collectRates);
      o := Done(data);
    } else {
      o := NotAllowed();
    }
  }
}
