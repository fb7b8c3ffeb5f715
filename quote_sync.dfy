/**
 * `loadQuote` and `saveQuote` (Model/Resource.php and Helper/Data.php):
 * the quote is taken from the checkout session once and cached, and on
 * both paths the quote's customer_email and the billing address's email
 * are reconciled. The load path lets billing win a mismatch, the save
 * path lets the quote win.
 */
module QuoteSync {
  import opened Wrappers
  import opened Values
  import opened Casts
  import opened Objects

  /** A data key as `hasData`/`getData` see it: absent, or present with a value. */
  function Slot(data: map<string, Value>, k: string): Option<Value> {
    if k in data then Some(data[k]) else None
  }

  /** `map` with a key set to a slot's content, or removed when the slot is empty. */
  function WithSlot(data: map<string, Value>, k: string, o: Option<Value>): map<string, Value> {
    match o
    case Some(v) => data[k := v]
    case None => data - {k}
  }

  /** The email reconciliation of `loadQuote`: (quote email, billing email) before and after. */
  function SyncOnLoad(quoteEmail: Option<Value>, billingEmail: Option<Value>): (Option<Value>, Option<Value>) {
    if quoteEmail.Some? && billingEmail.None? then (quoteEmail, quoteEmail)
    else if quoteEmail.None? && billingEmail.Some? then (billingEmail, billingEmail)
    else if quoteEmail.Some? && billingEmail.Some? && quoteEmail.value != billingEmail.value then (billingEmail, billingEmail)
    else (quoteEmail, billingEmail)
  }

  /** The email reconciliation of `saveQuote`: the same, except that the quote's email wins a mismatch. */
  function SyncOnSave(quoteEmail: Option<Value>, billingEmail: Option<Value>): (Option<Value>, Option<Value>) {
    if quoteEmail.Some? && billingEmail.None? then (quoteEmail, quoteEmail)
    else if quoteEmail.None? && billingEmail.Some? then (billingEmail, billingEmail)
    else if quoteEmail.Some? && billingEmail.Some? && quoteEmail.value != billingEmail.value then (quoteEmail, quoteEmail)
    else (quoteEmail, billingEmail)
  }

  /**
   * After either reconciliation, if either email was present then both are
   * present and equal; if neither was, both stay absent. A single present
   * email is copied to the other side.
   */
  lemma SyncConverges(q: Option<Value>, b: Option<Value>)
    ensures var (q1, b1) := SyncOnLoad(q, b);
            (q.Some? || b.Some? ==> q1.Some? && q1 == b1) && (q.None? && b.None? ==> q1.None? && b1.None?)
    ensures var (q2, b2) := SyncOnSave(q, b);
            (q.Some? || b.Some? ==> q2.Some? && q2 == b2) && (q.None? && b.None? ==> q2.None? && b2.None?)
    ensures q.Some? && b.None? ==> SyncOnLoad(q, b) == (q, q) && SyncOnSave(q, b) == (q, q)
    ensures q.None? && b.Some? ==> SyncOnLoad(q, b) == (b, b) && SyncOnSave(q, b) == (b, b)
  {
  }

  /** With both emails present, the load path keeps billing's and the save path keeps the quote's. */
  lemma SyncTieBreaks(q: Value, b: Value)
    ensures SyncOnLoad(Some(q), Some(b)) == (Some(b), Some(b))
    ensures SyncOnSave(Some(q), Some(b)) == (Some(q), Some(q))
    ensures q != b ==> SyncOnLoad(Some(q), Some(b)) != SyncOnSave(Some(q), Some(b))
  {
  }

  /** Reconciling twice is reconciling once, on either path. */
  lemma SyncIdempotent(q: Option<Value>, b: Option<Value>)
    ensures var (q1, b1) := SyncOnLoad(q, b); SyncOnLoad(q1, b1) == (q1, b1)
    ensures var (q2, b2) := SyncOnSave(q, b); SyncOnSave(q2, b2) == (q2, b2)
  {
  }

  /** The quote's data and the billing address's data after one reconciliation, on the save path or the load path. */
  function Synced(quoteData: map<string, Value>, billingData: map<string, Value>, onSave: bool): (map<string, Value>, map<string, Value>) {
    var q := Slot(quoteData, "customer_email");
    var b := Slot(billingData, "email");
    var emails := if onSave then SyncOnSave(q, b) else SyncOnLoad(q, b);
    (WithSlot(quoteData, "customer_email", emails.0), WithSlot(billingData, "email", emails.1))
  }

  /** The same data after `loadQuote`: unchanged when the cached quote is returned. */
  function AfterLoad(cached: bool, quoteData: map<string, Value>, billingData: map<string, Value>): (map<string, Value>, map<string, Value>) {
    if cached then (quoteData, billingData) else Synced(quoteData, billingData, false)
  }

  /** The same data after `saveQuote`, which loads the quote first. */
  function AfterSave(cached: bool, quoteData: map<string, Value>, billingData: map<string, Value>): (map<string, Value>, map<string, Value>) {
    var loaded := AfterLoad(cached, quoteData, billingData);
    Synced(loaded.0, loaded.1, true)
  }

  /**
   * A reconciliation writes the two emails it computes and changes no
   * other key of the quote or the billing address.
   */
  lemma SyncedOnlyEmails(quoteData: map<string, Value>, billingData: map<string, Value>, onSave: bool)
    ensures var (q, b) := Synced(quoteData, billingData, onSave);
            var emails := if onSave then SyncOnSave(Slot(quoteData, "customer_email"), Slot(billingData, "email"))
                          else SyncOnLoad(Slot(quoteData, "customer_email"), Slot(billingData, "email"));
            && Slot(q, "customer_email") == emails.0 && Slot(b, "email") == emails.1
            && (forall k :: k != "customer_email" ==> Slot(q, k) == Slot(quoteData, k))
            && (forall k :: k != "email" ==> Slot(b, k) == Slot(billingData, k))
  {
  }

  /** Applies a reconciliation to the quote and its billing address. */
  method SyncEmails(quote: Quote, onSave: bool)
    requires quote.billing != quote.shipping
    modifies quote, quote.billing
    ensures (quote.data, quote.billing.data) == Synced(old(quote.data), old(quote.billing.data), onSave)
    ensures quote.billing == old(quote.billing) && quote.shipping == old(quote.shipping) && quote.payment == old(quote.payment)
    ensures quote.shipping.data == old(quote.shipping.data)
    ensures quote.items == old(quote.items) && quote.totalsCollectedFlag == old(quote.totalsCollectedFlag)
    ensures quote.isVirtual == old(quote.isVirtual)
  {
    var q := Slot(quote.data, "customer_email");
    var b := Slot(quote.billing.data, "email");
    var emails := if onSave then SyncOnSave(q, b) else SyncOnLoad(q, b);
    if emails.0.Some? {
      quote.data := quote.data["customer_email" := emails.0.value];
    } else {
      quote.data := quote.data - {"customer_email"};
    }
    var billing := quote.billing;
    if emails.1.Some? {
      billing.data := billing.data["email" := emails.1.value];
    } else {
      billing.data := billing.data - {"email"};
    }
  }

  /** The reconciliations only ever write a key, never remove one. */
  lemma SyncNeverRemoves(q: Option<Value>, b: Option<Value>)
    ensures q.Some? ==> SyncOnLoad(q, b).0.Some? && SyncOnSave(q, b).0.Some?
    ensures b.Some? ==> SyncOnLoad(q, b).1.Some? && SyncOnSave(q, b).1.Some?
  {
  }

  /**
   * `loadQuote($forceReload)`: with no cached quote, or when forced, the
   * session's quote is reconciled on the load path and cached; otherwise the
   * cached quote is returned untouched.
   */
  method LoadQuote(state: ResourceState, session: Quote, forceReload: bool) returns (q: Quote)
    requires session.billing != session.shipping
    modifies state, session, session.billing
    ensures state.actionType == old(state.actionType) && state.operation == old(state.operation)
    ensures old(state.quote) == null || forceReload ==> q == session && state.quote == session
    ensures old(state.quote) != null && !forceReload ==> q == old(state.quote) && state.quote == q
    ensures (session.data, session.billing.data)
            == AfterLoad(old(state.quote) != null && !forceReload, old(session.data), old(session.billing.data))
    ensures session.billing == old(session.billing) && session.shipping == old(session.shipping) && session.payment == old(session.payment)
    ensures session.shipping.data == old(session.shipping.data)
    ensures session.totalsCollectedFlag == old(session.totalsCollectedFlag) && session.items == old(session.items)
    ensures session.isVirtual == old(session.isVirtual)
  {
    if state.quote == null || forceReload {
      SyncEmails(session, false);
      state.quote := session;
      q := session;
    } else {
      q := state.quote;
    }
  }

  /**
   * Magento's `collectTotals()` on the quote: it does its work (here the
   * given effect on the quote's data) only while the totals-collected flag
   * is clear, and sets the flag.
   */
  method CollectTotals(quote: Quote, collect: map<string, Value> -> map<string, Value>)
    modifies quote
    ensures quote.data == WithTotals(old(quote.totalsCollectedFlag), old(quote.data), collect)
    ensures quote.totalsCollectedFlag
    ensures quote.billing == old(quote.billing) && quote.shipping == old(quote.shipping) && quote.payment == old(quote.payment)
    ensures quote.items == old(quote.items) && quote.isVirtual == old(quote.isVirtual)
  {
    if !quote.totalsCollectedFlag {
      quote.data := collect(quote.data);
      quote.totalsCollectedFlag := true;
    }
  }

  /** The quote's data after `collectTotals()`: collected unless the flag says it already was. */
  function WithTotals(flagged: bool, data: map<string, Value>, collect: map<string, Value> -> map<string, Value>): map<string, Value> {
    if flagged then data else collect(data)
  }

  /**
   * The quote's and the billing address's data after `saveQuote`: loaded,
   * reconciled on the save path, then the quote's totals collected unless
   * the flag says they already were.
   */
  function SavedQuote(cached: bool, flagged: bool, collect: map<string, Value> -> map<string, Value>,
                 quoteData: map<string, Value>, billingData: map<string, Value>): (map<string, Value>, map<string, Value>) {
    var synced := AfterSave(cached, quoteData, billingData);
    (WithTotals(flagged, synced.0, collect), synced.1)
  }

  /**
   * Saving a quote whose totals were collected only reconciles the emails;
   * otherwise the totals are collected over the reconciled data, and only
   * the billing address's email differs from the loaded billing data.
   */
  lemma SavedCases(cached: bool, flagged: bool, collect: map<string, Value> -> map<string, Value>,
                   quoteData: map<string, Value>, billingData: map<string, Value>)
    ensures flagged ==> SavedQuote(cached, flagged, collect, quoteData, billingData) == AfterSave(cached, quoteData, billingData)
    ensures !flagged ==> SavedQuote(cached, flagged, collect, quoteData, billingData).0 == collect(AfterSave(cached, quoteData, billingData).0)
    ensures var b := AfterLoad(cached, quoteData, billingData).1;
            forall k :: k != "email" ==> Slot(SavedQuote(cached, flagged, collect, quoteData, billingData).1, k) == Slot(b, k)
  {
    var loaded := AfterLoad(cached, quoteData, billingData);
    SyncedOnlyEmails(loaded.0, loaded.1, true);
  }

  /**
   * `saveQuote` of Model/Resource.php: the quote (from the cache, which
   * holds the session's quote) is reconciled on the save path, the
   * shipping address is told to collect rates again, and the totals are
   * collected.
   */
  method SaveQuote(state: ResourceState, session: Quote, collect: map<string, Value> -> map<string, Value>) returns (q: Quote)
    requires session.Valid()
    requires state.quote == null || state.quote == session
    modifies state, session, session.billing, session.shipping
    ensures q == session && state.quote == session
    ensures state.actionType == old(state.actionType) && state.operation == old(state.operation)
    ensures (q.data, q.billing.data)
            == SavedQuote(old(state.quote) != null, old(session.totalsCollectedFlag), collect, old(session.data), old(session.billing.data))
    ensures q.billing == old(session.billing) && q.shipping == old(session.shipping) && q.payment == old(session.payment)
    ensures q.shipping.data == old(session.shipping.data)["collect_shipping_rates" := Bool(true)]
    ensures q.totalsCollectedFlag && q.items == old(session.items)
    ensures q.isVirtual == old(session.isVirtual)
    ensures old(state.quote) != null ==> View(q) == AfterSaves(1, collect, old(View(session)))
  {
    q := LoadQuote(state, session, false);
    SyncEmails(q, true);
    q.shipping.Set("collect_shipping_rates", Bool(true));
    CollectTotals(q, collect);
  }

  /** The parts of a quote that loading and saving change: its data, its two addresses' data and its totals flag. */
  datatype QuoteView = QuoteView(data: map<string, Value>, billing: map<string, Value>, shipping: map<string, Value>, collected: bool)

  function View(q: Quote): QuoteView
    reads q, q.billing, q.shipping
  {
    QuoteView(q.data, q.billing.data, q.shipping.data, q.totalsCollectedFlag)
  }

  /** The view after `loadQuote`: the emails reconciled on the load path unless the quote was cached. */
  function LoadedView(cached: bool, v: QuoteView): QuoteView {
    var loaded := AfterLoad(cached, v.data, v.billing);
    v.(data := loaded.0, billing := loaded.1)
  }

  /** The view of a loaded quote after `saves` calls of `saveQuote`. */
  function AfterSaves(saves: nat, collect: map<string, Value> -> map<string, Value>, v: QuoteView): QuoteView
    decreases saves
  {
    if saves == 0 then v
    else
      var saved := SavedQuote(true, v.collected, collect, v.data, v.billing);
      AfterSaves(saves - 1, collect, QuoteView(saved.0, saved.1, v.shipping["collect_shipping_rates" := Bool(true)], true))
  }

  /**
   * A save leaves the totals collected and the shipping address flagged to
   * collect rates; the first save collects the totals unless they already
   * were, and every further save only reconciles the emails again.
   */
  lemma {:induction false} AfterSavesFacts(saves: nat, collect: map<string, Value> -> map<string, Value>, v: QuoteView)
    requires saves > 0
    ensures var r := AfterSaves(saves, collect, v);
            var once := SavedQuote(true, v.collected, collect, v.data, v.billing);
            && r.collected
            && r.shipping == v.shipping["collect_shipping_rates" := Bool(true)]
            && (saves == 1 ==> (r.data, r.billing) == once)
            && (saves > 1 ==> (r.data, r.billing) == Synced(once.0, once.1, true))
  {
    if saves > 1 {
      var once := SavedQuote(true, v.collected, collect, v.data, v.billing);
      var w := QuoteView(once.0, once.1, v.shipping["collect_shipping_rates" := Bool(true)], true);
      AfterSavesFacts(saves - 1, collect, w);
      if saves > 2 {
        var twice := Synced(once.0, once.1, true);
        SyncedTwice(once.0, once.1);
        assert SavedQuote(true, true, collect, twice.0, twice.1) == twice;
      }
    }
  }

  /** Reconciling the saved data again changes nothing. */
  lemma SyncedTwice(quoteData: map<string, Value>, billingData: map<string, Value>)
    ensures var once := Synced(quoteData, billingData, true);
            Synced(once.0, once.1, true) == once
  {
    var q := Slot(quoteData, "customer_email");
    var b := Slot(billingData, "email");
    SyncIdempotent(q, b);
    var emails := SyncOnSave(q, b);
    WithSlotAgain(quoteData, "customer_email", emails.0);
    WithSlotAgain(billingData, "email", emails.1);
  }

  /** Writing a slot that already holds its content changes nothing. */
  lemma WithSlotAgain(data: map<string, Value>, k: string, o: Option<Value>)
    ensures Slot(WithSlot(data, k, o), k) == o
    ensures WithSlot(WithSlot(data, k, o), k, o) == WithSlot(data, k, o)
  {
    if o.None? {
      assert (data - {k}) - {k} == data - {k};
    }
  }

  /** The shipping-address keys Helper/Data.php drops when the cart is empty. */
  const CACHED_ITEM_KEYS: set<string> := {"cached_items_all", "cached_items_nominal", "cached_items_nonnominal"}

  /**
   * `saveQuote` of Helper/Data.php: the same reconciliation, rate flag and
   * totals collection; with zero items it first drops the shipping
   * address's cached item lists and clears the totals-collected flag, so
   * the totals are collected afresh.
   */
  method HelperSaveQuote(state: ResourceState, session: Quote, collect: map<string, Value> -> map<string, Value>) returns (q: Quote)
    requires session.Valid()
    requires state.quote == null || state.quote == session
    modifies state, session, session.billing, session.shipping
    ensures q == session && state.quote == session
    ensures var empty := ToInt(Field(AfterSave(old(state.quote) != null, old(session.data), old(session.billing.data)).0, "items_count")) == 0;
            var flagged := old(session.shipping.data)["collect_shipping_rates" := Bool(true)];
            && (q.data, q.billing.data)
               == SavedQuote(old(state.quote) != null, old(session.totalsCollectedFlag) && !empty, collect, old(session.data), old(session.billing.data))
            && q.shipping.data == (if empty then flagged - CACHED_ITEM_KEYS else flagged)
            && q.totalsCollectedFlag
  {
    q := LoadQuote(state, session, false);
    SyncEmails(q, true);
    q.shipping.Set("collect_shipping_rates", Bool(true));
    if ToInt(q.Get("items_count")) == 0 {
      ghost var flagged := q.shipping.data;
      q.shipping.Unset("cached_items_all");
      q.shipping.Unset("cached_items_nominal");
      q.shipping.Unset("cached_items_nonnominal");
      assert q.shipping.data == flagged - CACHED_ITEM_KEYS;
      q.totalsCollectedFlag := false;
    }
    CollectTotals(q, collect);
  }
}
