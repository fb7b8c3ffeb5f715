/**
 * Model/PaymentMethods.php: the payment methods the quote may use. The
 * store's methods are listed in their order when they pass the country,
 * currency and order-total checks and the zero-total check; each is
 * rendered from its requested codes, with the card types it accepts.
 */
module PaymentMethods {
  import opened Wrappers
  import opened Values
  import opened Text
  import opened Codec
  import opened KeySort
  import opened Projection
  import opened Objects
  import opened QuoteSync
  import opened Resource
  import opened Payment

  /**
   * A `Mage_Payment_Model_Method_Abstract` as the listing sees it: what
   * `getDataUsingMethod` reads (code, title, …) and its `cctypes` setting.
   */
  datatype PaymentMethod = PaymentMethod(fields: map<string, Value>, ccTypesConfig: string)

  /** The checks of `_canUseMethod`: country, currency and order total limits. */
  const USE_CHECKS: bv8 := CHECK_USE_FOR_COUNTRY | CHECK_USE_FOR_CURRENCY | CHECK_ORDER_TOTAL_MIN_MAX

  /** The checks of `_canUseMethod` are 35: those three flags and no other. */
  lemma UseChecksFlags()
    ensures USE_CHECKS as int == 35
    ensures USE_CHECKS & CHECK_USE_FOR_COUNTRY != 0 && USE_CHECKS & CHECK_USE_FOR_CURRENCY != 0
    ensures USE_CHECKS & CHECK_ORDER_TOTAL_MIN_MAX != 0
    ensures USE_CHECKS & (CHECK_USE_CHECKOUT | CHECK_USE_FOR_MULTISHIPPING | CHECK_USE_INTERNAL | CHECK_RECURRING_PROFILES | CHECK_ZERO_TOTAL) == 0
  {
  }

  /**
   * Whether a method is listed, given `isApplicableToQuote($quote, $checks)`
   * as `applicable`: it passes `_canUseMethod` and then the zero-total check.
   */
  predicate Listed(applicable: (PaymentMethod, bv8) -> bool, m: PaymentMethod) {
    applicable(m, USE_CHECKS) && applicable(m, CHECK_ZERO_TOTAL)
  }

  /** The configured card types (code to title, in configuration order) whose code is allowed, in the same order. */
  function Kept(types: Assoc<string>, allowed: seq<string>): Assoc<string> {
    if |types| == 0 then []
    else
      var last := types[|types| - 1];
      Kept(types[..|types| - 1], allowed) + (if last.0 in allowed then [last] else [])
  }

  /**
   * Keeping card types keeps each allowed code with its title and drops
   * every other code.
   */
  lemma {:induction false} KeptLookup(types: Assoc<string>, allowed: seq<string>, c: string)
    requires DistinctKeys(types)
    ensures DistinctKeys(Kept(types, allowed))
    ensures Lookup(Kept(types, allowed), c) == if c in allowed then Lookup(types, c) else None
  {
    if |types| > 0 {
      var init := types[..|types| - 1];
      var last := types[|types| - 1];
      var kept := Kept(init, allowed);
      assert DistinctKeys(init);
      KeptLookup(init, allowed, c);
      KeptLookup(init, allowed, last.0);
      HasKeyIndex(init, last.0);
      assert !HasKey(init, last.0);
      assert !HasKey(kept, last.0);
      assert types == init + [last];
      LookupAppend(init, last, c);
      if last.0 in allowed {
        LookupAppend(kept, last, c);
        HasKeyIndex(kept, last.0);
        assert Kept(types, allowed) == kept + [last];
        if c != last.0 && c in allowed && !HasKey(kept, c) {
          assert Lookup(init, c) == None;
        }
      } else {
        assert Kept(types, allowed) == kept;
        if c == last.0 {
          assert Lookup(kept, c) == None;
        } else if c in allowed {
          assert Lookup(types, c) == Lookup(init, c);
        }
      }
    }
  }

  /** The card types rendered as titles. */
  function Titles(kept: Assoc<string>): Record {
    seq(|kept|, i requires 0 <= i < |kept| => (kept[i].0, Str(kept[i].1)))
  }

  /** The value of 'cc_types': the allowed card types, or null when none is allowed. */
  function CcTypes(types: Assoc<string>, config: string): Value {
    var kept := Kept(types, Split(config, ','));
    if |kept| == 0 then Null else Dict(Titles(kept))
  }

  /**
   * 'cc_types' is null exactly when no configured code is in the method's
   * comma-separated list; otherwise it holds the title of each configured
   * code in that list, and no other code.
   */
  lemma CcTypesContents(types: Assoc<string>, config: string, c: string)
    requires DistinctKeys(types)
    ensures var v := CcTypes(types, config);
      && (v == Null <==> forall i :: 0 <= i < |types| ==> types[i].0 !in Split(config, ','))
      && (v.Dict? ==> (HasKey(v.fields, c) <==> HasKey(types, c) && c in Split(config, ',')))
      && (v.Dict? && HasKey(types, c) && c in Split(config, ',') ==> Lookup(v.fields, c) == Some(Str(Lookup(types, c).value)))
  {
    var allowed := Split(config, ',');
    var kept := Kept(types, allowed);
    KeptLookup(types, allowed, c);
    TitlesLookup(kept, c);
    if |kept| == 0 {
      forall i | 0 <= i < |types| ensures types[i].0 !in allowed {
        LookupIndex(types, i);
        KeptLookup(types, allowed, types[i].0);
      }
    } else {
      KeptLookup(types, allowed, kept[0].0);
      HasKeyIndex(kept, kept[0].0);
      HasKeyIndex(types, kept[0].0);
    }
  }

  /** The titles hold the same codes as the kept types, each with its title. */
  lemma {:induction false} TitlesLookup(kept: Assoc<string>, c: string)
    ensures HasKey(Titles(kept), c) <==> HasKey(kept, c)
    ensures HasKey(kept, c) ==> Lookup(Titles(kept), c) == Some(Str(Lookup(kept, c).value))
  {
    if |kept| > 0 {
      TitlesLookup(kept[1..], c);
      assert Titles(kept) == [(kept[0].0, Str(kept[0].1))] + Titles(kept[1..]);
    }
  }

  /** `_getPaymentMethodAvailableCcTypes($method)`: the configured card types not in the method's list are unset. */
  method AvailableCcTypes(types: Assoc<string>, m: PaymentMethod) returns (r: Value)
    ensures r == CcTypes(types, m.ccTypesConfig)
  {
    var allowed := Split(m.ccTypesConfig, ',');
    var kept: Assoc<string> := [];
    var i := 0;
    while i < |types|
      invariant 0 <= i <= |types|
      invariant kept == Kept(types[..i], allowed)
    {
      assert types[..i + 1][..i] == types[..i];
      if types[i].0 in allowed {
        kept := kept + [types[i]];
      }
      i := i + 1;
    }
    assert types[..|types|] == types;
    if |kept| == 0 {
      r := Null;
    } else {
      r := Dict(Titles(kept));
    }
  }

  /** The raw data `prepareMethod` reads along the plan: 'cc_types' specially, every other code by its internal name. */
  function MethodRaw(plan: Assoc<string>, types: Assoc<string>, m: PaymentMethod): Record {
    if |plan| == 0 then []
    else
      var last := plan[|plan| - 1];
      Put(MethodRaw(plan[..|plan| - 1], types, m), last.0,
          if last.0 == "cc_types" then CcTypes(types, m.ccTypesConfig) else Field(m.fields, last.1))
  }

  /** The raw data holds exactly the plan's codes, each read as the plan says. */
  lemma {:induction false} MethodRawLookup(plan: Assoc<string>, types: Assoc<string>, m: PaymentMethod, k: string)
    requires DistinctKeys(plan)
    ensures DistinctKeys(MethodRaw(plan, types, m))
    ensures Lookup(MethodRaw(plan, types, m), k) ==
            match Lookup(plan, k)
            case Some(internal) => Some(if k == "cc_types" then CcTypes(types, m.ccTypesConfig) else Field(m.fields, internal))
            case None => None
  {
    if |plan| > 0 {
      var init := plan[..|plan| - 1];
      var last := plan[|plan| - 1];
      var v := if last.0 == "cc_types" then CcTypes(types, m.ccTypesConfig) else Field(m.fields, last.1);
      assert DistinctKeys(init);
      MethodRawLookup(init, types, m, k);
      HasKeyIndex(init, last.0);
      PutShape(MethodRaw(init, types, m), last.0, v);
      PutDistinct(MethodRaw(init, types, m), last.0, v);
      assert plan == init + [last];
      LookupAppend(init, last, k);
    }
  }

  /**
   * `prepareMethod($method, $filter)`: the requested codes read from the
   * method, filtered, null-filled and key-sorted. The resource's
   * `attributeTypeMap` is empty, so `fixTypes` leaves the data as it is.
   */
  function MethodProjection(f: Filter, types: Assoc<string>, m: PaymentMethod): Record {
    Finish(Out(MethodRaw(Plan(f.included, []), types, m), f.readable), f.included)
  }

  /**
   * A method's projection is sorted by key and holds exactly the requested
   * codes: the accepted card types under 'cc_types' and the method's own
   * field under any other code when the filter lets it through, else null.
   */
  lemma MethodProjectionShape(f: Filter, types: Assoc<string>, m: PaymentMethod)
    ensures var r := MethodProjection(f, types, m);
      && SortedKeys(r)
      && forall k :: Lookup(r, k) ==
           if k !in f.included then None
           else if k !in f.readable then Some(Null)
           else if k == "cc_types" then Some(CcTypes(types, m.ccTypesConfig))
           else Some(Field(m.fields, k))
  {
    var plan := Plan(f.included, []);
    var raw := MethodRaw(plan, types, m);
    MethodRawLookup(plan, types, m, "");
    OutDistinct(raw, f.readable);
    FinishShape(Out(raw, f.readable), f.included);
    forall k ensures Lookup(MethodProjection(f, types, m), k) ==
           if k !in f.included then None
           else if k !in f.readable then Some(Null)
           else if k == "cc_types" then Some(CcTypes(types, m.ccTypesConfig))
           else Some(Field(m.fields, k))
    {
      MethodRawLookup(plan, types, m, k);
    }
  }

  /** `prepareMethod($method, $filter)`. */
  method PrepareMethod(f: Filter, types: Assoc<string>, m: PaymentMethod) returns (r: Record)
    ensures r == MethodProjection(f, types, m)
  {
    var plan := Plan(f.included, []);
    var data: Record := [];
    var i := 0;
    while i < |plan|
      invariant 0 <= i <= |plan|
      invariant data == MethodRaw(plan[..i], types, m)
    {
      assert plan[..i + 1][..i] == plan[..i];
      var external := plan[i].0;
      if external == "cc_types" {
        var v := AvailableCcTypes(types, m);
        data := Put(data, external, v);
      } else {
        data := Put(data, external, Field(m.fields, plan[i].1));
      }
      i := i + 1;
    }
    assert plan[..|plan|] == plan;
    data := Out(data, f.readable);
    r := Finish(data, f.included);
  }

  /** The store's methods that are listed, in store order. */
  function ListedMethods(applicable: (PaymentMethod, bv8) -> bool, methods: seq<PaymentMethod>): seq<PaymentMethod> {
    if |methods| == 0 then []
    else
      var last := methods[|methods| - 1];
      ListedMethods(applicable, methods[..|methods| - 1]) + (if Listed(applicable, last) then [last] else [])
  }

  /** The listing: one projection per listed method, in store order. */
  function Collection(f: Filter, types: Assoc<string>, applicable: (PaymentMethod, bv8) -> bool, methods: seq<PaymentMethod>): seq<Record> {
    var listed := ListedMethods(applicable, methods);
    seq(|listed|, i requires 0 <= i < |listed| => MethodProjection(f, types, listed[i]))
  }

  /**
   * A method is listed exactly when it is one of the store's methods and
   * passes both checks; the listed methods keep the store's order, so a
   * store whose methods all pass is listed whole.
   */
  lemma {:induction false} ListedMethodsMembers(applicable: (PaymentMethod, bv8) -> bool, methods: seq<PaymentMethod>)
    ensures forall m :: m in ListedMethods(applicable, methods) <==> m in methods && Listed(applicable, m)
    ensures |ListedMethods(applicable, methods)| <= |methods|
    ensures (forall i :: 0 <= i < |methods| ==> Listed(applicable, methods[i])) ==> ListedMethods(applicable, methods) == methods
  {
    if |methods| > 0 {
      var init := methods[..|methods| - 1];
      ListedMethodsMembers(applicable, init);
      assert methods == init + [methods[|methods| - 1]];
      forall m ensures m in methods <==> m in init || m == methods[|methods| - 1] {
      }
    }
  }

  /** `prepareCollection($quote)`: the state is switched to collection retrieve for the filter and restored. */
  method PrepareCollection(state: ResourceState, acl: (string, string) -> Filter, types: Assoc<string>,
                           applicable: (PaymentMethod, bv8) -> bool, methods: seq<PaymentMethod>)
    returns (r: seq<Record>)
    modifies state
    ensures r == Collection(acl(COLLECTION, RETRIEVE), types, applicable, methods)
    ensures state.actionType == old(state.actionType) && state.operation == old(state.operation) && state.quote == old(state.quote)
  {
    var actionType := state.actionType;
    var operation := state.operation;
    state.actionType := COLLECTION;
    state.operation := RETRIEVE;
    var f := acl(COLLECTION, RETRIEVE);
    r := [];
    ghost var listed: seq<PaymentMethod> := [];
    var i := 0;
    while i < |methods|
      invariant 0 <= i <= |methods|
      invariant state.quote == old(state.quote)
      invariant listed == ListedMethods(applicable, methods[..i])
      invariant |r| == |listed| && forall j :: 0 <= j < |r| ==> r[j] == MethodProjection(f, types, listed[j])
    {
      assert methods[..i + 1][..i] == methods[..i];
      var m := methods[i];
      if applicable(m, USE_CHECKS) && applicable(m, CHECK_ZERO_TOTAL) {
        var data := PrepareMethod(f, types, m);
        r := r + [data];
        listed := listed + [m];
      }
      i := i + 1;
    }
    assert methods[..|methods|] == methods;
    state.actionType := actionType;
    state.operation := operation;
  }

  /** `dispatch()`: collection retrieve lists the methods and answers 200; anything else is 405. */
  method Dispatch(state: ResourceState, acl: (string, string) -> Filter, types: Assoc<string>,
                  applicable: (PaymentMethod, bv8) -> bool, methods: seq<PaymentMethod>, session: Quote)
    returns (o: Outcome<Reply>)
    requires session.billing != session.shipping
    modifies state, session, session.billing
    ensures var op := old(state.actionType) + old(state.operation);
      && (op == COLLECTION + RETRIEVE ==> o == Done(Reply(OK, Rows(Collection(acl(COLLECTION, RETRIEVE), types, applicable, methods)))))
      && (op != COLLECTION + RETRIEVE ==> o == NotAllowed())
    ensures state.actionType == old(state.actionType) && state.operation == old(state.operation)
    ensures (session.data, session.billing.data) == AfterLoad(old(state.quote) != null, old(session.data), old(session.billing.data))
    ensures session.billing == old(session.billing) && session.shipping == old(session.shipping)
    ensures session.isVirtual == old(session.isVirtual) && session.items == old(session.items)
  {
    var quote := LoadQuote(state, session, false);
    if state.actionType + state.operation == COLLECTION + RETRIEVE {
      var r := PrepareCollection(state, acl, types, applicable, methods);
      o := Done(Reply(OK, Rows(r)));
    } else {
      o := NotAllowed();
    }
  }
}
