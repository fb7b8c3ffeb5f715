/**
 * The outbound pipeline every projector of the extension runs on the raw
 * data it has read: `$filter->out`, `fixTypes`, null for each requested
 * code still missing, `ksort`.
 */
module Pipeline {
  import opened Wrappers
  import opened Values
  import opened Casts
  import opened KeySort
  import opened Projection
  import opened Typing

  /** The value a key holds after `fixTypes` with a type map. */
  function Typed(loc: Locale, currencyCode: Value, typeMap: TypeMap, k: string, v: Value): Value {
    match Lookup(typeMap, k)
    case Some(t) => if Castable(v) then Cast(loc, currencyCode, t, v) else v
    case None => v
  }

  /** Filter, type, null-fill and sort. */
  function Projected(loc: Locale, currencyCode: Value, raw: Record, readable: set<string>, typeMap: TypeMap, requested: seq<string>): Record {
    Finish(FixedTypes(loc, currencyCode, Out(raw, readable), typeMap), requested)
  }

  /**
   * A projection is sorted by key and holds exactly: each readable key of
   * the raw data, typed; null for each requested code not among them;
   * nothing else.
   */
  lemma ProjectedShape(loc: Locale, currencyCode: Value, raw: Record, readable: set<string>, typeMap: TypeMap, requested: seq<string>)
    requires DistinctKeys(raw) && DistinctKeys(typeMap)
    ensures var r := Projected(loc, currencyCode, raw, readable, typeMap, requested);
      && SortedKeys(r) && DistinctKeys(r)
      && (forall c :: c in requested ==> HasKey(r, c))
      && (forall k :: Lookup(r, k) ==
            if k in readable && HasKey(raw, k) then Some(Typed(loc, currencyCode, typeMap, k, Lookup(raw, k).value))
            else if k in requested then Some(Null) else None)
  {
    var out := Out(raw, readable);
    OutDistinct(raw, readable);
    var fixed := FixedTypes(loc, currencyCode, out, typeMap);
    FixedTypesKeys(loc, currencyCode, out, typeMap);
    forall k ensures Lookup(fixed, k) == if k in readable && HasKey(raw, k) then Some(Typed(loc, currencyCode, typeMap, k, Lookup(raw, k).value)) else None {
      FixedTypesLookup(loc, currencyCode, out, typeMap, k);
    }
    FinishShape(fixed, requested);
  }
  /**
   * `fixTypes`, null-fill and `ksort` on data already filtered: sorted by
   * key, each key of the data typed, null for each requested code still
   * missing, nothing else.
   */
  lemma TypedFinishShape(loc: Locale, currencyCode: Value, data: Record, typeMap: TypeMap, requested: seq<string>)
    requires DistinctKeys(data) && DistinctKeys(typeMap)
    ensures var r := Finish(FixedTypes(loc, currencyCode, data, typeMap), requested);
      && SortedKeys(r) && DistinctKeys(r)
      && (forall c :: c in requested ==> HasKey(r, c))
      && (forall k :: Lookup(r, k) ==
            if HasKey(data, k) then Some(Typed(loc, currencyCode, typeMap, k, Lookup(data, k).value))
            else if k in requested then Some(Null) else None)
  {
    var fixed := FixedTypes(loc, currencyCode, data, typeMap);
    FixedTypesKeys(loc, currencyCode, data, typeMap);
    forall k ensures Lookup(fixed, k) == if HasKey(data, k) then Some(Typed(loc, currencyCode, typeMap, k, Lookup(data, k).value)) else None {
      FixedTypesLookup(loc, currencyCode, data, typeMap, k);
    }
    FinishShape(fixed, requested);
  }
}
