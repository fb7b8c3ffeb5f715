/**
 * `fixTypes` of Model/Resource.php: each code of the type map whose value
 * is present and is a scalar or null is cast to its declared type; a
 * currency becomes a `{currency, amount, formatted}` triple.
 */
module Typing {
  import opened Wrappers
  import opened Values
  import opened Casts

  /** The type names an `attributeTypeMap` uses; an unknown name casts like 'string'. */
  datatype TypeTag = TBool | TInt | TFloat | TCurrency | TString | TOther(name: string)

  type TypeMap = Assoc<TypeTag>

  /** What `fixTypes` is willing to cast: `is_scalar($v) || is_null($v)`. */
  predicate Castable(v: Value) {
    IsScalar(v) || v.Null?
  }

  /** The currency case: the amount, rounded to the currency's precision, its formatted text and the code. */
  function CurrencyTriple(loc: Locale, currencyCode: Value, v: Value): (r: Value)
    ensures r.Dict? && !Castable(r)
    ensures Lookup(r.fields, "currency") == Some(currencyCode)
  {
    var amount := loc.roundAmount(currencyCode, ToFloat(v));
    Dict([("currency", currencyCode), ("amount", Float(amount)), ("formatted", Str(loc.formatAmount(currencyCode, amount)))])
  }

  /** The value one type-map entry gives to one castable value. */
  function Cast(loc: Locale, currencyCode: Value, t: TypeTag, v: Value): Value {
    match t
    case TBool => Bool(ToBool(v))
    case TInt => Int(ToInt(v))
    case TFloat => Float(ToFloat(v))
    case TCurrency => CurrencyTriple(loc, currencyCode, v)
    case _ => Str(ToText(loc, v))
  }

  /** Casting the result again either does nothing or is not attempted (a currency triple is an array). */
  lemma CastStable(loc: Locale, currencyCode: Value, t: TypeTag, v: Value)
    ensures var c := Cast(loc, currencyCode, t, v);
            !Castable(c) || Cast(loc, currencyCode, t, c) == c
  {
  }

  /** `if (empty($typeMap)) $typeMap = $this->attributeTypeMap`. */
  function EffectiveTypeMap(typeMap: TypeMap, attributeTypeMap: TypeMap): TypeMap {
    if |typeMap| == 0 then attributeTypeMap else typeMap
  }

  /** One pass of the loop: cast `$data[$code]` when the key exists and its value is castable. */
  function FixOne(loc: Locale, currencyCode: Value, data: Record, entry: (string, TypeTag)): Record {
    match Lookup(data, entry.0)
    case Some(v) => if Castable(v) then Put(data, entry.0, Cast(loc, currencyCode, entry.1, v)) else data
    case None => data
  }

  /** The data after the loop has visited every entry of `typeMap`, in order. */
  function FixedTypes(loc: Locale, currencyCode: Value, data: Record, typeMap: TypeMap): Record {
    if |typeMap| == 0 then data
    else FixOne(loc, currencyCode, FixedTypes(loc, currencyCode, data, typeMap[..|typeMap| - 1]), typeMap[|typeMap| - 1])
  }

  /** `fixTypes($data, $typeMap)`, with the quote's currency code passed in. */
  method FixTypes(loc: Locale, currencyCode: Value, data: Record, typeMap: TypeMap, attributeTypeMap: TypeMap)
    returns (r: Record)
    ensures |typeMap| == 0 ==> r == FixedTypes(loc, currencyCode, data, attributeTypeMap)
    ensures |typeMap| > 0 ==> r == FixedTypes(loc, currencyCode, data, typeMap)
  {
    var tm := typeMap;
    if |tm| == 0 {
      tm := attributeTypeMap;
    }
    r := data;
    var i := 0;
    while i < |tm|
      invariant 0 <= i <= |tm|
      invariant r == FixedTypes(loc, currencyCode, data, tm[..i])
    {
      assert tm[..i + 1][..i] == tm[..i];
      var code := tm[i].0;
      var t := tm[i].1;
      match Lookup(r, code) {
        case Some(v) =>
          if Castable(v) {
            r := Put(r, code, Cast(loc, currencyCode, t, v));
          }
        case None =>
      }
      i := i + 1;
    }
    assert tm[..|tm|] == tm;
  }

  /**
   * The whole effect of `fixTypes`: a key keeps its value unless the type
   * map names it and its value is a scalar or null, in which case it holds
   * the cast value. With distinct type-map codes each key is cast once.
   */
  lemma {:induction false} FixedTypesLookup(loc: Locale, currencyCode: Value, data: Record, typeMap: TypeMap, k: string)
    requires DistinctKeys(typeMap)
    ensures Lookup(FixedTypes(loc, currencyCode, data, typeMap), k) ==
            match (Lookup(data, k), Lookup(typeMap, k))
            case (Some(v), Some(t)) => if Castable(v) then Some(Cast(loc, currencyCode, t, v)) else Some(v)
            case (o, _) => o
  {
    if |typeMap| > 0 {
      var n := |typeMap| - 1;
      var init := typeMap[..n];
      assert typeMap == init + [typeMap[n]];
      assert DistinctKeys(init);
      FixedTypesLookup(loc, currencyCode, data, init, k);
      LookupAppend(init, typeMap[n], k);
      if typeMap[n].0 == k {
        HasKeyIndex(init, k);
        assert !HasKey(init, k);
      }
    }
  }

  /** `fixTypes` never adds, removes or reorders keys. */
  lemma {:induction false} FixedTypesKeys(loc: Locale, currencyCode: Value, data: Record, typeMap: TypeMap)
    ensures Keys(FixedTypes(loc, currencyCode, data, typeMap)) == Keys(data)
    ensures DistinctKeys(data) ==> DistinctKeys(FixedTypes(loc, currencyCode, data, typeMap))
  {
    if |typeMap| > 0 {
      var n := |typeMap| - 1;
      var d := FixedTypes(loc, currencyCode, data, typeMap[..n]);
      FixedTypesKeys(loc, currencyCode, data, typeMap[..n]);
      match Lookup(d, typeMap[n].0) {
        case Some(v) =>
          PutShape(d, typeMap[n].0, Cast(loc, currencyCode, typeMap[n].1, v));
        case None =>
      }
    }
  }

  /** A key absent from the type map, or holding an array (for example a currency triple), is left alone. */
  lemma FixTypesLeavesAlone(loc: Locale, currencyCode: Value, data: Record, typeMap: TypeMap, k: string)
    requires DistinctKeys(typeMap)
    requires !HasKey(typeMap, k) || (HasKey(data, k) && !Castable(Lookup(data, k).value))
    ensures Lookup(FixedTypes(loc, currencyCode, data, typeMap), k) == Lookup(data, k)
  {
    FixedTypesLookup(loc, currencyCode, data, typeMap, k);
  }

  /** A present scalar under a 'currency' code becomes the triple tagged with the quote's currency code. */
  lemma CurrencyCaseTagged(loc: Locale, currencyCode: Value, data: Record, typeMap: TypeMap, k: string)
    requires DistinctKeys(typeMap) && Lookup(typeMap, k) == Some(TCurrency)
    requires HasKey(data, k) && Castable(Lookup(data, k).value)
    ensures var o := Lookup(FixedTypes(loc, currencyCode, data, typeMap), k);
            o.Some? && o.value.Dict? && Lookup(o.value.fields, "currency") == Some(currencyCode)
            && Lookup(o.value.fields, "amount") == Some(Float(loc.roundAmount(currencyCode, ToFloat(Lookup(data, k).value))))
  {
    FixedTypesLookup(loc, currencyCode, data, typeMap, k);
  }

  /** A second `fixTypes` pass with the same map changes nothing. */
  lemma FixTypesIdempotent(loc: Locale, currencyCode: Value, data: Record, typeMap: TypeMap)
    requires DistinctKeys(data) && DistinctKeys(typeMap)
    ensures FixedTypes(loc, currencyCode, FixedTypes(loc, currencyCode, data, typeMap), typeMap)
         == FixedTypes(loc, currencyCode, data, typeMap)
  {
    var once := FixedTypes(loc, currencyCode, data, typeMap);
    var twice := FixedTypes(loc, currencyCode, once, typeMap);
    FixedTypesKeys(loc, currencyCode, data, typeMap);
    FixedTypesKeys(loc, currencyCode, once, typeMap);
    forall k ensures Lookup(twice, k) == Lookup(once, k) {
      FixedTypesLookup(loc, currencyCode, data, typeMap, k);
      FixedTypesLookup(loc, currencyCode, once, typeMap, k);
      match (Lookup(data, k), Lookup(typeMap, k)) {
        case (Some(v), Some(t)) =>
          CastStable(loc, currencyCode, t, v);
        case (_, _) =>
      }
    }
    SameKeysSameLookupsEqual(twice, once);
  }
}
