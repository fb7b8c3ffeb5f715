/**
 * The shared operations of Model/Resource.php that every resource
 * inherits: the default dispatch, the mapped attribute read and write
 * (`loadResourceAttributes`, `saveResourceAttributes`) and `parseEmbeds`.
 * `fixTypes` is module Typing; `mapAttributes`/`unmapAttributes` are
 * module Codec; `loadQuote`/`saveQuote` are module QuoteSync.
 */
module Resource {
  import opened Wrappers
  import opened Values
  import opened Text
  import opened Casts
  import opened Codec
  import opened Projection
  import opened Objects
  import opened KeySort

  /** What a dispatch does for an action type and operation it does not handle: `_critical(RESOURCE_METHOD_NOT_ALLOWED)`. */
  function NotAllowed<T>(): (o: Outcome<T>)
    ensures o.Fault? && o.code == METHOD_NOT_ALLOWED
  {
    Fault(METHOD_NOT_ALLOWED, "Resource does not support method.")
  }

  /**
   * What a dispatch renders: a listing by key (`keyed` when it is an
   * `ArrayObject`), a plain list, one record, or nothing.
   */
  datatype Body = Listing(entries: Assoc<Record>, keyed: bool) | Rows(rows: seq<Record>) | Single(data: Record) | NoBody

  /** The response: its HTTP code and body. */
  datatype Reply = Reply(code: int, body: Body)

  /** The data `loadResourceAttributes` returns, given the resource's fields. */
  function LoadedAttributes(fields: map<string, Value>, codes: seq<string>, manual: set<string>, m: AttrMap, data: Record): Record {
    ReadInto(data, Plan(Without(codes, manual), m), fields)
  }

  /** `loadResourceAttributes($resource, $codes, $data)`: the loop over the read plan. */
  method LoadResourceAttributes(resource: DataObject, codes: seq<string>, manual: set<string>, m: AttrMap, data: Record)
    returns (r: Record)
    ensures r == LoadedAttributes(resource.data, codes, manual, m, data)
  {
    var plan := Plan(Without(codes, manual), m);
    r := data;
    var i := 0;
    while i < |plan|
      invariant 0 <= i <= |plan|
      invariant r == ReadInto(data, plan[..i], resource.data)
    {
      assert plan[..i + 1][..i] == plan[..i];
      r := Put(r, plan[i].0, resource.Get(plan[i].1));
      i := i + 1;
    }
    assert plan[..|plan|] == plan;
  }

  /**
   * `loadResourceAttributes` adds exactly the requested codes that are not
   * manual attributes, each read under its mapped internal name (itself
   * when unmapped), and keeps every other key of the data passed in.
   */
  lemma LoadedAttributesContents(fields: map<string, Value>, codes: seq<string>, manual: set<string>, m: AttrMap, data: Record, k: string)
    ensures Lookup(LoadedAttributes(fields, codes, manual, m, data), k) ==
            if k in codes && k !in manual then Some(if Rename(m, k) in fields then fields[Rename(m, k)] else Null)
            else Lookup(data, k)
  {
    ReadIntoLookup(data, Plan(Without(codes, manual), m), fields, k);
  }

  /** The resource's fields after writing every entry of `data` that the plan names, in data order. */
  function Written(fields: map<string, Value>, plan: Assoc<string>, data: Record): map<string, Value> {
    if |data| == 0 then fields
    else
      var f := Written(fields, plan, data[..|data| - 1]);
      var last := data[|data| - 1];
      match Lookup(plan, last.0)
      case Some(internal) => f[internal := last.1]
      case None => f
  }

  /** The internal names a write touches: the mapped names of the data keys that the plan names. */
  function WrittenNames(plan: Assoc<string>, data: Record): set<string> {
    set i | 0 <= i < |data| && HasKey(plan, data[i].0) :: Lookup(plan, data[i].0).value
  }

  /** No entry after entry `i` of the data is written to the same name as it. */
  predicate LastWriteOf(plan: Assoc<string>, data: Record, i: nat)
    requires i < |data|
  {
    forall j :: i < j < |data| && HasKey(plan, data[j].0) ==> Lookup(plan, data[j].0) != Lookup(plan, data[i].0)
  }

  /** `saveResourceAttributes($resource, $codes, $data)`. */
  method SaveResourceAttributes(resource: DataObject, codes: seq<string>, manual: set<string>, m: AttrMap, data: Record)
    modifies resource
    ensures resource.data == Written(old(resource.data), Plan(Without(codes, manual), m), data)
    ensures resource.deleted == old(resource.deleted)
  {
    var plan := Plan(Without(codes, manual), m);
    var i := 0;
    while i < |data|
      invariant 0 <= i <= |data|
      invariant resource.data == Written(old(resource.data), plan, data[..i])
      invariant resource.deleted == old(resource.deleted)
    {
      assert data[..i + 1][..i] == data[..i];
      match Lookup(plan, data[i].0) {
        case Some(internal) =>
          resource.Set(internal, data[i].1);
        case None =>
      }
      i := i + 1;
    }
    assert data[..|data|] == data;
  }

  /**
   * `saveResourceAttributes` changes only the mapped names of the data keys
   * that are requested and not manual; each of those holds the value of the
   * last data entry mapped to it.
   */
  lemma {:induction false} WrittenFields(fields: map<string, Value>, plan: Assoc<string>, data: Record)
    ensures forall n :: n !in WrittenNames(plan, data) ==>
              (n in Written(fields, plan, data) <==> n in fields)
              && (n in fields ==> Written(fields, plan, data)[n] == fields[n])
    ensures forall i :: 0 <= i < |data| && HasKey(plan, data[i].0)
              && LastWriteOf(plan, data, i)
              ==> Lookup(plan, data[i].0).value in Written(fields, plan, data)
                  && Written(fields, plan, data)[Lookup(plan, data[i].0).value] == data[i].1
  {
    forall n | n !in WrittenNames(plan, data) ensures (n in Written(fields, plan, data) <==> n in fields)
                                                     && (n in fields ==> Written(fields, plan, data)[n] == fields[n]) {
      WrittenOutside(fields, plan, data, n);
    }
    forall i | 0 <= i < |data| && HasKey(plan, data[i].0)
               && LastWriteOf(plan, data, i)
      ensures Lookup(plan, data[i].0).value in Written(fields, plan, data)
              && Written(fields, plan, data)[Lookup(plan, data[i].0).value] == data[i].1
    {
      WrittenLast(fields, plan, data, i);
    }
  }

  /** A name no entry of the data is written to keeps its value, or stays absent. */
  lemma {:induction false} WrittenOutside(fields: map<string, Value>, plan: Assoc<string>, data: Record, n: string)
    requires n !in WrittenNames(plan, data)
    ensures n in Written(fields, plan, data) <==> n in fields
    ensures n in fields ==> Written(fields, plan, data)[n] == fields[n]
  {
    if |data| > 0 {
      var last := |data| - 1;
      var init := data[..last];
      forall x | x in WrittenNames(plan, init) ensures x in WrittenNames(plan, data) {
        var i :| 0 <= i < |init| && HasKey(plan, init[i].0) && Lookup(plan, init[i].0).value == x;
        assert data[i] == init[i];
      }
      WrittenOutside(fields, plan, init, n);
      if HasKey(plan, data[last].0) {
        assert Lookup(plan, data[last].0).value in WrittenNames(plan, data);
      }
    }
  }

  /** The name of an entry no later entry is written to holds that entry's value. */
  lemma {:induction false} WrittenLast(fields: map<string, Value>, plan: Assoc<string>, data: Record, i: nat)
    requires i < |data| && HasKey(plan, data[i].0)
    requires LastWriteOf(plan, data, i)
    ensures Lookup(plan, data[i].0).value in Written(fields, plan, data)
    ensures Written(fields, plan, data)[Lookup(plan, data[i].0).value] == data[i].1
  {
    var last := |data| - 1;
    if i < last {
      var init := data[..last];
      assert init[i] == data[i];
      forall j | i < j < |init| && HasKey(plan, init[j].0) ensures Lookup(plan, init[j].0) != Lookup(plan, init[i].0) {
        assert init[j] == data[j];
      }
      WrittenLast(fields, plan, init, i);
    }
  }

  /** The fields after `setDataUsingMethod($key, $value)` for every entry of `data`, in order. */
  function WrittenAll(fields: map<string, Value>, data: Record): map<string, Value> {
    if |data| == 0 then fields
    else WrittenAll(fields, data[..|data| - 1])[data[|data| - 1].0 := data[|data| - 1].1]
  }

  /** Every key of distinct-keyed data is written with its value; every other field is kept. */
  lemma {:induction false} WrittenAllLookup(fields: map<string, Value>, data: Record, k: string)
    requires DistinctKeys(data)
    ensures k in WrittenAll(fields, data) <==> k in fields || HasKey(data, k)
    ensures HasKey(data, k) ==> WrittenAll(fields, data)[k] == Lookup(data, k).value
    ensures !HasKey(data, k) && k in fields ==> WrittenAll(fields, data)[k] == fields[k]
  {
    if |data| > 0 {
      var n := |data| - 1;
      var init := data[..n];
      assert data == init + [data[n]];
      assert DistinctKeys(init);
      WrittenAllLookup(fields, init, k);
      LookupAppend(init, data[n], k);
      if data[n].0 == k {
        HasKeyIndex(init, k);
      }
    }
  }

  /** `foreach ($data as $key => $value) $resource->setDataUsingMethod($key, $value);` */
  method WriteAll(resource: DataObject, data: Record)
    modifies resource
    ensures resource.data == WrittenAll(old(resource.data), data)
    ensures resource.deleted == old(resource.deleted)
  {
    var i := 0;
    while i < |data|
      invariant 0 <= i <= |data|
      invariant resource.data == WrittenAll(old(resource.data), data[..i])
      invariant resource.deleted == old(resource.deleted)
    {
      assert data[..i + 1][..i] == data[..i];
      resource.Set(data[i].0, data[i].1);
      i := i + 1;
    }
    assert data[..|data|] == data;
  }

  /**
   * `saveResourceAttributes` with no attribute map, on data with distinct
   * keys: a field is written iff the data has it and it is requested and
   * not manual, and then holds the data's value; every other field is kept.
   */
  lemma {:induction false} WrittenPlain(fields: map<string, Value>, codes: seq<string>, manual: set<string>, data: Record, k: string)
    requires DistinctKeys(data)
    ensures var w := Written(fields, Plan(Without(codes, manual), []), data);
      var written := HasKey(data, k) && k in codes && k !in manual;
      && (k in w <==> k in fields || written)
      && (written ==> w[k] == Lookup(data, k).value)
      && (!written && k in fields ==> w[k] == fields[k])
  {
    var plan := Plan(Without(codes, manual), []);
    if |data| > 0 {
      var n := |data| - 1;
      var init := data[..n];
      assert data == init + [data[n]];
      assert DistinctKeys(init);
      WrittenPlain(fields, codes, manual, init, k);
      LookupAppend(init, data[n], k);
      if data[n].0 == k {
        HasKeyIndex(init, k);
      }
      var c := data[n].0;
      if c in codes && c !in manual {
        assert Lookup(plan, c) == Some(Rename([], c));
      } else {
        assert !HasKey(plan, c);
      }
    }
  }

  /**
   * On data with distinct keys, a planned key whose internal name no other
   * planned key of the data shares writes its value to that name.
   */
  lemma WrittenByKey(fields: map<string, Value>, plan: Assoc<string>, data: Record, k: string)
    requires DistinctKeys(data) && HasKey(plan, k) && HasKey(data, k)
    requires forall c :: c != k && HasKey(data, c) && HasKey(plan, c) ==> Lookup(plan, c) != Lookup(plan, k)
    ensures Lookup(plan, k).value in Written(fields, plan, data)
    ensures Written(fields, plan, data)[Lookup(plan, k).value] == Lookup(data, k).value
  {
    LookupFound(data, k);
    var i :| 0 <= i < |data| && data[i] == (k, Lookup(data, k).value);
    forall j | i < j < |data| && HasKey(plan, data[j].0) ensures Lookup(plan, data[j].0) != Lookup(plan, data[i].0) {
      HasKeyIndex(data, data[j].0);
    }
    WrittenLast(fields, plan, data, i);
  }

  /** A name no planned key of the data is written to keeps its value, or stays absent. */
  lemma WrittenUntouched(fields: map<string, Value>, plan: Assoc<string>, data: Record, n: string)
    requires forall c :: HasKey(data, c) && HasKey(plan, c) ==> Lookup(plan, c).value != n
    ensures n in Written(fields, plan, data) <==> n in fields
    ensures n in fields ==> Written(fields, plan, data)[n] == fields[n]
  {
    forall i | 0 <= i < |data| && HasKey(plan, data[i].0) ensures Lookup(plan, data[i].0).value != n {
      HasKeyIndex(data, data[i].0);
    }
    WrittenOutside(fields, plan, data, n);
  }

  /** `k` is the first of `keys` in `ksort` order. */
  predicate LeastKey(k: string, keys: set<string>) {
    k in keys && forall j :: j in keys && j != k ==> LexLess(k, j)
  }

  lemma LeastKeyExists(keys: set<string>)
    requires keys != {}
    ensures exists k :: LeastKey(k, keys)
    decreases keys
  {
    var x :| x in keys;
    var rest := keys - {x};
    if rest == {} {
      assert forall j :: j in keys ==> j == x || j in rest;
      assert LeastKey(x, keys);
    } else {
      LeastKeyExists(rest);
      var y :| LeastKey(y, rest);
      LexTotal(x, y);
      if LexLess(x, y) {
        forall j | j in keys && j != x ensures LexLess(x, j) {
          if j != y {
            LexTransitive(x, y, j);
          }
        }
        assert LeastKey(x, keys);
      } else {
        assert LeastKey(y, keys);
      }
    }
  }

  lemma LeastKeyUnique(keys: set<string>)
    ensures forall a, b :: LeastKey(a, keys) && LeastKey(b, keys) ==> a == b
  {
    forall a, b | LeastKey(a, keys) && LeastKey(b, keys) ensures a == b {
      LexAsymmetric(a, b);
    }
  }

  /**
   * `$resource->toArray()`: the fields of an object as an array. Magento
   * keeps them in the order they were set; the model lists them in key
   * order.
   */
  ghost function SortedFields(m: map<string, Value>): Record
    decreases m.Keys
  {
    if m.Keys == {} then []
    else
      LeastKeyExists(m.Keys);
      var k :| LeastKey(k, m.Keys);
      [(k, m[k])] + SortedFields(m - {k})
  }

  lemma SortedFieldsUnfold(m: map<string, Value>, k: string)
    requires LeastKey(k, m.Keys)
    ensures SortedFields(m) == [(k, m[k])] + SortedFields(m - {k})
  {
    LeastKeyUnique(m.Keys);
  }

  /** The array of an object's fields is sorted by key and holds exactly its fields. */
  lemma {:induction false} SortedFieldsContents(m: map<string, Value>)
    ensures SortedKeys(SortedFields(m)) && DistinctKeys(SortedFields(m))
    ensures forall k :: Lookup(SortedFields(m), k) == if k in m then Some(m[k]) else None
    decreases m.Keys
  {
    if m.Keys != {} {
      LeastKeyExists(m.Keys);
      var k :| LeastKey(k, m.Keys);
      SortedFieldsUnfold(m, k);
      var rest := m - {k};
      SortedFieldsContents(rest);
      var tail := SortedFields(rest);
      forall j | 0 <= j < |tail| ensures LexLess(k, tail[j].0) {
        HasKeyIndex(tail, tail[j].0);
        LookupFound(tail, tail[j].0);
        assert Lookup(tail, tail[j].0).Some?;
      }
      ConsSortedKeys((k, m[k]), tail);
      SortedDistinct(SortedFields(m));
      assert SortedFields(m)[1..] == tail;
    }
  }

  /** `toArray()`: picks the fields off in key order. */
  method ToArray(resource: DataObject) returns (r: Record)
    ensures r == SortedFields(resource.data)
  {
    r := FieldsArray(resource.data);
  }

  /** The loop of `toArray()` on an object's fields, also used for a quote's. */
  method FieldsArray(fields: map<string, Value>) returns (r: Record)
    ensures r == SortedFields(fields)
  {
    r := [];
    var rest := fields;
    while rest.Keys != {}
      invariant r + SortedFields(rest) == SortedFields(fields)
      decreases rest.Keys
    {
      LeastKeyExists(rest.Keys);
      var k :| LeastKey(k, rest.Keys);
      SortedFieldsUnfold(rest, k);
      r := r + [(k, rest[k])];
      rest := rest - {k};
    }
  }

  /** `trim` each element, then `array_filter`: drop the empty and "0" names, keep the order. */
  function CleanEmbeds(names: seq<string>): (r: seq<string>)
    ensures forall e :: e in r ==> e != "" && e != "0"
    ensures |r| <= |names|
  {
    if |names| == 0 then []
    else
      var t := Trim(names[0]);
      if t == "" || t == "0" then CleanEmbeds(names[1..]) else [t] + CleanEmbeds(names[1..])
  }

  /** The text of one element of an `embed[]` array parameter as `trim` reads it; a nested array reads as empty. */
  function EmbedText(loc: Locale, v: Value): string {
    if v.List? || v.Dict? then "" else ToText(loc, v)
  }

  function EmbedTexts(loc: Locale, items: seq<Value>): (r: seq<string>)
    ensures |r| == |items|
  {
    if |items| == 0 then [] else [EmbedText(loc, items[0])] + EmbedTexts(loc, items[1..])
  }

  /** `parseEmbeds($embeds)`. */
  function ParseEmbeds(loc: Locale, embeds: Value, defaultEmbeds: seq<string>): seq<string> {
    if embeds == Bool(false) || embeds == Str("") then []
    else if embeds.Null? then defaultEmbeds
    else if embeds.Str? then CleanEmbeds(Split(embeds.s, ','))
    else if embeds.List? then CleanEmbeds(EmbedTexts(loc, embeds.items))
    else if embeds.Dict? then CleanEmbeds(EmbedTexts(loc, seq(|embeds.fields|, i requires 0 <= i < |embeds.fields| => embeds.fields[i].1)))
    else []
  }

  /** Every name `CleanEmbeds` keeps is trimmed, and no name with something left after trimming is lost. */
  lemma {:induction false} CleanEmbedsKeeps(names: seq<string>)
    ensures forall e :: e in CleanEmbeds(names) ==> Trim(e) == e
    ensures forall n :: n in names && Trim(n) != "" && Trim(n) != "0" ==> Trim(n) in CleanEmbeds(names)
  {
    if |names| > 0 {
      CleanEmbedsKeeps(names[1..]);
      TrimIdempotent(names[0]);
    }
  }

  /**
   * `parseEmbeds`: false or '' gives no embeds, null gives the defaults, a
   * string is split on ','; the pieces are trimmed and the empty or "0"
   * ones dropped; any other scalar gives no embeds.
   */
  lemma ParseEmbedsCases(loc: Locale, embeds: Value, defaultEmbeds: seq<string>)
    ensures embeds == Bool(false) || embeds == Str("") ==> ParseEmbeds(loc, embeds, defaultEmbeds) == []
    ensures embeds.Null? ==> ParseEmbeds(loc, embeds, defaultEmbeds) == defaultEmbeds
    ensures embeds.Str? && embeds.s != "" ==>
              var r := ParseEmbeds(loc, embeds, defaultEmbeds);
              (forall e :: e in r ==> e != "" && e != "0" && Trim(e) == e && ',' !in e)
              && (forall p :: p in Split(embeds.s, ',') && Trim(p) != "" && Trim(p) != "0" ==> Trim(p) in r)
    ensures embeds == Bool(true) || embeds.Int? || embeds.Float? ==> ParseEmbeds(loc, embeds, defaultEmbeds) == []
  {
    if embeds.Str? && embeds.s != "" {
      var pieces := Split(embeds.s, ',');
      CleanEmbedsKeeps(pieces);
      SplitJoin(embeds.s, ',');
      CleanEmbedsFrom(pieces);
      forall e | e in CleanEmbeds(pieces) ensures ',' !in e {
        var p :| p in pieces && e == Trim(p);
        TrimCuts(p);
      }
    }
  }

  /** Every kept name is the trimmed form of one of the input names. */
  lemma {:induction false} CleanEmbedsFrom(names: seq<string>)
    ensures forall e :: e in CleanEmbeds(names) ==> exists n :: n in names && e == Trim(n)
  {
    if |names| > 0 {
      CleanEmbedsFrom(names[1..]);
    }
  }

  /** No de-duplication: a name requested twice is embedded twice. */
  lemma ParseEmbedsKeepsDuplicates(loc: Locale, defaultEmbeds: seq<string>)
    ensures ParseEmbeds(loc, Str("a, a"), defaultEmbeds) == ["a", "a"]
  {
    SplitExample();
    TrimExample();
    assert CleanEmbeds([" a"]) == ["a"] + CleanEmbeds([" a"][1..]);
    assert ["a", " a"][1..] == [" a"];
  }

  /** The pieces of "a, a" around its comma. */
  lemma SplitExample()
    ensures Split("a, a", ',') == ["a", " a"]
  {
    assert "a"[1..] == "";
    assert Split("", ',') == [""];
    assert ['a'] + "" == "a";
    assert Split("a", ',') == ["a"];
    assert " a"[1..] == "a";
    assert [' '] + "a" == " a";
    assert Split(" a", ',') == [" a"];
    assert ", a"[1..] == " a";
    assert Split(", a", ',') == ["", " a"];
    assert "a, a"[1..] == ", a";
  }

  /** `trim` of "a" and " a". */
  lemma TrimExample()
    ensures Trim("a") == "a" && Trim(" a") == "a"
  {
    assert "a"[0] == 'a' && !IsTrimmable('a') && IsTrimmable(' ');
    assert TrimLeft("a") == "a";
    assert TrimRight("a") == "a";
    assert " a"[0] == ' ' && " a"[1..] == "a";
    assert TrimLeft(" a") == "a";
  }
}
