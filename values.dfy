/**
 * PHP values as the extension handles them, and PHP's ordered
 * string-keyed arrays.
 *
 * An `Assoc<V>` is a PHP array with string keys: a sequence of entries with
 * distinct keys, in insertion order. Assigning to a key that is already
 * present keeps its position (`Put`); a new key is appended.
 */
module Values {
  import opened Wrappers

  datatype Value =
    | Null
    | Bool(b: bool)
    | Int(i: int)
    | Float(r: real)
    | Str(s: string)
    | List(items: seq<Value>)
    | Dict(fields: seq<(string, Value)>)

  /** `is_scalar`: booleans, integers, floats and strings. */
  predicate IsScalar(v: Value) {
    v.Bool? || v.Int? || v.Float? || v.Str?
  }

  /** `empty()`: null, false, 0, 0.0, "", "0" and the empty array. */
  predicate IsEmpty(v: Value) {
    match v
    case Null => true
    case Bool(b) => !b
    case Int(i) => i == 0
    case Float(r) => r == 0.0
    case Str(s) => s == "" || s == "0"
    case List(items) => |items| == 0
    case Dict(fields) => |fields| == 0
  }

  /** PHP truthiness: what `if ($v)` and `array_filter` test. */
  predicate Truthy(v: Value) {
    !IsEmpty(v)
  }

  /** A data key of a Magento object (`getData($k)`): null when missing. */
  function Field(data: map<string, Value>, k: string): Value {
    if k in data then data[k] else Null
  }

  type Assoc<V> = seq<(string, V)>
  type Record = Assoc<Value>

  function Keys<V>(r: Assoc<V>): (ks: seq<string>)
    ensures |ks| == |r|
    ensures forall i :: 0 <= i < |r| ==> ks[i] == r[i].0
  {
    if |r| == 0 then [] else [r[0].0] + Keys(r[1..])
  }

  function KeySet<V>(r: Assoc<V>): set<string> {
    if |r| == 0 then {} else {r[0].0} + KeySet(r[1..])
  }

  /** The key set holds exactly the keys `HasKey` finds. */
  lemma KeySetHasKey<V>(r: Assoc<V>, k: string)
    ensures k in KeySet(r) <==> HasKey(r, k)
  {
  }

  lemma HasKeyIndex<V>(r: Assoc<V>, k: string)
    ensures HasKey(r, k) <==> exists i :: 0 <= i < |r| && r[i].0 == k
  {
    if |r| > 0 {
      HasKeyIndex(r[1..], k);
      if HasKey(r[1..], k) {
        var i :| 0 <= i < |r| - 1 && r[1..][i].0 == k;
        assert r[i + 1].0 == k;
      }
      if exists i :: 0 <= i < |r| && r[i].0 == k {
        var i :| 0 <= i < |r| && r[i].0 == k;
        if i > 0 { assert r[1..][i - 1].0 == k; }
      }
    }
  }

  predicate DistinctKeys<V>(r: Assoc<V>) {
    forall i, j :: 0 <= i < j < |r| ==> r[i].0 != r[j].0
  }

  /** `array_key_exists($k, $r)`. */
  predicate HasKey<V>(r: Assoc<V>, k: string) {
    |r| > 0 && (r[0].0 == k || HasKey(r[1..], k))
  }

  /** The value stored under `k`, if any. */
  function Lookup<V>(r: Assoc<V>, k: string): (o: Option<V>)
    ensures o.Some? <==> HasKey(r, k)
  {
    if |r| == 0 then None
    else if r[0].0 == k then Some(r[0].1)
    else
      Lookup(r[1..], k)
  }

  /** A value found under a key is an entry of the array. */
  lemma {:induction false} LookupFound<V>(r: Assoc<V>, k: string)
    requires HasKey(r, k)
    ensures (k, Lookup(r, k).value) in r
  {
    if r[0].0 != k {
      LookupFound(r[1..], k);
      assert r == [r[0]] + r[1..];
    }
  }

  /** `$r[$k]` on a record: a missing key reads as null. */
  function Get(r: Record, k: string): Value {
    match Lookup(r, k)
    case Some(v) => v
    case None => Null
  }

  /** `$r[$k] = $v`: replaces in place, or appends a new key. */
  function Put<V>(r: Assoc<V>, k: string, v: V): (r': Assoc<V>)
    ensures Lookup(r', k) == Some(v)
    ensures forall j :: j != k ==> Lookup(r', j) == Lookup(r, j)
    ensures forall j :: HasKey(r', j) <==> HasKey(r, j) || j == k
  {
    if |r| == 0 then [(k, v)]
    else if r[0].0 == k then [(k, v)] + r[1..]
    else [r[0]] + Put(r[1..], k, v)
  }

  /** `if ($cond) $r[$k] = $v;` */
  function PutIf<V>(r: Assoc<V>, cond: bool, k: string, v: V): (r': Assoc<V>)
    ensures forall j :: Lookup(r', j) == if cond && j == k then Some(v) else Lookup(r, j)
    ensures DistinctKeys(r) ==> DistinctKeys(r')
  {
    if cond then PutShape(r, k, v); Put(r, k, v) else r
  }

  /** A second assignment to a key overwrites the first. */
  lemma {:induction false} PutPut<V>(r: Assoc<V>, k: string, v: V, w: V)
    ensures Put(Put(r, k, v), k, w) == Put(r, k, w)
  {
    if |r| > 0 && r[0].0 != k {
      PutPut(r[1..], k, v, w);
      assert Put(r, k, v) == [r[0]] + Put(r[1..], k, v);
      assert Put(r, k, v)[1..] == Put(r[1..], k, v);
    }
  }

  /** Distinct keys survive an assignment; an existing key keeps its place, a new one is appended. */
  lemma PutShape<V>(r: Assoc<V>, k: string, v: V)
    ensures DistinctKeys(r) ==> DistinctKeys(Put(r, k, v))
    ensures HasKey(r, k) ==> Keys(Put(r, k, v)) == Keys(r)
    ensures !HasKey(r, k) ==> Put(r, k, v) == r + [(k, v)]
  {
    if DistinctKeys(r) {
      PutDistinct(r, k, v);
    }
    PutKeys(r, k, v);
  }

  /** Assigning to a key of a distinct-keyed array keeps its keys distinct. */
  lemma {:induction false} PutDistinct<V>(r: Assoc<V>, k: string, v: V)
    requires DistinctKeys(r)
    ensures DistinctKeys(Put(r, k, v))
  {
    if |r| > 0 && r[0].0 != k {
      assert DistinctKeys(r[1..]);
      PutDistinct(r[1..], k, v);
      var rest := Put(r[1..], k, v);
      assert Put(r, k, v) == [r[0]] + rest;
      HasKeyIndex(r[1..], r[0].0);
      assert !HasKey(rest, r[0].0);
      HasKeyIndex(rest, r[0].0);
    } else if |r| > 0 {
      var p := Put(r, k, v);
      assert p == [(k, v)] + r[1..];
      forall i, j | 0 <= i < j < |p| ensures p[i].0 != p[j].0 {
        assert p[i].0 == r[i].0 && p[j].0 == r[j].0;
      }
    }
  }

  /** An existing key keeps its place, a new one is appended. */
  lemma {:induction false} PutKeys<V>(r: Assoc<V>, k: string, v: V)
    ensures HasKey(r, k) ==> Keys(Put(r, k, v)) == Keys(r)
    ensures !HasKey(r, k) ==> Put(r, k, v) == r + [(k, v)]
  {
    if |r| > 0 && r[0].0 != k {
      PutKeys(r[1..], k, v);
      var rest := Put(r[1..], k, v);
      assert Put(r, k, v) == [r[0]] + rest;
      assert HasKey(r, k) <==> HasKey(r[1..], k);
      if HasKey(r, k) {
        assert Keys(Put(r, k, v)) == [r[0].0] + Keys(rest);
        assert Keys(r) == [r[0].0] + Keys(r[1..]);
      } else {
        assert r == [r[0]] + r[1..];
      }
    } else if |r| > 0 {
      var p := Put(r, k, v);
      assert p == [(k, v)] + r[1..];
      assert Keys(p) == [k] + Keys(r[1..]);
      assert Keys(r) == [k] + Keys(r[1..]);
    }
  }

  /** `unset($r[$k])`. */
  function Remove<V>(r: Assoc<V>, k: string): (r': Assoc<V>)
    ensures Lookup(r', k) == None
    ensures forall j :: j != k ==> Lookup(r', j) == Lookup(r, j)
    ensures forall j :: HasKey(r', j) <==> HasKey(r, j) && j != k
  {
    if |r| == 0 then []
    else if r[0].0 == k then Remove(r[1..], k)
    else [r[0]] + Remove(r[1..], k)
  }

  /** Unsetting a key keeps the other keys distinct. */
  lemma {:induction false} RemoveDistinct<V>(r: Assoc<V>, k: string)
    requires DistinctKeys(r)
    ensures DistinctKeys(Remove(r, k))
  {
    if |r| > 0 {
      assert DistinctKeys(r[1..]);
      RemoveDistinct(r[1..], k);
      if r[0].0 != k {
        var rest := Remove(r[1..], k);
        assert Remove(r, k) == [r[0]] + rest;
        HasKeyIndex(r[1..], r[0].0);
        HasKeyIndex(rest, r[0].0);
      }
    }
  }

  /** `array_intersect_key($r, array_flip($allowed))`: the entries whose keys are allowed, in order. */
  function Restrict<V>(r: Assoc<V>, allowed: set<string>): (r': Assoc<V>)
    ensures forall k :: Lookup(r', k) == (if k in allowed then Lookup(r, k) else None)
    ensures forall j :: HasKey(r', j) <==> HasKey(r, j) && j in allowed
  {
    if |r| == 0 then []
    else if r[0].0 in allowed then [r[0]] + Restrict(r[1..], allowed)
    else Restrict(r[1..], allowed)
  }

  /** Restricting a distinct-keyed array keeps its keys distinct. */
  lemma RestrictDistinct<V>(r: Assoc<V>, allowed: set<string>)
    requires DistinctKeys(r)
    ensures DistinctKeys(Restrict(r, allowed))
  {
    if |r| > 0 {
      assert DistinctKeys(r[1..]);
      RestrictDistinct(r[1..], allowed);
      if r[0].0 in allowed {
        var rest := Restrict(r[1..], allowed);
        HasKeyIndex(r[1..], r[0].0);
        HasKeyIndex(rest, r[0].0);
        assert !HasKey(rest, r[0].0);
      }
    }
  }

  /** On a distinct-keyed array, looking a key up is the same as finding its entry. */
  lemma LookupIsMembership<V>(r: Assoc<V>, k: string, v: V)
    requires DistinctKeys(r)
    ensures Lookup(r, k) == Some(v) <==> (k, v) in r
  {
    if |r| > 0 && r[0].0 != k {
      assert DistinctKeys(r[1..]);
      LookupIsMembership(r[1..], k, v);
      assert (k, v) in r <==> (k, v) in r[1..];
    } else if |r| > 0 {
      if (k, v) in r {
        var i :| 0 <= i < |r| && r[i] == (k, v);
        assert i == 0;
      }
    }
  }

  /** In a list with distinct keys, each entry is what its key looks up. */
  lemma LookupIndex<V>(r: Assoc<V>, i: nat)
    requires DistinctKeys(r) && i < |r|
    ensures Lookup(r, r[i].0) == Some(r[i].1)
  {
    assert r[i] in r;
    LookupIsMembership(r, r[i].0, r[i].1);
  }

  /** Two distinct-keyed arrays with the same entries answer every lookup alike. */
  lemma SameEntriesSameLookups<V>(a: Assoc<V>, b: Assoc<V>)
    requires DistinctKeys(a) && DistinctKeys(b)
    requires multiset(a) == multiset(b)
    ensures forall k :: Lookup(a, k) == Lookup(b, k)
    ensures forall k :: HasKey(a, k) <==> HasKey(b, k)
  {
    forall k ensures Lookup(a, k) == Lookup(b, k) {
      match Lookup(a, k)
      case Some(v) =>
        LookupIsMembership(a, k, v);
        assert (k, v) in multiset(b);
        LookupIsMembership(b, k, v);
      case None =>
        match Lookup(b, k)
        case Some(v) =>
          LookupIsMembership(b, k, v);
          assert (k, v) in multiset(a);
          LookupIsMembership(a, k, v);
        case None =>
    }
    forall k ensures HasKey(a, k) <==> HasKey(b, k) {
      assert HasKey(a, k) <==> Lookup(a, k).Some?;
    }
  }

  /** `isset($r[$k])`: the key is present and its value is not null. */
  predicate IsSet(r: Record, k: string) {
    Lookup(r, k).Some? && !Lookup(r, k).value.Null?
  }

  /** Looking up a key other than the appended one ignores the appended entry. */
  lemma {:induction false} LookupAppend<V>(r: Assoc<V>, e: (string, V), k: string)
    ensures Lookup(r + [e], k) == if HasKey(r, k) then Lookup(r, k) else if e.0 == k then Some(e.1) else None
  {
    if |r| > 0 {
      assert (r + [e])[1..] == r[1..] + [e];
      LookupAppend(r[1..], e, k);
    }
  }

  /** Two distinct-keyed arrays with the same key order and the same lookups are equal. */
  lemma SameKeysSameLookupsEqual<V>(a: Assoc<V>, b: Assoc<V>)
    requires DistinctKeys(a) && Keys(a) == Keys(b)
    requires forall k :: Lookup(a, k) == Lookup(b, k)
    ensures a == b
  {
    assert DistinctKeys(b) by {
      forall i, j | 0 <= i < j < |b| ensures b[i].0 != b[j].0 {
        assert b[i].0 == Keys(b)[i] == Keys(a)[i] == a[i].0;
        assert b[j].0 == Keys(b)[j] == Keys(a)[j] == a[j].0;
      }
    }
    forall i | 0 <= i < |a| ensures a[i] == b[i] {
      assert a[i].0 == Keys(a)[i] == Keys(b)[i] == b[i].0;
      assert a[i] in a && b[i] in b;
      LookupIsMembership(a, a[i].0, a[i].1);
      LookupIsMembership(b, b[i].0, b[i].1);
    }
  }
  /** Every value of a string-valued array is in `s`. */
  predicate ValuesIn(r: Assoc<string>, s: set<string>) {
    forall i :: 0 <= i < |r| ==> r[i].1 in s
  }

  /** An assignment of a value from `s` keeps every value in `s`. */
  lemma {:induction false} PutValuesIn(r: Assoc<string>, k: string, v: string, s: set<string>)
    requires ValuesIn(r, s) && v in s
    ensures ValuesIn(Put(r, k, v), s)
  {
    if |r| > 0 && r[0].0 != k {
      assert ValuesIn(r[1..], s);
      PutValuesIn(r[1..], k, v, s);
      assert Put(r, k, v) == [r[0]] + Put(r[1..], k, v);
    } else if |r| > 0 {
      assert Put(r, k, v) == [(k, v)] + r[1..];
    }
  }

  /** `foreach ($xs as $x) $a[key($x)] = val($x);` on an empty array. */
  function Filed<T, V>(xs: seq<T>, key: T -> string, val: T -> V): Assoc<V> {
    if |xs| == 0 then []
    else
      var n := |xs| - 1;
      Put(Filed(xs[..n], key, val), key(xs[n]), val(xs[n]))
  }

  /** The filed array has one entry per key. */
  lemma {:induction false} FiledDistinct<T, V>(xs: seq<T>, key: T -> string, val: T -> V)
    ensures DistinctKeys(Filed(xs, key, val))
  {
    if |xs| > 0 {
      var n := |xs| - 1;
      FiledDistinct(xs[..n], key, val);
      PutShape(Filed(xs[..n], key, val), key(xs[n]), val(xs[n]));
    }
  }

  /** A key of the filed array is the key of some element. */
  lemma {:induction false} FiledKeyFrom<T, V>(xs: seq<T>, key: T -> string, val: T -> V, k: string)
    requires HasKey(Filed(xs, key, val), k)
    ensures exists i :: 0 <= i < |xs| && key(xs[i]) == k
  {
    var n := |xs| - 1;
    if key(xs[n]) != k {
      FiledKeyFrom(xs[..n], key, val, k);
      var i :| 0 <= i < n && key(xs[..n][i]) == k;
      assert xs[..n][i] == xs[i];
    }
  }

  /** The key of every element is a key of the filed array. */
  lemma {:induction false} FiledKeyTo<T, V>(xs: seq<T>, key: T -> string, val: T -> V, i: nat)
    requires i < |xs|
    ensures HasKey(Filed(xs, key, val), key(xs[i]))
  {
    var n := |xs| - 1;
    if i < n {
      assert xs[..n][i] == xs[i];
      FiledKeyTo(xs[..n], key, val, i);
    }
  }

  /** An element whose key no later element repeats is filed with its own value. */
  lemma {:induction false} FiledEntry<T, V>(xs: seq<T>, key: T -> string, val: T -> V, i: nat)
    requires i < |xs|
    requires forall j :: i < j < |xs| ==> key(xs[j]) != key(xs[i])
    ensures Lookup(Filed(xs, key, val), key(xs[i])) == Some(val(xs[i]))
  {
    var n := |xs| - 1;
    if i < n {
      assert xs[..n][i] == xs[i];
      FiledEntry(xs[..n], key, val, i);
    }
  }
}
