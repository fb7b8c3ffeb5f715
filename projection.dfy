/**
 * The tail every projector shares: filter the outbound data, fix the
 * types, add null for every requested code that is still missing, sort by
 * key. Also the read plan built from the requested codes and the
 * resource's `attributeMap`.
 */
module Projection {
  import opened Wrappers
  import opened Values
  import opened Text
  import opened Codec
  import opened KeySort

  /** `array_diff($codes, $manual)`: the codes not in `manual`, in order. */
  function Without(codes: seq<string>, manual: set<string>): (r: seq<string>)
    ensures forall c :: c in r <==> c in codes && c !in manual
  {
    if |codes| == 0 then []
    else if codes[0] in manual then Without(codes[1..], manual)
    else [codes[0]] + Without(codes[1..], manual)
  }

  /**
   * `array_merge(array_combine($codes, $codes), array_intersect_key($map, ...))`:
   * each requested code, once, paired with the internal name it is read
   * from or written to.
   */
  function Plan(codes: seq<string>, m: AttrMap): (p: Assoc<string>)
    ensures DistinctKeys(p)
    ensures forall c :: HasKey(p, c) <==> c in codes
    ensures forall c :: c in codes ==> Lookup(p, c) == Some(Rename(m, c))
  {
    if |codes| == 0 then []
    else
      var init := Plan(codes[..|codes| - 1], m);
      var c := codes[|codes| - 1];
      PutShape(init, c, Rename(m, c));
      assert forall x :: x in codes <==> x in codes[..|codes| - 1] || x == c;
      Put(init, c, Rename(m, c))
  }

  /** `$data[$external] = $resource->getDataUsingMethod($internal)` for each entry of the plan, in order. */
  function ReadInto(data: Record, plan: Assoc<string>, fields: map<string, Value>): Record {
    if |plan| == 0 then data
    else
      var last := plan[|plan| - 1];
      Put(ReadInto(data, plan[..|plan| - 1], fields), last.0, if last.1 in fields then fields[last.1] else Null)
  }

  /** Reading a plan adds exactly its external codes, each holding the field under its internal name,
      and keeps every other key of the data it started from. */
  lemma {:induction false} ReadIntoLookup(data: Record, plan: Assoc<string>, fields: map<string, Value>, k: string)
    requires DistinctKeys(plan)
    ensures Lookup(ReadInto(data, plan, fields), k) ==
            match Lookup(plan, k)
            case Some(internal) => Some(if internal in fields then fields[internal] else Null)
            case None => Lookup(data, k)
    ensures HasKey(ReadInto(data, plan, fields), k) <==> HasKey(data, k) || HasKey(plan, k)
  {
    if |plan| > 0 {
      var n := |plan| - 1;
      assert plan == plan[..n] + [plan[n]];
      assert DistinctKeys(plan[..n]);
      ReadIntoLookup(data, plan[..n], fields, k);
      LookupAppend(plan[..n], plan[n], k);
      if plan[n].0 == k {
        HasKeyIndex(plan[..n], k);
      }
    }
  }

  lemma {:induction false} ReadIntoDistinct(data: Record, plan: Assoc<string>, fields: map<string, Value>)
    requires DistinctKeys(data)
    ensures DistinctKeys(ReadInto(data, plan, fields))
  {
    if |plan| > 0 {
      var n := |plan| - 1;
      ReadIntoDistinct(data, plan[..n], fields);
      var last := plan[n];
      PutShape(ReadInto(data, plan[..n], fields), last.0, if last.1 in fields then fields[last.1] else Null);
    }
  }

  /**
   * What the ACL filter of a request gives for one action type and
   * operation: `getAttributesToInclude()`, the codes `out` lets through, and
   * `getAllowedAttributes(WRITE)`, the codes `in` lets through.
   */
  datatype Filter = Filter(included: seq<string>, readable: set<string>, writable: seq<string>)

  /** `$filter->in($data)`: keep the attributes the caller may write. */
  function In(data: Record, f: Filter): Record {
    Restrict(data, set c | c in f.writable)
  }

  /** `$filter->out($data)`: keep the attributes the caller may read. */
  function Out(data: Record, readable: set<string>): Record {
    Restrict(data, readable)
  }

  /** `foreach ($requested as $code) if (!array_key_exists($code, $data)) $data[$code] = null;` */
  function NullFill(data: Record, requested: seq<string>): Record {
    if |requested| == 0 then data
    else
      var d := NullFill(data, requested[..|requested| - 1]);
      var c := requested[|requested| - 1];
      if HasKey(d, c) then d else Put(d, c, Null)
  }

  lemma {:induction false} NullFillLookup(data: Record, requested: seq<string>, k: string)
    ensures Lookup(NullFill(data, requested), k) ==
            if HasKey(data, k) then Lookup(data, k) else if k in requested then Some(Null) else None
    ensures DistinctKeys(data) ==> DistinctKeys(NullFill(data, requested))
  {
    if |requested| > 0 {
      var n := |requested| - 1;
      NullFillLookup(data, requested[..n], k);
      assert k in requested <==> k in requested[..n] || k == requested[n];
      var d := NullFill(data, requested[..n]);
      if !HasKey(d, requested[n]) {
        PutShape(d, requested[n], Null);
      }
    }
  }

  /** The last two steps of every projector: null-fill, then `ksort`. */
  function Finish(data: Record, requested: seq<string>): Record {
    KSort(NullFill(data, requested))
  }

  /**
   * The shape of every projection: keys strictly sorted (so distinct),
   * every requested code present, every existing value kept, and nothing
   * else added — a missing requested code is null.
   */
  lemma FinishShape(data: Record, requested: seq<string>)
    requires DistinctKeys(data)
    ensures SortedKeys(Finish(data, requested)) && DistinctKeys(Finish(data, requested))
    ensures forall c :: c in requested ==> HasKey(Finish(data, requested), c)
    ensures forall k :: Lookup(Finish(data, requested), k) ==
              if HasKey(data, k) then Lookup(data, k) else if k in requested then Some(Null) else None
  {
    forall k ensures Lookup(NullFill(data, requested), k) ==
              if HasKey(data, k) then Lookup(data, k) else if k in requested then Some(Null) else None {
      NullFillLookup(data, requested, k);
    }
    NullFillLookup(data, requested, "");
    KSortContents(NullFill(data, requested));
  }

  /** Filtering keeps distinct keys. */
  lemma OutDistinct(data: Record, readable: set<string>)
    requires DistinctKeys(data)
    ensures DistinctKeys(Out(data, readable))
  {
    RestrictDistinct(data, readable);
  }
}
