/** `ksort`: every projection ends by sorting its result by key. */
module KeySort {
  import opened Wrappers
  import opened Values
  import opened Text

  predicate SortedKeys<V>(r: Assoc<V>) {
    forall i, j :: 0 <= i < j < |r| ==> LexLess(r[i].0, r[j].0)
  }

  function Insert<V>(e: (string, V), r: Assoc<V>): (r': Assoc<V>)
    ensures multiset(r') == multiset(r) + multiset{e}
    ensures forall j :: HasKey(r', j) <==> HasKey(r, j) || j == e.0
  {
    if |r| == 0 then [e]
    else if LexLess(e.0, r[0].0) then [e] + r
    else
      var rest := Insert(e, r[1..]);
      assert r == [r[0]] + r[1..];
      [r[0]] + rest
  }

  /** `ksort($r)`, as an insertion sort. */
  function KSort<V>(r: Assoc<V>): (r': Assoc<V>)
    ensures multiset(r') == multiset(r)
    ensures forall j :: HasKey(r', j) <==> HasKey(r, j)
  {
    if |r| == 0 then []
    else
      assert r == [r[0]] + r[1..];
      Insert(r[0], KSort(r[1..]))
  }

  lemma SortedDistinct<V>(r: Assoc<V>)
    requires SortedKeys(r)
    ensures DistinctKeys(r)
  {
    forall i, j | 0 <= i < j < |r| ensures r[i].0 != r[j].0 {
      LexIrreflexive(r[i].0);
    }
  }

  lemma {:induction false} InsertSorted<V>(e: (string, V), r: Assoc<V>)
    requires SortedKeys(r) && !HasKey(r, e.0)
    ensures SortedKeys(Insert(e, r))
  {
    if |r| > 0 {
      HasKeyIndex(r, e.0);
      if LexLess(e.0, r[0].0) {
        forall j | 0 <= j < |r| ensures LexLess(e.0, r[j].0) {
          if j > 0 {
            LexTransitive(e.0, r[0].0, r[j].0);
          }
        }
        ConsSortedKeys(e, r);
      } else {
        LexTotal(e.0, r[0].0);
        assert !HasKey(r[1..], e.0);
        InsertSorted(e, r[1..]);
        InsertAfterHead(e, r);
        ConsSortedKeys(r[0], Insert(e, r[1..]));
      }
    }
  }

  /** An entry whose key comes before every key of a sorted array can be put in front of it. */
  lemma ConsSortedKeys<V>(e: (string, V), r: Assoc<V>)
    requires SortedKeys(r)
    requires forall j :: 0 <= j < |r| ==> LexLess(e.0, r[j].0)
    ensures SortedKeys([e] + r)
  {
    var t := [e] + r;
    forall i, j | 0 <= i < j < |t| ensures LexLess(t[i].0, t[j].0) {
      assert t[j] == r[j - 1];
      if i > 0 {
        assert t[i] == r[i - 1];
      }
    }
  }

  /** Inserting an entry with a later key into the tail of a sorted array keeps every key after its head's. */
  lemma InsertAfterHead<V>(e: (string, V), r: Assoc<V>)
    requires SortedKeys(r) && |r| > 0 && LexLess(r[0].0, e.0)
    ensures forall j :: 0 <= j < |Insert(e, r[1..])| ==> LexLess(r[0].0, Insert(e, r[1..])[j].0)
  {
    var rest := Insert(e, r[1..]);
    forall j | 0 <= j < |rest| ensures LexLess(r[0].0, rest[j].0) {
      var x := rest[j];
      assert x in multiset(rest);
      assert x in multiset(r[1..]) + multiset{e};
      if x in multiset(r[1..]) {
        var i :| 0 <= i < |r| - 1 && r[1..][i] == x;
        assert r[i + 1] == x;
      }
    }
  }

  /** `ksort` of an array with distinct keys is strictly ordered by key. */
  lemma {:induction false} KSortSorted<V>(r: Assoc<V>)
    requires DistinctKeys(r)
    ensures SortedKeys(KSort(r))
  {
    if |r| > 0 {
      assert DistinctKeys(r[1..]);
      KSortSorted(r[1..]);
      HasKeyIndex(r[1..], r[0].0);
      assert !HasKey(KSort(r[1..]), r[0].0);
      InsertSorted(r[0], KSort(r[1..]));
    }
  }

  /**
   * `ksort` reorders and does nothing else: the result is sorted by key,
   * holds the same entries, and answers every lookup as its input did.
   */
  lemma KSortContents<V>(r: Assoc<V>)
    requires DistinctKeys(r)
    ensures SortedKeys(KSort(r)) && DistinctKeys(KSort(r))
    ensures multiset(KSort(r)) == multiset(r)
    ensures forall k :: Lookup(KSort(r), k) == Lookup(r, k)
  {
    KSortSorted(r);
    SortedDistinct(KSort(r));
    SameEntriesSameLookups(KSort(r), r);
  }
}
