/**
 * Key renaming between the external (REST) attribute codes and the
 * internal (Magento) ones: `mapAttributes` and `unmapAttributes` of
 * Helper/Data.php, which Model/Resource.php delegates to with the
 * resource's own `attributeMap`.
 */
module Codec {
  import opened Wrappers
  import opened Values

  /** An `attributeMap`: external code to internal code, in declaration order. */
  type AttrMap = Assoc<string>

  /** The name a key is stored under: its map entry when there is one, else itself. */
  function Rename(m: AttrMap, k: string): string {
    match Lookup(m, k)
    case Some(t) => t
    case None => k
  }

  /** `mapAttributes($map, $data)`: each entry, in order, is written to `$out[rename(key)]`. */
  function MapAttributes<V>(m: AttrMap, data: Assoc<V>): Assoc<V> {
    if |data| == 0 then []
    else
      var last := data[|data| - 1];
      Put(MapAttributes(m, data[..|data| - 1]), Rename(m, last.0), last.1)
  }

  /** `array_flip($map)`: internal code to external code; on a repeated value the last key wins. */
  function Flip(m: AttrMap): AttrMap {
    if |m| == 0 then []
    else
      var last := m[|m| - 1];
      Put(Flip(m[..|m| - 1]), last.1, last.0)
  }

  /** `unmapAttributes($map, $data)`: `mapAttributes` with the flipped map. */
  function UnmapAttributes<V>(m: AttrMap, data: Assoc<V>): Assoc<V> {
    MapAttributes(Flip(m), data)
  }

  /** The entries of `data` with every key renamed, in order: the reference for a rename without collisions. */
  function RenameEach<V>(m: AttrMap, data: Assoc<V>): (r: Assoc<V>)
    ensures |r| == |data|
    ensures forall i :: 0 <= i < |data| ==> r[i] == (Rename(m, data[i].0), data[i].1)
  {
    seq(|data|, i requires 0 <= i < |data| => (Rename(m, data[i].0), data[i].1))
  }

  predicate ValuesDistinct(m: AttrMap) {
    forall i, j :: 0 <= i < j < |m| ==> m[i].1 != m[j].1
  }

  function ValueSet(m: AttrMap): set<string> {
    set i | 0 <= i < |m| :: m[i].1
  }

  /** Every output key is the renamed key of some input entry, and every renamed key is present. */
  lemma MapAttributesKeys<V>(m: AttrMap, data: Assoc<V>, k: string)
    ensures HasKey(MapAttributes(m, data), k) <==> exists i :: 0 <= i < |data| && Rename(m, data[i].0) == k
  {
    if HasKey(MapAttributes(m, data), k) {
      MapAttributesKeyFrom(m, data, k);
    }
    forall i | 0 <= i < |data| && Rename(m, data[i].0) == k ensures HasKey(MapAttributes(m, data), k) {
      MapAttributesKeyTo(m, data, i);
    }
  }

  /** An output key comes from some input entry. */
  lemma {:induction false} MapAttributesKeyFrom<V>(m: AttrMap, data: Assoc<V>, k: string)
    requires HasKey(MapAttributes(m, data), k)
    ensures exists i :: 0 <= i < |data| && Rename(m, data[i].0) == k
  {
    var n := |data| - 1;
    var init := data[..n];
    assert MapAttributes(m, data) == Put(MapAttributes(m, init), Rename(m, data[n].0), data[n].1);
    if Rename(m, data[n].0) != k {
      MapAttributesKeyFrom(m, init, k);
      var i :| 0 <= i < |init| && Rename(m, init[i].0) == k;
      assert data[i] == init[i];
    }
  }

  /** Every input entry's renamed key is an output key. */
  lemma {:induction false} MapAttributesKeyTo<V>(m: AttrMap, data: Assoc<V>, i: nat)
    requires i < |data|
    ensures HasKey(MapAttributes(m, data), Rename(m, data[i].0))
  {
    var n := |data| - 1;
    var init := data[..n];
    assert MapAttributes(m, data) == Put(MapAttributes(m, init), Rename(m, data[n].0), data[n].1);
    if i < n {
      assert data[i] == init[i];
      MapAttributesKeyTo(m, init, i);
    }
  }

  /** Each output key holds the value of the LAST input entry renamed to it: a later key overwrites an
      earlier one on collision. */
  lemma {:induction false} MapAttributesLastWins<V>(m: AttrMap, data: Assoc<V>, i: nat)
    requires i < |data|
    requires forall j :: i < j < |data| ==> Rename(m, data[j].0) != Rename(m, data[i].0)
    ensures Lookup(MapAttributes(m, data), Rename(m, data[i].0)) == Some(data[i].1)
  {
    var n := |data| - 1;
    var init := data[..n];
    assert MapAttributes(m, data) == Put(MapAttributes(m, init), Rename(m, data[n].0), data[n].1);
    if i < n {
      assert Rename(m, data[n].0) != Rename(m, data[i].0);
      assert init[i] == data[i];
      forall j | i < j < |init| ensures Rename(m, init[j].0) != Rename(m, init[i].0) {
        assert init[j] == data[j];
      }
      MapAttributesLastWins(m, init, i);
    }
  }

  /** Without collisions, `mapAttributes` renames the keys in place: values and order are kept. */
  lemma {:induction false} MapAttributesNoCollision<V>(m: AttrMap, data: Assoc<V>)
    requires DistinctKeys(RenameEach(m, data))
    ensures MapAttributes(m, data) == RenameEach(m, data)
  {
    if |data| > 0 {
      var n := |data| - 1;
      var init := data[..n];
      assert RenameEach(m, init) == RenameEach(m, data)[..n];
      assert DistinctKeys(RenameEach(m, init));
      MapAttributesNoCollision(m, init);
      var k := Rename(m, data[n].0);
      HasKeyIndex(RenameEach(m, init), k);
      assert !HasKey(RenameEach(m, init), k);
      assert MapAttributes(m, data) == Put(MapAttributes(m, init), k, data[n].1);
      PutShape(RenameEach(m, init), k, data[n].1);
      assert RenameEach(m, data) == RenameEach(m, init) + [(k, data[n].1)];
    }
  }

  /** With distinct internal codes, the flipped map sends each internal code back to its external code. */
  lemma {:induction false} FlipLookup(m: AttrMap, v: string)
    requires ValuesDistinct(m)
    ensures HasKey(Flip(m), v) <==> v in ValueSet(m)
    ensures forall k :: (k, v) in m ==> Lookup(Flip(m), v) == Some(k)
  {
    if |m| > 0 {
      var n := |m| - 1;
      var init := m[..n];
      assert ValuesDistinct(init);
      FlipLookup(init, v);
      assert Flip(m) == Put(Flip(init), m[n].1, m[n].0);
      assert ValueSet(m) == ValueSet(init) + {m[n].1};
      forall k | (k, v) in m ensures Lookup(Flip(m), v) == Some(k) {
        var i :| 0 <= i < |m| && m[i] == (k, v);
        if i < n {
          assert init[i] == (k, v);
          assert m[n].1 != v;
        }
      }
    }
  }

  /** Renaming then renaming back with the flipped map returns a key, when the map is injective and an
      unmapped key is not itself an internal code. */
  lemma FlipInverts(m: AttrMap, k: string)
    requires DistinctKeys(m) && ValuesDistinct(m)
    requires HasKey(m, k) || k !in ValueSet(m)
    ensures Rename(Flip(m), Rename(m, k)) == k
  {
    match Lookup(m, k)
    case Some(t) =>
      LookupFound(m, k);
      FlipLookup(m, t);
    case None =>
      FlipLookup(m, k);
  }

  /**
   * `unmapAttributes($map, mapAttributes($map, $data)) == $data` when the map
   * is injective and no unmapped key of the data collides with an internal
   * code.
   */
  lemma UnmapMapRoundTrip<V>(m: AttrMap, data: Assoc<V>)
    requires DistinctKeys(m) && ValuesDistinct(m)
    requires DistinctKeys(data)
    requires forall i :: 0 <= i < |data| ==> HasKey(m, data[i].0) || data[i].0 !in ValueSet(m)
    ensures UnmapAttributes(m, MapAttributes(m, data)) == data
  {
    var e := RenameEach(m, data);
    forall i | 0 <= i < |data| ensures Rename(Flip(m), e[i].0) == data[i].0 {
      FlipInverts(m, data[i].0);
    }
    assert RenameEach(Flip(m), e) == data;
    forall i, j | 0 <= i < j < |e| ensures e[i].0 != e[j].0 {
      assert Rename(Flip(m), e[i].0) == data[i].0;
      assert Rename(Flip(m), e[j].0) == data[j].0;
    }
    MapAttributesNoCollision(m, data);
    MapAttributesNoCollision(Flip(m), e);
  }

  /** A mapped key and an unmapped key that is already its target collide: only the later value is kept. */
  lemma CollisionExample()
    ensures MapAttributes([("description", "method_description")],
                          [("description", Str("a")), ("method_description", Str("b"))])
         == [("method_description", Str("b"))]
  {
    var m: AttrMap := [("description", "method_description")];
    var d := [("description", Str("a")), ("method_description", Str("b"))];
    assert d[..1] == [("description", Str("a"))];
    assert MapAttributes(m, d[..1]) == [("method_description", Str("a"))] by {
      assert d[..1][..0] == [];
    }
  }
  /** `mapAttributes` builds a fresh array, so its keys are distinct. */
  lemma {:induction false} MapAttributesDistinct<V>(m: AttrMap, data: Assoc<V>)
    ensures DistinctKeys(MapAttributes(m, data))
  {
    if |data| > 0 {
      var n := |data| - 1;
      MapAttributesDistinct(m, data[..n]);
      PutShape(MapAttributes(m, data[..n]), Rename(m, data[n].0), data[n].1);
    }
  }

  /** `mapAttributes` moves values to new keys and never makes up a value. */
  lemma {:induction false} MapAttributesValuesIn(m: AttrMap, data: Assoc<string>, s: set<string>)
    requires ValuesIn(data, s)
    ensures ValuesIn(MapAttributes(m, data), s)
  {
    if |data| > 0 {
      var n := |data| - 1;
      assert ValuesIn(data[..n], s);
      MapAttributesValuesIn(m, data[..n], s);
      PutValuesIn(MapAttributes(m, data[..n]), Rename(m, data[n].0), data[n].1, s);
    }
  }

  /** The values of the flipped map are the external codes of the map. */
  lemma {:induction false} FlipValuesIn(m: AttrMap)
    ensures ValuesIn(Flip(m), set i | 0 <= i < |m| :: m[i].0)
  {
    var s := set i | 0 <= i < |m| :: m[i].0;
    if |m| > 0 {
      var n := |m| - 1;
      FlipValuesIn(m[..n]);
      var s' := set i | 0 <= i < n :: m[..n][i].0;
      assert s' <= s by {
        forall x | x in s' ensures x in s {
          var i :| 0 <= i < n && m[..n][i].0 == x;
          assert m[i].0 == x;
        }
      }
      assert m[n].0 in s;
      PutValuesIn(Flip(m[..n]), m[n].1, m[n].0, s);
    }
  }

  /** A renamed key is the key itself or one of the map's internal codes. */
  lemma RenameFrom(m: AttrMap, k: string)
    ensures Rename(m, k) == k || exists i :: 0 <= i < |m| && m[i].1 == Rename(m, k)
  {
    if HasKey(m, k) {
      LookupFound(m, k);
    }
  }

  /** No internal code of the map is also one of its external codes. */
  predicate Separate(m: AttrMap) {
    forall i, j :: 0 <= i < |m| && 0 <= j < |m| ==> m[i].1 != m[j].0
  }

  /** Only its external code, or an internal code that is not an external one, is renamed onto an internal code. */
  lemma RenameOnto(m: AttrMap, x: string, j: nat)
    requires DistinctKeys(m) && ValuesDistinct(m) && j < |m|
    requires Rename(m, x) == m[j].1
    ensures x == m[j].0 || (x == m[j].1 && !HasKey(m, x))
  {
    if HasKey(m, x) {
      LookupFound(m, x);
      var i :| 0 <= i < |m| && m[i] == (x, m[j].1);
      assert i == j;
    }
  }

  /** Renaming a code back with the flipped map and then forward again returns it, when it is not an external code. */
  lemma UnflipInverts(m: AttrMap, k: string)
    requires DistinctKeys(m) && ValuesDistinct(m)
    requires !HasKey(m, k)
    ensures Rename(m, Rename(Flip(m), k)) == k
  {
    FlipLookup(m, k);
    if k in ValueSet(m) {
      var i :| 0 <= i < |m| && m[i].1 == k;
      assert (m[i].0, k) in m;
      LookupIsMembership(m, m[i].0, k);
    }
  }

  /** When no other entry is renamed onto the same key, the renamed key holds the entry's value. */
  lemma {:induction false} MapAttributesInjective<V>(m: AttrMap, data: Assoc<V>, a: string)
    requires DistinctKeys(data)
    requires forall i :: 0 <= i < |data| && Rename(m, data[i].0) == Rename(m, a) ==> data[i].0 == a
    ensures Lookup(MapAttributes(m, data), Rename(m, a)) == Lookup(data, a)
  {
    if |data| > 0 {
      var n := |data| - 1;
      var init := data[..n];
      assert data == init + [data[n]];
      assert DistinctKeys(init);
      forall i | 0 <= i < |init| && Rename(m, init[i].0) == Rename(m, a) ensures init[i].0 == a {
        assert init[i] == data[i];
      }
      MapAttributesInjective(m, init, a);
      LookupAppend(init, data[n], a);
      if data[n].0 == a {
        HasKeyIndex(init, a);
      }
    }
  }

  /**
   * Unmapping data that holds no external code, with a map whose internal
   * codes are not external ones: an external code holds the value of its
   * internal code, an internal code is gone, and every other code is kept.
   */
  lemma UnmapLookup<V>(m: AttrMap, data: Assoc<V>, k: string)
    requires DistinctKeys(m) && ValuesDistinct(m) && Separate(m) && DistinctKeys(data)
    requires forall i :: 0 <= i < |data| ==> !HasKey(m, data[i].0)
    ensures Lookup(UnmapAttributes(m, data), k) == if k in ValueSet(m) then None else Lookup(data, Rename(m, k))
  {
    var fl := Flip(m);
    forall i | 0 <= i < |data| ensures Rename(m, Rename(fl, data[i].0)) == data[i].0 {
      UnflipInverts(m, data[i].0);
    }
    if k in ValueSet(m) {
      var j :| 0 <= j < |m| && m[j].1 == k;
      NotExternal(m, j);
      FlipLookup(m, k);
      assert (m[j].0, k) in m;
      HasKeyIndex(m, m[j].0);
      forall i | 0 <= i < |data| ensures Rename(fl, data[i].0) != k {
        HasKeyIndex(m, k);
      }
      MapAttributesKeys(fl, data, k);
    } else {
      var a := Rename(m, k);
      if HasKey(m, k) {
        LookupFound(m, k);
        var j :| 0 <= j < |m| && m[j] == (k, a);
        NotExternal(m, j);
      }
      FlipInverts(m, k);
      UnflipInverts(m, a);
      MapAttributesInjective(fl, data, a);
    }
  }

  /** An internal code of a separate map is not an external code. */
  lemma NotExternal(m: AttrMap, j: nat)
    requires Separate(m) && j < |m|
    ensures !HasKey(m, m[j].1)
  {
    HasKeyIndex(m, m[j].1);
  }

  /** An attribute map with no entries renames nothing, in either direction. */
  lemma MapNothing<V>(d: Assoc<V>)
    requires DistinctKeys(d)
    ensures MapAttributes([], d) == d && UnmapAttributes([], d) == d
  {
    assert RenameEach([], d) == d;
    MapAttributesNoCollision([], d);
  }
}
