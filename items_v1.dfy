/**
 * Model/Item/Rest/V1.php: the first version of the items resource. It
 * differs from Model/Item.php in how an item is read (a mapped read, then
 * unmapping, then the filter, with the manual attributes added after the
 * filter), in the SKU checks, in writing every allowed key on update, in
 * listing the items as a plain array, and in having no collection delete.
 */
module ItemV1 {
  import opened Wrappers
  import opened Values
  import opened Casts
  import opened Codec
  import opened KeySort
  import opened Projection
  import opened Typing
  import opened Pipeline
  import opened Objects
  import opened QuoteSync
  import opened Resource
  import opened Item

  /** `$exclude` of `prepareItem`: the codes it computes itself. */
  const V1_EXCLUDE: set<string> := {"original_price", "images", "children", "messages", "is_saleable"}

  /** `$data[$attribute] = $item->getDataUsingMethod($key)` for each `$key => $attribute` of the mapped codes, in order. */
  function ReadMapped(data: Record, mapped: Assoc<string>, fields: map<string, Value>): Record {
    if |mapped| == 0 then data
    else
      var last := mapped[|mapped| - 1];
      Put(ReadMapped(data, mapped[..|mapped| - 1], fields), last.1, Field(fields, last.0))
  }

  /**
   * The read codes: the included codes except the excluded ones, combined
   * with themselves (`array_combine`) and mapped to internal names.
   */
  function ReadCodes(included: seq<string>): Assoc<string> {
    MapAttributes(ITEM_MAP, Plan(Without(included, V1_EXCLUDE), []))
  }

  /** The data read from an item, with the keys unmapped again. */
  function ReadV1(fields: map<string, Value>, included: seq<string>): Record {
    UnmapAttributes(ITEM_MAP, ReadMapped([], ReadCodes(included), fields))
  }

  /** The keys the read writes are values of the mapped codes, and distinct. */
  lemma {:induction false} ReadMappedKeys(mapped: Assoc<string>, fields: map<string, Value>, s: set<string>)
    requires ValuesIn(mapped, s)
    ensures forall k :: HasKey(ReadMapped([], mapped, fields), k) ==> k in s
    ensures DistinctKeys(ReadMapped([], mapped, fields))
  {
    if |mapped| > 0 {
      var n := |mapped| - 1;
      assert ValuesIn(mapped[..n], s);
      ReadMappedKeys(mapped[..n], fields, s);
      PutShape(ReadMapped([], mapped[..n], fields), mapped[n].1, Field(fields, mapped[n].0));
    }
  }

  /** `array_combine($codes, $codes)` holds codes as its values. */
  lemma CombineValues(codes: seq<string>)
    ensures ValuesIn(Plan(codes, []), set c | c in codes)
  {
    var p := Plan(codes, []);
    forall i | 0 <= i < |p| ensures p[i].1 in codes {
      HasKeyIndex(p, p[i].0);
      LookupIsMembership(p, p[i].0, p[i].1);
    }
  }

  /** The external codes of the item map are not excluded codes. */
  lemma MapKeysNotExcluded()
    ensures forall i :: 0 <= i < |ITEM_MAP| ==> ITEM_MAP[i].0 !in V1_EXCLUDE
  {
    assert |"backorder_qty"| == 13 && |"error_info"| == 10;
    assert |"original_price"| == 14 && |"images"| == 6 && |"children"| == 8 && |"messages"| == 8 && |"is_saleable"| == 11;
  }

  /**
   * The data read from an item never holds an excluded code, whatever is
   * included: those codes come only from the manual step. Its keys are
   * distinct.
   */
  lemma ReadV1Excludes(fields: map<string, Value>, included: seq<string>)
    ensures DistinctKeys(ReadV1(fields, included))
    ensures forall k :: HasKey(ReadV1(fields, included), k) ==> k !in V1_EXCLUDE
  {
    var codes := Without(included, V1_EXCLUDE);
    var s := set c | c in codes;
    CombineValues(codes);
    MapAttributesValuesIn(ITEM_MAP, Plan(codes, []), s);
    var raw := ReadMapped([], ReadCodes(included), fields);
    ReadMappedKeys(ReadCodes(included), fields, s);
    MapAttributesDistinct(Flip(ITEM_MAP), raw);
    FlipValuesIn(ITEM_MAP);
    MapKeysNotExcluded();
    forall k | HasKey(ReadV1(fields, included), k) ensures k !in V1_EXCLUDE {
      MapAttributesKeys(Flip(ITEM_MAP), raw, k);
      var i :| 0 <= i < |raw| && Rename(Flip(ITEM_MAP), raw[i].0) == k;
      HasKeyIndex(raw, raw[i].0);
      RenameFrom(Flip(ITEM_MAP), raw[i].0);
    }
  }

  /** The manual attributes set before the child block. */
  function ManualV1Prices(facts: ItemFacts, included: seq<string>, item: map<string, Value>, d: Record): Record {
    var d1 := PutIf(d, "original_price" in included, "original_price", facts.price(item));
    PutIf(d1, "images" in included, "images", ImageUrls(facts, item))
  }

  /** The child block's result and the manual attributes set after it. */
  function ManualV1Flags(facts: ItemFacts, included: seq<string>, item: map<string, Value>, block: bool, children: seq<Value>, d: Record): Record {
    var d3 := PutIf(d, block, "children", List(children));
    var d4 := PutIf(d3, "messages" in included, "messages", facts.messages(item));
    PutIf(d4, "is_saleable" in included, "is_saleable", Bool(Truthy(facts.salable(item))))
  }

  /** The manual step, on the filtered data `d`. */
  function ManualV1(facts: ItemFacts, included: seq<string>, item: map<string, Value>, block: bool, children: seq<Value>, d: Record): Record {
    ManualV1Flags(facts, included, item, block, children, ManualV1Prices(facts, included, item, d))
  }

  /** An independent statement of the manual step: the value each excluded code is given. */
  function ManualValueV1(facts: ItemFacts, item: map<string, Value>, children: seq<Value>, k: string): Value {
    if k == "original_price" then facts.price(item)
    else if k == "images" then ImageUrls(facts, item)
    else if k == "children" then List(children)
    else if k == "messages" then facts.messages(item)
    else Bool(Truthy(facts.salable(item)))
  }

  /** The names of the manual step are pairwise different. */
  lemma ExcludedNamesDistinct()
    ensures "original_price" != "images" && "original_price" != "children" && "original_price" != "messages"
    ensures "original_price" != "is_saleable" && "images" != "children" && "images" != "messages"
    ensures "images" != "is_saleable" && "children" != "messages" && "children" != "is_saleable" && "messages" != "is_saleable"
  {
    assert |"original_price"| == 14 && |"images"| == 6 && |"children"| == 8 && |"messages"| == 8 && |"is_saleable"| == 11;
    assert "children"[0] != "messages"[0];
  }

  /** The manual step sets every included excluded code (children only when the block ran) and keeps every other key. */
  lemma ManualV1Lookup(facts: ItemFacts, included: seq<string>, item: map<string, Value>, block: bool, children: seq<Value>, d: Record, k: string)
    requires block ==> "children" in included
    ensures Lookup(ManualV1(facts, included, item, block, children, d), k) ==
            if k in V1_EXCLUDE && k in included && (k == "children" ==> block)
            then Some(ManualValueV1(facts, item, children, k))
            else Lookup(d, k)
  {
    ExcludedNamesDistinct();
  }

  /** The part of `prepareItem` after the child block: the manual attributes are typed with the rest, null-filled, sorted. */
  function ProjectV1(cx: ItemContext, f: Filter, item: map<string, Value>, block: bool, children: seq<Value>): Record {
    var data := Out(ReadV1(item, f.included), f.readable);
    Finish(FixedTypes(cx.loc, cx.currencyCode, ManualV1(cx.facts, f.included, item, block, children, data), ITEM_TYPES), f.included)
  }

  /** The projection of an item as a child: no child block. */
  function NestedProjectionV1(cx: ItemContext, f: Filter, item: map<string, Value>): Record {
    ProjectV1(cx, f, item, false, [])
  }

  function ChildProjectionV1(cx: ItemContext, f: Filter, item: map<string, Value>): Record {
    Remove(NestedProjectionV1(cx, f, item), "children")
  }

  /** The child block's loop: each item not deleted whose parent id is `id`, projected, without 'children'. */
  function ChildEntriesV1(cx: ItemContext, f: Filter, items: seq<ItemState>, id: int): seq<Value> {
    if |items| == 0 then []
    else
      var init := ChildEntriesV1(cx, f, items[..|items| - 1], id);
      var last := items[|items| - 1];
      if !last.deleted && ParentId(last.data) == id then init + [Dict(ChildProjectionV1(cx, f, last.data))] else init
  }

  /** What the child block collects for an item. */
  function BlockChildrenV1(cx: ItemContext, f: Filter, all: seq<ItemState>, item: map<string, Value>): seq<Value> {
    if ChildBlock(f, item) then ChildEntriesV1(cx, f, all, ItemId(item)) else []
  }

  /** `prepareItem($item, $filter)` for an item of a quote whose items collection is `all`. */
  function ItemProjectionV1(cx: ItemContext, f: Filter, all: seq<ItemState>, item: map<string, Value>): Record {
    ProjectV1(cx, f, item, ChildBlock(f, item), BlockChildrenV1(cx, f, all, item))
  }

  /**
   * A projection is sorted by key and holds every included code. An
   * included excluded code holds its typed manual value whether or not the
   * filter lets it through; any other key holds its typed read value when
   * the filter lets it through; every other included code is null.
   */
  lemma ProjectV1Lookup(cx: ItemContext, f: Filter, item: map<string, Value>, block: bool, children: seq<Value>, k: string)
    requires block ==> "children" in f.included
    ensures SortedKeys(ProjectV1(cx, f, item, block, children))
    ensures forall c :: c in f.included ==> HasKey(ProjectV1(cx, f, item, block, children), c)
    ensures var read := ReadV1(item, f.included);
            Lookup(ProjectV1(cx, f, item, block, children), k) ==
            if k in V1_EXCLUDE && k in f.included && (k == "children" ==> block)
            then Some(Typed(cx.loc, cx.currencyCode, ITEM_TYPES, k, ManualValueV1(cx.facts, item, children, k)))
            else if k in f.readable && HasKey(read, k) then Some(Typed(cx.loc, cx.currencyCode, ITEM_TYPES, k, Lookup(read, k).value))
            else if k in f.included then Some(Null)
            else None
  {
    var read := ReadV1(item, f.included);
    ReadV1Excludes(item, f.included);
    var data := Out(read, f.readable);
    OutDistinct(read, f.readable);
    var raw := ManualV1(cx.facts, f.included, item, block, children, data);
    ManualV1Lookup(cx.facts, f.included, item, block, children, data, k);
    ItemTypesDistinct();
    TypedFinishShape(cx.loc, cx.currencyCode, raw, ITEM_TYPES, f.included);
  }

  /** With 'children' included, a top-level item lists its child entries even when the filter does not let 'children' through. */
  lemma ItemProjectionV1Children(cx: ItemContext, f: Filter, all: seq<ItemState>, item: map<string, Value>)
    requires "children" in f.included && TopLevel(item)
    ensures Lookup(ItemProjectionV1(cx, f, all, item), "children") == Some(List(ChildEntriesV1(cx, f, all, ItemId(item))))
  {
    ProjectV1Lookup(cx, f, item, true, ChildEntriesV1(cx, f, all, ItemId(item)), "children");
    ChildrenUntyped();
  }

  /** `prepareItem($item, $filter)`; `nested` marks the call the child block makes, which skips the block. */
  method PrepareItemV1(cx: ItemContext, f: Filter, items: seq<DataObject>, item: DataObject, nested: bool) returns (r: Record)
    ensures nested ==> r == NestedProjectionV1(cx, f, old(item.data))
    ensures !nested ==> r == ItemProjectionV1(cx, f, old(Snapshot(items)), old(item.data))
    decreases if nested then 0 else 2
  {
    var included := f.included;
    var fields := item.data;
    var attributes := Plan(Without(included, V1_EXCLUDE), []);
    attributes := MapAttributes(ITEM_MAP, attributes);
    var data := ReadAttributes(item, attributes);
    data := UnmapAttributes(ITEM_MAP, data);
    data := Out(data, f.readable);
    data := ManualV1Prices(cx.facts, included, fields, data);
    var block := !nested && TopLevel(fields) && "children" in included;
    var children: seq<Value> := [];
    if block {
      children := ChildListV1(cx, f, items, ItemId(fields));
    }
    data := ManualV1Flags(cx.facts, included, fields, block, children, data);
    data := FixTypes(cx.loc, cx.currencyCode, data, [], ITEM_TYPES);
    r := Finish(data, included);
  }

  /** The read loop of `prepareItem`. */
  method ReadAttributes(item: DataObject, mapped: Assoc<string>) returns (data: Record)
    ensures data == ReadMapped([], mapped, item.data)
  {
    data := [];
    var i := 0;
    while i < |mapped|
      invariant 0 <= i <= |mapped|
      invariant data == ReadMapped([], mapped[..i], item.data)
    {
      assert mapped[..i + 1][..i] == mapped[..i];
      data := Put(data, mapped[i].1, item.Get(mapped[i].0));
      i := i + 1;
    }
    assert mapped[..|mapped|] == mapped;
  }

  /** The child block's loop. */
  method ChildListV1(cx: ItemContext, f: Filter, items: seq<DataObject>, id: int) returns (list: seq<Value>)
    ensures list == ChildEntriesV1(cx, f, old(Snapshot(items)), id)
    decreases 1
  {
    list := [];
    ghost var all := Snapshot(items);
    var i := 0;
    while i < |items|
      invariant 0 <= i <= |items|
      invariant list == ChildEntriesV1(cx, f, all[..i], id)
    {
      ChildEntriesV1Next(cx, f, all, i, id);
      var next := items[i];
      assert all[i] == ItemState(next.data, next.deleted);
      if !next.deleted && ParentId(next.data) == id {
        var child := PrepareItemV1(cx, f, items, next, true);
        assert Remove(child, "children") == ChildProjectionV1(cx, f, all[i].data);
        list := list + [Dict(Remove(child, "children"))];
      }
      i := i + 1;
    }
    assert all[..|items|] == all;
  }

  /** One more item of the collection adds its entry when it is a child of `id`. */
  lemma ChildEntriesV1Next(cx: ItemContext, f: Filter, all: seq<ItemState>, i: nat, id: int)
    requires i < |all|
    ensures ChildEntriesV1(cx, f, all[..i + 1], id) ==
            if !all[i].deleted && ParentId(all[i].data) == id
            then ChildEntriesV1(cx, f, all[..i], id) + [Dict(ChildProjectionV1(cx, f, all[i].data))]
            else ChildEntriesV1(cx, f, all[..i], id)
  {
    assert all[..i + 1][..i] == all[..i];
  }

  /** The projection of an item of a quote whose items are `all`, as a function of the item's data. */
  function ProjectorV1(cx: ItemContext, f: Filter, all: seq<ItemState>): map<string, Value> -> Record {
    d => ItemProjectionV1(cx, f, all, d)
  }

  /** The listing of a quote whose items are `all`: each visible item's projection under its id. */
  function CollectionOfV1(cx: ItemContext, f: Filter, all: seq<ItemState>): Assoc<Record> {
    Collected(all, ProjectorV1(cx, f, all))
  }

  /**
   * The listing is keyed by the ids of the visible items, one key per
   * distinct id, and a visible item whose id no later visible item reuses
   * is filed with its own projection.
   */
  lemma CollectionOfV1Contents(cx: ItemContext, f: Filter, all: seq<ItemState>)
    ensures DistinctKeys(CollectionOfV1(cx, f, all))
    ensures forall key :: HasKey(CollectionOfV1(cx, f, all), key) <==>
              exists i :: 0 <= i < |all| && Visible(all[i]) && IdKey(all[i].data) == key
    ensures forall i :: 0 <= i < |all| && Visible(all[i])
              && (forall j :: i < j < |all| && Visible(all[j]) ==> IdKey(all[j].data) != IdKey(all[i].data))
              ==> Lookup(CollectionOfV1(cx, f, all), IdKey(all[i].data)) == Some(ItemProjectionV1(cx, f, all, all[i].data))
  {
    CollectedDistinct(all, ProjectorV1(cx, f, all));
    CollectedKeys(all, ProjectorV1(cx, f, all));
    CollectedEntries(all, ProjectorV1(cx, f, all));
  }

  /** `prepareCollection($quote)`: the listing with the filter of a collection retrieve; the state is restored. */
  method PrepareCollectionV1(state: ResourceState, acl: (string, string) -> Filter, cx: ItemContext, quote: Quote)
    returns (entries: Assoc<Record>)
    modifies state
    ensures state.actionType == old(state.actionType) && state.operation == old(state.operation) && state.quote == old(state.quote)
    ensures entries == CollectionOfV1(cx, acl(COLLECTION, RETRIEVE), Snapshot(quote.items))
  {
    var actionType := state.actionType;
    var operation := state.operation;
    state.actionType := COLLECTION;
    state.operation := RETRIEVE;
    entries := CollectItemsV1(cx, acl(COLLECTION, RETRIEVE), quote.items);
    state.actionType := actionType;
    state.operation := operation;
  }

  /** The loop of `prepareCollection` over the visible items. */
  method CollectItemsV1(cx: ItemContext, f: Filter, items: seq<DataObject>) returns (entries: Assoc<Record>)
    ensures entries == CollectionOfV1(cx, f, Snapshot(items))
  {
    ghost var all := Snapshot(items);
    ghost var project := ProjectorV1(cx, f, all);
    entries := [];
    var i := 0;
    while i < |items|
      invariant 0 <= i <= |items|
      invariant entries == Collected(all[..i], project)
    {
      entries := CollectOneV1(cx, f, items, i, entries);
      i := i + 1;
    }
    assert all[..|items|] == all;
  }

  /** One pass of that loop. */
  method CollectOneV1(cx: ItemContext, f: Filter, items: seq<DataObject>, i: nat, entries: Assoc<Record>) returns (e: Assoc<Record>)
    requires i < |items|
    requires entries == Collected(Snapshot(items)[..i], ProjectorV1(cx, f, Snapshot(items)))
    ensures e == Collected(Snapshot(items)[..i + 1], ProjectorV1(cx, f, Snapshot(items)))
  {
    ghost var all := Snapshot(items);
    assert all[..i + 1][..i] == all[..i];
    assert all[i] == ItemState(items[i].data, items[i].deleted);
    e := entries;
    if !items[i].deleted && TopLevel(items[i].data) {
      var r := PrepareItemV1(cx, f, items, items[i], false);
      assert r == ProjectorV1(cx, f, all)(all[i].data);
      e := Put(entries, IdKey(items[i].data), r);
    }
  }

  /** `prepareResource($item)`: the item's projection with the filter of an entity retrieve; the state is restored. */
  method PrepareResourceV1(state: ResourceState, acl: (string, string) -> Filter, cx: ItemContext, quote: Quote, item: DataObject)
    returns (r: Record)
    modifies state
    ensures state.actionType == old(state.actionType) && state.operation == old(state.operation) && state.quote == old(state.quote)
    ensures r == ItemProjectionV1(cx, acl(ENTITY, RETRIEVE), old(Snapshot(quote.items)), old(item.data))
    ensures Snapshot(quote.items) == old(Snapshot(quote.items)) && item.data == old(item.data)
  {
    ghost var all := Snapshot(quote.items);
    var actionType := state.actionType;
    var operation := state.operation;
    state.actionType := ENTITY;
    state.operation := RETRIEVE;
    assert Snapshot(quote.items) == all;
    r := PrepareItemV1(cx, acl(ENTITY, RETRIEVE), quote.items, item, false);
    state.actionType := actionType;
    state.operation := operation;
    assert Snapshot(quote.items) == all;
  }

  /** The request `createResource` passes to `addProduct` here: the message is always plain 'Invalid SKU' and the website is always checked. */
  function CreateRequestV1(catalog: Catalog, f: Filter, all: seq<ItemState>, body: Record): Outcome<(Product, Record)> {
    Request(catalog, Incoming(f, body), "Invalid SKU", true, all)
  }

  /** What `createResource` ends with here. */
  function CreatedV1(catalog: Catalog, f: Filter, all: seq<ItemState>, body: Record, addProduct: (Product, Record) -> Added): Outcome<DataObject> {
    CreateOutcome(CreateRequestV1(catalog, f, all, body), addProduct)
  }

  /**
   * A product not assigned to the current website is refused with 400
   * 'Invalid SKU' even in single-store mode; every refusal is a 400 whose
   * message is 'Missing SKU', 'Invalid SKU' or the one `addProduct` threw;
   * a success is what `addProduct` gives for the product and the request.
   */
  lemma CreatedV1Rules(catalog: Catalog, f: Filter, all: seq<ItemState>, body: Record, addProduct: (Product, Record) -> Added)
    ensures var data := Incoming(f, body);
            var p := catalog.bySku(Get(data, "sku"));
            IsSet(data, "sku") && Truthy(p.id) && p.inStock && p.visibleInSite
            && (p.websiteIds.None? || catalog.websiteId !in p.websiteIds.value)
            ==> CreatedV1(catalog, f, all, body, addProduct) == Fault(BAD_REQUEST, "Invalid SKU")
    ensures var o := CreatedV1(catalog, f, all, body, addProduct);
            o.Fault? ==> o.code == BAD_REQUEST
                         && (o.message == "Missing SKU" || o.message == "Invalid SKU"
                             || exists p, r :: addProduct(p, r) == Threw(o.message))
    ensures var data := Incoming(f, body);
            var r := Request(catalog, data, "Invalid SKU", true, all);
            CreatedV1(catalog, f, all, body, addProduct).Done? ==>
              r.Done? && addProduct(r.value.0, r.value.1).Added?
  {
    var data := Incoming(f, body);
    ProductForRules(catalog, data, "Invalid SKU", true);
    var r := Request(catalog, data, "Invalid SKU", true, all);
    if r.Done? && addProduct(r.value.0, r.value.1).Threw? {
      assert addProduct(r.value.0, r.value.1) == Threw(CreatedV1(catalog, f, all, body, addProduct).message);
    }
  }

  /**
   * `createResource($quote, $data)`: the items `addProduct` adds join the
   * quote's items; a check that fails ends the call as a 400 with the
   * state still set to entity create.
   */
  method CreateResourceV1(state: ResourceState, acl: (string, string) -> Filter, catalog: Catalog, quote: Quote,
                          body: Record, addProduct: (Product, Record) -> Added)
    returns (o: Outcome<DataObject>)
    requires quote.Valid() && AddsItems(addProduct, quote)
    modifies state, quote
    ensures quote.Valid() && (o.Done? ==> o.value in quote.items)
    ensures state.quote == old(state.quote)
    ensures o == CreatedV1(catalog, acl(ENTITY, CREATE), old(Snapshot(quote.items)), body, addProduct)
    ensures quote.items
            == old(quote.items) + NewItems(old(quote.items), CreateRequestV1(catalog, acl(ENTITY, CREATE), old(Snapshot(quote.items)), body), addProduct)
    ensures quote.data == old(quote.data) && quote.billing == old(quote.billing) && quote.shipping == old(quote.shipping)
    ensures quote.payment == old(quote.payment) && quote.isVirtual == old(quote.isVirtual) && quote.totalsCollectedFlag == old(quote.totalsCollectedFlag)
    ensures o.Done? ==> state.actionType == old(state.actionType) && state.operation == old(state.operation)
    ensures o.Fault? ==> state.actionType == ENTITY && state.operation == CREATE && o.code == BAD_REQUEST
  {
    var all := Snapshot(quote.items);
    var actionType := state.actionType;
    var operation := state.operation;
    state.actionType := ENTITY;
    state.operation := CREATE;
    var data := Incoming(acl(ENTITY, CREATE), body);
    var checked := CheckSku(catalog, data, "Invalid SKU", true);
    if checked.Fault? {
      return Fault(checked.code, checked.message);
    }
    var p := checked.value;
    var request := WithQty(data, p, HasProduct(all, p.id));
    o := AddToQuote(quote, addProduct, p, request);
    if o.Done? {
      state.actionType := actionType;
      state.operation := operation;
    }
  }

  /** `updateResource($item, $data)`: every allowed key, mapped to its internal name, is written; the state is restored. */
  method UpdateResourceV1(state: ResourceState, acl: (string, string) -> Filter, item: DataObject, body: Record)
    modifies state, item
    ensures state.actionType == old(state.actionType) && state.operation == old(state.operation) && state.quote == old(state.quote)
    ensures item.data == WrittenAll(old(item.data), Incoming(acl(ENTITY, UPDATE), body))
    ensures item.deleted == old(item.deleted)
  {
    var actionType := state.actionType;
    var operation := state.operation;
    state.actionType := ENTITY;
    state.operation := UPDATE;
    WriteAll(item, Incoming(acl(ENTITY, UPDATE), body));
    state.actionType := actionType;
    state.operation := operation;
  }

  /** The item map sends no key but sku itself to sku. */
  lemma SkuUnrenamed()
    ensures Rename(ITEM_MAP, "sku") == "sku"
  {
    assert |"backorder_qty"| == 13 && |"error_info"| == 10 && |"sku"| == 3;
    assert ITEM_MAP[1..][1..] == [];
  }

  /**
   * Unlike Model/Item.php, an update writes the sku when the filter allows
   * it: the item then holds the sku of the body.
   */
  lemma UpdateV1WritesSku(f: Filter, fields: map<string, Value>, body: Record)
    requires DistinctKeys(body)
    requires "sku" in f.writable && HasKey(body, "sku")
    ensures "sku" in WrittenAll(fields, Incoming(f, body))
    ensures WrittenAll(fields, Incoming(f, body))["sku"] == Lookup(body, "sku").value
  {
    var filtered := In(body, f);
    RestrictDistinct(body, set c | c in f.writable);
    HasKeyIndex(filtered, "sku");
    var i :| 0 <= i < |filtered| && filtered[i].0 == "sku";
    SkuUnrenamed();
    forall j | i < j < |filtered| ensures Rename(ITEM_MAP, filtered[j].0) != Rename(ITEM_MAP, filtered[i].0) {
      ItemRenameNotSku(filtered[j].0);
    }
    MapAttributesLastWins(ITEM_MAP, filtered, i);
    LookupIsMembership(filtered, "sku", filtered[i].1);
    MapAttributesDistinct(ITEM_MAP, filtered);
    WrittenAllLookup(fields, Incoming(f, body), "sku");
  }

  /** An update writes exactly the keys of the incoming data and keeps every other field. */
  lemma UpdateV1Writes(f: Filter, fields: map<string, Value>, body: Record, k: string)
    ensures var data := Incoming(f, body);
      && (k in WrittenAll(fields, data) <==> k in fields || HasKey(data, k))
      && (HasKey(data, k) ==> WrittenAll(fields, data)[k] == Lookup(data, k).value)
      && (!HasKey(data, k) && k in fields ==> WrittenAll(fields, data)[k] == fields[k])
  {
    MapAttributesDistinct(ITEM_MAP, In(body, f));
    WrittenAllLookup(fields, Incoming(f, body), k);
  }

  /**
   * Collection create: the item is created and the items `addProduct`
   * adds join the quote's items; the quote is saved once, which saves its
   * items and gives a new item the id `newId` the database assigns; the
   * item is rendered with 201 when it had no id yet, 200 otherwise. A
   * failed create is its 400 and adds nothing.
   */
  method CollectionCreateV1(state: ResourceState, acl: (string, string) -> Filter, cx: ItemContext, catalog: Catalog,
                            session: Quote, body: Record, addProduct: (Product, Record) -> Added, newId: int, collect: map<string, Value> -> map<string, Value>)
    returns (o: Outcome<Reply>)
    requires session.Valid() && state.quote == session
    requires AddsItems(addProduct, session)
    requires newId > 0
    modifies state, session, session.billing, session.shipping
    modifies CreatedItem(CreatedV1(catalog, acl(ENTITY, CREATE), Snapshot(session.items), body, addProduct))
    ensures session.Valid()
    ensures var all := old(Snapshot(session.items));
            var c := CreatedV1(catalog, acl(ENTITY, CREATE), all, body, addProduct);
      && (c.Fault? ==> o == Fault(c.code, c.message) && o.code == BAD_REQUEST && session.items == old(session.items))
      && (c.Done? ==>
            && session.items == old(session.items) + NewItems(old(session.items), CreateRequestV1(catalog, acl(ENTITY, CREATE), all, body), addProduct)
            && c.value.data == Saved(old(c.value.data), newId)
            && o == Done(Reply(if old(IsNew(c.value.data, "item_id")) then CREATED else OK,
                               Single(ItemProjectionV1(cx, acl(ENTITY, RETRIEVE), Snapshot(session.items), c.value.data)))))
    ensures o.Fault? ==> View(session) == old(View(session))
    ensures o.Done? ==> View(session) == AfterSaves(1, collect, old(View(session)))
  {
    ghost var all := Snapshot(session.items);
    ghost var c := CreatedV1(catalog, acl(ENTITY, CREATE), all, body, addProduct);
    ghost var items := session.items + NewItems(session.items, CreateRequestV1(catalog, acl(ENTITY, CREATE), all, body), addProduct);
    var created := CreateResourceV1(state, acl, catalog, session, body, addProduct);
    assert created == c && session.items == items;
    if created.Fault? {
      return Fault(created.code, created.message);
    }
    ghost var data := created.value.data;
    assert old(created.value.data) == data;
    var reply := SaveCreatedV1(state, acl, cx, session, created.value, newId, collect);
    assert created.value.data == Saved(data, newId);
    o := Done(reply);
    assert o == Done(Reply(if IsNew(data, "item_id") then CREATED else OK,
                           Single(ItemProjectionV1(cx, acl(ENTITY, RETRIEVE), Snapshot(session.items), created.value.data))));
  }

  /**
   * The rest of collection create: one save of the quote, which saves the
   * item too, then the item rendered, with 201 when it had no id, 200
   * otherwise.
   */
  method SaveCreatedV1(state: ResourceState, acl: (string, string) -> Filter, cx: ItemContext, session: Quote, item: DataObject, newId: int,
                       collect: map<string, Value> -> map<string, Value>)
    returns (reply: Reply)
    requires session.Valid() && state.quote == session && item in session.items
    requires newId > 0
    modifies state, session, session.billing, session.shipping, item
    ensures session.Valid() && session.items == old(session.items)
    ensures item.data == Saved(old(item.data), newId)
    ensures reply.code == (if old(IsNew(item.data, "item_id")) then CREATED else OK)
    ensures reply.body == Single(ItemProjectionV1(cx, acl(ENTITY, RETRIEVE), Snapshot(session.items), item.data))
    ensures View(session) == AfterSaves(1, collect, old(View(session)))
  {
    var isNew := IsNew(item.data, "item_id");
    var _ := SaveQuote(state, session, collect);
    SaveItem(item, newId);
    var code := if isNew then CREATED else OK;
    var r := PrepareResourceV1(state, acl, cx, session, item);
    reply := Reply(code, Single(r));
  }

  /** Entity retrieve here, on a quote whose items are `all`: the 404 of `loadItem`, or the loaded item rendered as this version reads it. */
  function EntityRetrievedV1(cx: ItemContext, r: Filter, all: seq<ItemState>, id: Value): Outcome<Reply> {
    match Target(all, id)
    case None => Fault(NOT_FOUND, "Not Found")
    case Some(at) => Done(Reply(OK, Single(ItemProjectionV1(cx, r, all, all[at].data))))
  }

  /**
   * Entity create or update here, on a quote whose items are `all`: the
   * 404 of `loadItem`, leaving the items as they are, or the reply and the
   * items with every allowed key of the body written to the loaded one.
   */
  function EntityUpdatedV1(cx: ItemContext, w: Filter, r: Filter, all: seq<ItemState>, id: Value, body: Record)
    : (Outcome<Reply>, seq<ItemState>)
  {
    match Target(all, id)
    case None => (Fault(NOT_FOUND, "Not Found"), all)
    case Some(at) =>
      var after := all[at := ItemState(WrittenAll(all[at].data, Incoming(w, body)), false)];
      (Done(Reply(OK, Single(ItemProjectionV1(cx, r, after, after[at].data)))), after)
  }

  /** After entity delete, entity retrieve of the same id is a 404. */
  lemma RetrieveAfterDeleteV1(cx: ItemContext, f: Filter, all: seq<ItemState>, id: Value)
    ensures EntityRetrievedV1(cx, f, EntityDeleted(all, id, OK).1, id) == Fault(NOT_FOUND, "Not Found")
  {
    if Target(all, id).Some? {
      FindBySameIds(all, EntityDeleted(all, id, OK).1, ToInt(id));
    }
  }

  /**
   * When the incoming data carries neither the item id nor the parent id,
   * entity retrieve after entity create or update renders what the update
   * answered.
   */
  lemma RetrieveAfterUpdateV1(cx: ItemContext, w: Filter, r: Filter, all: seq<ItemState>, id: Value, body: Record)
    requires !HasKey(Incoming(w, body), "item_id") && !HasKey(Incoming(w, body), "parent_item_id")
    ensures var u := EntityUpdatedV1(cx, w, r, all, id, body);
            EntityRetrievedV1(cx, r, u.1, id) == u.0
  {
    var t := Target(all, id);
    if t.Some? {
      var at := t.value;
      var after := EntityUpdatedV1(cx, w, r, all, id, body).1;
      UpdateV1Writes(w, all[at].data, body, "item_id");
      UpdateV1Writes(w, all[at].data, body, "parent_item_id");
      assert Field(after[at].data, "item_id") == Field(all[at].data, "item_id");
      assert Field(after[at].data, "parent_item_id") == Field(all[at].data, "parent_item_id");
      FindBySameIds(all, after, ToInt(id));
    }
  }

  /** Entity retrieve: load the item (404 when it is not a visible item) and render it. */
  method EntityRetrieveV1(state: ResourceState, acl: (string, string) -> Filter, cx: ItemContext, session: Quote, id: Value)
    returns (o: Outcome<Reply>)
    modifies state
    ensures state.actionType == old(state.actionType) && state.operation == old(state.operation) && state.quote == old(state.quote)
    ensures o == EntityRetrievedV1(cx, acl(ENTITY, RETRIEVE), old(Snapshot(session.items)), id)
  {
    ghost var all := Snapshot(session.items);
    var loaded := LoadItem(session, id);
    if loaded.Fault? {
      return Fault(loaded.code, loaded.message);
    }
    assert loaded.value.data == all[Target(all, id).value].data;
    var r := PrepareResourceV1(state, acl, cx, session, loaded.value);
    o := Done(Reply(OK, Single(r)));
  }

  /** Entity create and update: load the item (404 as for a read), write it, save the quote, render it. */
  method EntityUpdateV1(state: ResourceState, acl: (string, string) -> Filter, cx: ItemContext, session: Quote, id: Value, body: Record,
                        collect: map<string, Value> -> map<string, Value>)
    returns (o: Outcome<Reply>)
    requires session.Valid() && state.quote == session
    modifies state, session, session.billing, session.shipping, session.items
    ensures session.items == old(session.items)
    ensures (o, Snapshot(session.items)) == EntityUpdatedV1(cx, acl(ENTITY, UPDATE), acl(ENTITY, RETRIEVE), old(Snapshot(session.items)), id, body)
    ensures o.Fault? ==> View(session) == old(View(session))
    ensures o.Done? ==> View(session) == AfterSaves(1, collect, old(View(session)))
  {
    ghost var all := Snapshot(session.items);
    var loaded := LoadItem(session, id);
    if loaded.Fault? {
      return Fault(loaded.code, loaded.message);
    }
    var r := UpdateAndRenderV1(state, acl, cx, session, loaded.value, body, Target(all, id).value, collect);
    o := Done(Reply(OK, Single(r)));
  }

  /** The part of entity update after the load: write the item, save the quote, render the item. */
  method UpdateAndRenderV1(state: ResourceState, acl: (string, string) -> Filter, cx: ItemContext, session: Quote, item: DataObject, body: Record,
                           ghost at: nat, collect: map<string, Value> -> map<string, Value>)
    returns (r: Record)
    requires session.Valid() && state.quote == session && at < |session.items| && session.items[at] == item
    modifies state, session, session.billing, session.shipping, item
    ensures session.items == old(session.items)
    ensures Snapshot(session.items)
            == old(Snapshot(session.items))[at := ItemState(WrittenAll(old(item.data), Incoming(acl(ENTITY, UPDATE), body)), old(item.deleted))]
    ensures r == ItemProjectionV1(cx, acl(ENTITY, RETRIEVE), Snapshot(session.items), item.data)
    ensures View(session) == AfterSaves(1, collect, old(View(session)))
  {
    WriteAtV1(state, acl, session, item, body, at, collect);
    r := PrepareResourceV1(state, acl, cx, session, item);
  }

  /** Write every allowed key to the loaded item and save the quote. */
  method WriteAtV1(state: ResourceState, acl: (string, string) -> Filter, session: Quote, item: DataObject, body: Record, ghost at: nat,
                   collect: map<string, Value> -> map<string, Value>)
    requires session.Valid() && state.quote == session && at < |session.items| && session.items[at] == item
    modifies state, session, session.billing, session.shipping, item
    ensures session.items == old(session.items)
    ensures Snapshot(session.items)
            == old(Snapshot(session.items))[at := ItemState(WrittenAll(old(item.data), Incoming(acl(ENTITY, UPDATE), body)), old(item.deleted))]
    ensures View(session) == AfterSaves(1, collect, old(View(session)))
  {
    ghost var all := Snapshot(session.items);
    UpdateResourceV1(state, acl, item, body);
    ghost var written := Snapshot(session.items);
    assert written == all[at := ItemState(item.data, item.deleted)];
    var _ := SaveQuote(state, session, collect);
    assert Snapshot(session.items) == written;
  }

  /** Entity delete: load the item (404 as for a read), delete it, save the quote; no response code is set, so it is the default 200. */
  method EntityDeleteV1(state: ResourceState, session: Quote, id: Value, collect: map<string, Value> -> map<string, Value>) returns (o: Outcome<Reply>)
    requires session.Valid() && state.quote == session
    modifies state, session, session.billing, session.shipping, session.items
    ensures session.items == old(session.items)
    ensures (o, Snapshot(session.items)) == EntityDeleted(old(Snapshot(session.items)), id, OK)
    ensures o.Fault? ==> View(session) == old(View(session))
    ensures o.Done? ==> View(session) == AfterSaves(1, collect, old(View(session)))
  {
    ghost var all := Snapshot(session.items);
    var loaded := LoadItem(session, id);
    if loaded.Fault? {
      return Fault(loaded.code, loaded.message);
    }
    DeleteAt(state, session, loaded.value, Target(all, id).value, collect);
    o := Done(Reply(OK, NoBody));
  }

  /** The collection operations of this version: there is no collection delete. */
  const COLLECTION_OPS_V1: set<string> := {COLLECTION + RETRIEVE, COLLECTION + CREATE}

  /**
   * `dispatch()`: collection retrieve (a plain array keyed by item id),
   * collection create, entity retrieve, entity create or update, entity
   * delete; anything else, collection delete included, is 405.
   */
  method DispatchV1(state: ResourceState, acl: (string, string) -> Filter, cx: ItemContext, catalog: Catalog, session: Quote,
                    id: Value, body: Record, addProduct: (Product, Record) -> Added, newId: int, collect: map<string, Value> -> map<string, Value>)
    returns (o: Outcome<Reply>)
    requires session.Valid() && AddsItems(addProduct, session) && newId > 0
    requires state.quote == null || state.quote == session
    modifies state, session, session.billing, session.shipping, session.items
    modifies CreatedItem(CreatedV1(catalog, acl(ENTITY, CREATE), Snapshot(session.items), body, addProduct))
    ensures var op := old(state.actionType) + old(state.operation);
            var all := old(Snapshot(session.items));
      && (op in COLLECTION_OPS_V1 ==>
            CollectionV1(cx, acl, catalog, body, addProduct, newId, op, all,
                         old(CreatedData(CreatedV1(catalog, acl(ENTITY, CREATE), Snapshot(session.items), body, addProduct))),
                         CreatedData(CreatedV1(catalog, acl(ENTITY, CREATE), all, body, addProduct)),
                         old(session.items), session.items, Snapshot(session.items), o))
      && (op in ENTITY_OPS ==> EntityV1(cx, acl, id, body, op, all, Snapshot(session.items), o) && session.items == old(session.items))
      && (op !in COLLECTION_OPS_V1 && op !in ENTITY_OPS ==> o == NotAllowed() && session.items == old(session.items))
    ensures var op := old(state.actionType) + old(state.operation);
            var loaded := LoadedView(old(state.quote) != null, old(View(session)));
      && (op == COLLECTION + RETRIEVE || op == ENTITY + RETRIEVE || o.Fault? ==> View(session) == loaded)
      && (op != COLLECTION + RETRIEVE && op != ENTITY + RETRIEVE && o.Done? ==> View(session) == AfterSaves(1, collect, loaded))
  {
    ghost var all := Snapshot(session.items);
    ghost var c := CreatedV1(catalog, acl(ENTITY, CREATE), all, body, addProduct);
    ghost var created := CreatedData(c);
    var quote := LoadQuote(state, session, false);
    ghost var items := session.items;
    assert items == old(session.items) && Snapshot(items) == all && CreatedData(c) == created;
    ghost var loaded := View(session);
    assert loaded == LoadedView(old(state.quote) != null, old(View(session)));
    OpSetsDisjoint();
    var op := state.actionType + state.operation;
    if op in COLLECTION_OPS_V1 {
      o := DispatchCollectionV1(state, acl, cx, catalog, session, op, body, addProduct, newId, collect);
    } else if op in ENTITY_OPS {
      o := DispatchEntityV1(state, acl, cx, session, op, id, body, collect);
      assert session.items == items;
    } else {
      o := NotAllowed();
    }
  }

  /** Collection delete is not among the operations of this version. */
  lemma NoCollectionDelete()
    ensures COLLECTION + DELETE !in COLLECTION_OPS_V1 && COLLECTION + DELETE !in ENTITY_OPS
  {
    OpsDistinct();
    assert (COLLECTION + DELETE)[0] != (ENTITY + DELETE)[0];
    assert |COLLECTION + DELETE| != |ENTITY + RETRIEVE|;
    assert (COLLECTION + DELETE)[0] != (ENTITY + CREATE)[0] && (COLLECTION + DELETE)[0] != (ENTITY + UPDATE)[0];
  }

  /**
   * The collection cases of `dispatch()`, on the items `all` (the objects
   * `before`) that become the objects `after` in the states `now`:
   * collection retrieve lists the visible items as a plain array;
   * collection create is `CreatedV1`, whose item's data goes from
   * `created` to `saved`, with its new items appended and the item
   * rendered.
   */
  predicate CollectionV1(cx: ItemContext, acl: (string, string) -> Filter, catalog: Catalog, body: Record,
                         addProduct: (Product, Record) -> Added, newId: int, op: string, all: seq<ItemState>,
                         created: map<string, Value>, saved: map<string, Value>,
                         before: seq<DataObject>, after: seq<DataObject>, now: seq<ItemState>, o: Outcome<Reply>)
  {
    var c := CreatedV1(catalog, acl(ENTITY, CREATE), all, body, addProduct);
    && (op == COLLECTION + RETRIEVE ==>
          o == Done(Reply(OK, Listing(CollectionOfV1(cx, acl(COLLECTION, RETRIEVE), all), false))) && after == before && now == all)
    && (op == COLLECTION + CREATE ==>
          && (c.Fault? ==> o == Fault(c.code, c.message) && o.code == BAD_REQUEST && after == before)
          && (c.Done? ==>
                && after == before + NewItems(before, CreateRequestV1(catalog, acl(ENTITY, CREATE), all, body), addProduct)
                && saved == Saved(created, newId)
                && o == Done(Reply(if IsNew(created, "item_id") then CREATED else OK,
                                   Single(ItemProjectionV1(cx, acl(ENTITY, RETRIEVE), now, saved))))))
  }

  /** The entity cases of `dispatch()`, on the items `all` that become `after`; entity delete answers the default 200. */
  predicate EntityV1(cx: ItemContext, acl: (string, string) -> Filter, id: Value, body: Record, op: string, all: seq<ItemState>,
                     after: seq<ItemState>, o: Outcome<Reply>)
  {
    && (op == ENTITY + RETRIEVE ==> o == EntityRetrievedV1(cx, acl(ENTITY, RETRIEVE), all, id) && after == all)
    && (op == ENTITY + CREATE || op == ENTITY + UPDATE ==> (o, after) == EntityUpdatedV1(cx, acl(ENTITY, UPDATE), acl(ENTITY, RETRIEVE), all, id, body))
    && (op == ENTITY + DELETE ==> (o, after) == EntityDeleted(all, id, OK))
  }

  /** The collection cases of `dispatch()`. */
  method DispatchCollectionV1(state: ResourceState, acl: (string, string) -> Filter, cx: ItemContext, catalog: Catalog, session: Quote,
                              op: string, body: Record, addProduct: (Product, Record) -> Added, newId: int, collect: map<string, Value> -> map<string, Value>)
    returns (o: Outcome<Reply>)
    requires op in COLLECTION_OPS_V1
    requires session.Valid() && AddsItems(addProduct, session) && state.quote == session && newId > 0
    modifies state, session, session.billing, session.shipping
    modifies CreatedItem(CreatedV1(catalog, acl(ENTITY, CREATE), Snapshot(session.items), body, addProduct))
    ensures CollectionV1(cx, acl, catalog, body, addProduct, newId, op, old(Snapshot(session.items)),
                         old(CreatedData(CreatedV1(catalog, acl(ENTITY, CREATE), Snapshot(session.items), body, addProduct))),
                         CreatedData(CreatedV1(catalog, acl(ENTITY, CREATE), old(Snapshot(session.items)), body, addProduct)),
                         old(session.items), session.items, Snapshot(session.items), o)
    ensures op == COLLECTION + RETRIEVE || o.Fault? ==> View(session) == old(View(session))
    ensures op != COLLECTION + RETRIEVE && o.Done? ==> View(session) == AfterSaves(1, collect, old(View(session)))
  {
    ghost var all := Snapshot(session.items);
    ghost var created := CreatedData(CreatedV1(catalog, acl(ENTITY, CREATE), all, body, addProduct));
    ghost var before := session.items;
    OpsDistinct();
    if op == COLLECTION + RETRIEVE {
      var entries := PrepareCollectionV1(state, acl, cx, session);
      assert Snapshot(session.items) == all && View(session) == old(View(session));
      o := Done(Reply(OK, Listing(entries, false)));
    } else {
      o := CollectionCreateV1(state, acl, cx, catalog, session, body, addProduct, newId, collect);
      assert CollectionV1(cx, acl, catalog, body, addProduct, newId, op, all, created,
                          CreatedData(CreatedV1(catalog, acl(ENTITY, CREATE), all, body, addProduct)),
                          before, session.items, Snapshot(session.items), o);
    }
  }

  /** The entity cases of `dispatch()`. */
  method DispatchEntityV1(state: ResourceState, acl: (string, string) -> Filter, cx: ItemContext, session: Quote,
                          op: string, id: Value, body: Record, collect: map<string, Value> -> map<string, Value>)
    returns (o: Outcome<Reply>)
    requires op in ENTITY_OPS
    requires session.Valid() && state.quote == session
    modifies state, session, session.billing, session.shipping, session.items
    ensures session.items == old(session.items)
    ensures EntityV1(cx, acl, id, body, op, old(Snapshot(session.items)), Snapshot(session.items), o)
    ensures op == ENTITY + RETRIEVE || o.Fault? ==> View(session) == old(View(session))
    ensures op != ENTITY + RETRIEVE && o.Done? ==> View(session) == AfterSaves(1, collect, old(View(session)))
  {
    OpsDistinct();
    if op == ENTITY + RETRIEVE {
      o := EntityRetrieveV1(state, acl, cx, session, id);
    } else if op == ENTITY + CREATE || op == ENTITY + UPDATE {
      o := EntityUpdateV1(state, acl, cx, session, id, body, collect);
    } else {
      o := EntityDeleteV1(state, session, id, collect);
    }
  }
}
