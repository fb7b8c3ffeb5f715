/**
 * Model/Item.php: the items of the cart. Items are listed keyed by id,
 * read, added by SKU, updated, and deleted one by one or all together.
 * The catalog, `addProduct`, the product's price, URL, image and message
 * helpers belong to Magento and are given as functions.
 */
module Item {
  import opened Wrappers
  import opened Values
  import opened Casts
  import opened Codec
  import opened KeySort
  import opened Projection
  import opened Typing
  import opened Pipeline
  import opened Objects
  import opened QuoteSync
  import opened Resource

  /** `$attributeMap`. */
  const ITEM_MAP: AttrMap := [("backorder_qty", "backorders"), ("error_info", "error_infos")]

  /** `$attributeTypeMap`. */
  const ITEM_TYPES: TypeMap := [("item_id", TInt), ("qty", TFloat), ("original_price", TCurrency),
                                ("price", TCurrency), ("row_total", TCurrency), ("backorder_qty", TFloat)]

  /** `$manualAttributes`. */
  const ITEM_MANUAL: set<string> := {"original_price", "url", "images", "children", "messages", "is_saleable"}

  /** A quote item as a projection sees it: its data and Magento's deleted flag. */
  datatype ItemState = ItemState(data: map<string, Value>, deleted: bool)

  /** The items collection of a quote, as values. */
  function Snapshot(items: seq<DataObject>): (s: seq<ItemState>)
    reads items
    ensures |s| == |items|
    ensures forall i :: 0 <= i < |items| ==> s[i] == ItemState(items[i].data, items[i].deleted)
  {
    if |items| == 0 then []
    else Snapshot(items[..|items| - 1]) + [ItemState(items[|items| - 1].data, items[|items| - 1].deleted)]
  }

  /** `$item->getId()`, compared as an integer. */
  function ItemId(data: map<string, Value>): int {
    ToInt(Field(data, "item_id"))
  }

  /** `$item->getParentItemId()`, compared as an integer. */
  function ParentId(data: map<string, Value>): int {
    ToInt(Field(data, "parent_item_id"))
  }

  /** `!$item->getParentItemId()`. */
  predicate TopLevel(data: map<string, Value>) {
    !Truthy(Field(data, "parent_item_id"))
  }

  /** `getAllVisibleItems()` keeps the items that are not deleted and have no parent. */
  predicate Visible(s: ItemState) {
    !s.deleted && TopLevel(s.data)
  }

  /**
   * The key `$data[$item->getId()]` files an item under: the decimal text
   * of its id. An item without an id would be filed under "" in PHP and
   * under "0" here; every listed item has been saved and has an id.
   */
  function IdKey(data: map<string, Value>): string {
    IntText(ItemId(data))
  }

  /**
   * What Magento supplies for the manual attributes of an item: whether the
   * tax config shows cart prices including tax, the product's price, its
   * URL (when the item has no redirect URL), the image helper's URL for an
   * image type, `getMessage(false)` and `getIsSalable()`.
   */
  datatype ItemFacts = ItemFacts(
    pricesInclTax: bool,
    price: map<string, Value> -> Value,
    productUrl: map<string, Value> -> Value,
    imageUrl: (map<string, Value>, string) -> string,
    messages: map<string, Value> -> Value,
    salable: map<string, Value> -> Value)

  /** What a projection depends on besides the filter and the items: the locale, the quote's currency code, the item facts. */
  datatype ItemContext = ItemContext(loc: Locale, currencyCode: Value, facts: ItemFacts)

  /** `getProductUrl($item)`: the redirect URL if there is one, else the product's URL. */
  function ProductUrl(facts: ItemFacts, item: map<string, Value>): Value {
    if Truthy(Field(item, "redirect_url")) then Field(item, "redirect_url") else facts.productUrl(item)
  }

  /** `getImageUrls($product)`: the normal, small and thumbnail URLs. */
  function ImageUrls(facts: ItemFacts, item: map<string, Value>): Value {
    Dict([("normal", Str(facts.imageUrl(item, "image"))),
          ("small", Str(facts.imageUrl(item, "small_image"))),
          ("thumbnail", Str(facts.imageUrl(item, "thumbnail")))])
  }

  /** Whether `prepareItem` runs its child block for an item. */
  predicate ChildBlock(f: Filter, item: map<string, Value>) {
    TopLevel(item) && "children" in f.included
  }

  /** The manual attributes `prepareItem` adds, in source order, to the data `d` read so far. */
  function Manual(facts: ItemFacts, included: seq<string>, item: map<string, Value>, block: bool, children: seq<Value>, d: Record): Record {
    ManualFlags(facts, included, item, block, children, ManualPrices(facts, included, item, d))
  }

  /** The manual attributes set before the child block. */
  function ManualPrices(facts: ItemFacts, included: seq<string>, item: map<string, Value>, d: Record): Record {
    var d1 := PutIf(d, "row_total" in included && facts.pricesInclTax, "row_total", Field(item, "row_total_incl_tax"));
    var d2 := PutIf(d1, "original_price" in included, "original_price", facts.price(item));
    var d3 := PutIf(d2, "url" in included, "url", ProductUrl(facts, item));
    PutIf(d3, "images" in included, "images", ImageUrls(facts, item))
  }

  /** The child block's result and the manual attributes set after it. */
  function ManualFlags(facts: ItemFacts, included: seq<string>, item: map<string, Value>, block: bool, children: seq<Value>, d: Record): Record {
    var d5 := PutIf(d, block, "children", List(children));
    var d6 := PutIf(d5, "messages" in included, "messages", facts.messages(item));
    PutIf(d6, "is_saleable" in included, "is_saleable", Bool(Truthy(facts.salable(item))))
  }

  /**
   * The data `prepareItem` builds before the event and the filter: the
   * non-manual included codes read through the attribute map, then the
   * manual attributes; `block` says whether the child block runs and
   * `children` is what it collects.
   */
  function Raw(facts: ItemFacts, included: seq<string>, item: map<string, Value>, block: bool, children: seq<Value>): Record {
    Manual(facts, included, item, block, children, LoadedAttributes(item, included, ITEM_MANUAL, ITEM_MAP, []))
  }

  /** An independent statement of `Raw`, code by code: which value an included code ends up with. */
  function RawValue(facts: ItemFacts, item: map<string, Value>, block: bool, children: seq<Value>, k: string): Option<Value> {
    if k == "row_total" && facts.pricesInclTax then Some(Field(item, "row_total_incl_tax"))
    else if k == "original_price" then Some(facts.price(item))
    else if k == "url" then Some(ProductUrl(facts, item))
    else if k == "images" then Some(ImageUrls(facts, item))
    else if k == "children" then (if block then Some(List(children)) else None)
    else if k == "messages" then Some(facts.messages(item))
    else if k == "is_saleable" then Some(Bool(Truthy(facts.salable(item))))
    else Some(Field(item, Rename(ITEM_MAP, k)))
  }

  /** The manual step, as the last assignment to each key. */
  lemma ManualSteps(facts: ItemFacts, included: seq<string>, item: map<string, Value>, block: bool, children: seq<Value>, d: Record, k: string)
    ensures Lookup(Manual(facts, included, item, block, children, d), k) ==
            if "is_saleable" in included && k == "is_saleable" then Some(Bool(Truthy(facts.salable(item))))
            else if "messages" in included && k == "messages" then Some(facts.messages(item))
            else if block && k == "children" then Some(List(children))
            else if "images" in included && k == "images" then Some(ImageUrls(facts, item))
            else if "url" in included && k == "url" then Some(ProductUrl(facts, item))
            else if "original_price" in included && k == "original_price" then Some(facts.price(item))
            else if "row_total" in included && facts.pricesInclTax && k == "row_total" then Some(Field(item, "row_total_incl_tax"))
            else Lookup(d, k)
  {
    ManualFlagsSteps(facts, included, item, block, children, ManualPrices(facts, included, item, d), k);
    ManualPricesSteps(facts, included, item, d, k);
  }

  lemma ManualPricesSteps(facts: ItemFacts, included: seq<string>, item: map<string, Value>, d: Record, k: string)
    ensures Lookup(ManualPrices(facts, included, item, d), k) ==
            if "images" in included && k == "images" then Some(ImageUrls(facts, item))
            else if "url" in included && k == "url" then Some(ProductUrl(facts, item))
            else if "original_price" in included && k == "original_price" then Some(facts.price(item))
            else if "row_total" in included && facts.pricesInclTax && k == "row_total" then Some(Field(item, "row_total_incl_tax"))
            else Lookup(d, k)
  {
  }

  lemma ManualFlagsSteps(facts: ItemFacts, included: seq<string>, item: map<string, Value>, block: bool, children: seq<Value>, d: Record, k: string)
    ensures Lookup(ManualFlags(facts, included, item, block, children, d), k) ==
            if "is_saleable" in included && k == "is_saleable" then Some(Bool(Truthy(facts.salable(item))))
            else if "messages" in included && k == "messages" then Some(facts.messages(item))
            else if block && k == "children" then Some(List(children))
            else Lookup(d, k)
  {
  }

  /** The manual step sets the included manual attributes (and row_total when prices include tax) and keeps every other key. */
  lemma ManualLookup(facts: ItemFacts, included: seq<string>, item: map<string, Value>, block: bool, children: seq<Value>, d: Record, k: string)
    requires block ==> "children" in included
    ensures Lookup(Manual(facts, included, item, block, children, d), k) ==
            if k in included && (k in ITEM_MANUAL || (k == "row_total" && facts.pricesInclTax)) && (k == "children" ==> block)
            then RawValue(facts, item, block, children, k)
            else Lookup(d, k)
  {
    ManualSteps(facts, included, item, block, children, d, k);
    ManualOrder(Lookup(Manual(facts, included, item, block, children, d), k), facts, included, item, block, children, d, k);
  }

  /** The order of the manual assignments does not matter: each writes a different name. */
  lemma ManualOrder(m: Option<Value>, facts: ItemFacts, included: seq<string>, item: map<string, Value>, block: bool,
                    children: seq<Value>, d: Record, k: string)
    requires block ==> "children" in included
    requires m ==
             if "is_saleable" in included && k == "is_saleable" then Some(Bool(Truthy(facts.salable(item))))
             else if "messages" in included && k == "messages" then Some(facts.messages(item))
             else if block && k == "children" then Some(List(children))
             else if "images" in included && k == "images" then Some(ImageUrls(facts, item))
             else if "url" in included && k == "url" then Some(ProductUrl(facts, item))
             else if "original_price" in included && k == "original_price" then Some(facts.price(item))
             else if "row_total" in included && facts.pricesInclTax && k == "row_total" then Some(Field(item, "row_total_incl_tax"))
             else Lookup(d, k)
    ensures m ==
            if k in included && (k in ITEM_MANUAL || (k == "row_total" && facts.pricesInclTax)) && (k == "children" ==> block)
            then RawValue(facts, item, block, children, k)
            else Lookup(d, k)
  {
    ManualNamesDistinct();
  }

  /** The names the manual step writes are pairwise different. */
  lemma ManualNamesDistinct()
    ensures "row_total" != "original_price" && "row_total" != "url" && "row_total" != "images" && "row_total" != "children"
    ensures "row_total" != "messages" && "row_total" != "is_saleable"
    ensures "original_price" != "url" && "original_price" != "images" && "original_price" != "children"
    ensures "original_price" != "messages" && "original_price" != "is_saleable"
    ensures "url" != "images" && "url" != "children" && "url" != "messages" && "url" != "is_saleable"
    ensures "images" != "children" && "images" != "messages" && "images" != "is_saleable"
    ensures "children" != "messages" && "children" != "is_saleable" && "messages" != "is_saleable"
  {
    assert |"row_total"| == 9 && |"original_price"| == 14 && |"url"| == 3 && |"images"| == 6;
    assert |"children"| == 8 && |"messages"| == 8 && |"is_saleable"| == 11;
    assert "children"[0] == 'c' && "messages"[0] == 'm';
  }

  /** The built data holds exactly the included codes (children only when the block runs). */
  lemma RawLookup(facts: ItemFacts, included: seq<string>, item: map<string, Value>, block: bool, children: seq<Value>, k: string)
    requires block ==> "children" in included
    ensures Lookup(Raw(facts, included, item, block, children), k) ==
            if k in included then RawValue(facts, item, block, children, k) else None
  {
    var d0 := LoadedAttributes(item, included, ITEM_MANUAL, ITEM_MAP, []);
    ManualLookup(facts, included, item, block, children, d0, k);
    if k in ITEM_MANUAL || k == "row_total" {
      RawLookupManual(facts, included, item, block, children, k);
    } else {
      RawLookupRead(facts, included, item, block, children, k);
    }
  }

  lemma RawLookupManual(facts: ItemFacts, included: seq<string>, item: map<string, Value>, block: bool, children: seq<Value>, k: string)
    requires block ==> "children" in included
    requires k in ITEM_MANUAL || k == "row_total"
    ensures Lookup(Raw(facts, included, item, block, children), k) ==
            if k in included then RawValue(facts, item, block, children, k) else None
  {
    var d0 := LoadedAttributes(item, included, ITEM_MANUAL, ITEM_MAP, []);
    LoadedAttributesContents(item, included, ITEM_MANUAL, ITEM_MAP, [], k);
    ManualLookup(facts, included, item, block, children, d0, k);
    ManualNamesDistinct();
    if k == "row_total" {
      assert Rename(ITEM_MAP, k) == k;
    }
  }

  lemma RawLookupRead(facts: ItemFacts, included: seq<string>, item: map<string, Value>, block: bool, children: seq<Value>, k: string)
    requires block ==> "children" in included
    requires k !in ITEM_MANUAL && k != "row_total"
    ensures Lookup(Raw(facts, included, item, block, children), k) ==
            if k in included then Some(Field(item, Rename(ITEM_MAP, k))) else None
    ensures RawValue(facts, item, block, children, k) == Some(Field(item, Rename(ITEM_MAP, k)))
  {
    var d0 := LoadedAttributes(item, included, ITEM_MANUAL, ITEM_MAP, []);
    LoadedAttributesContents(item, included, ITEM_MANUAL, ITEM_MAP, [], k);
    ManualSteps(facts, included, item, block, children, d0, k);
  }

  lemma RawDistinct(facts: ItemFacts, included: seq<string>, item: map<string, Value>, block: bool, children: seq<Value>)
    ensures DistinctKeys(Raw(facts, included, item, block, children))
  {
    ReadIntoDistinct([], Plan(Without(included, ITEM_MANUAL), ITEM_MAP), item);
  }

  /** The projection of an item as a child: no child block, and then without a 'children' entry. */
  function NestedProjection(cx: ItemContext, f: Filter, item: map<string, Value>): Record {
    Projected(cx.loc, cx.currencyCode, Raw(cx.facts, f.included, item, false, []), f.readable, ITEM_TYPES, f.included)
  }

  function ChildProjection(cx: ItemContext, f: Filter, item: map<string, Value>): Record {
    Remove(NestedProjection(cx, f, item), "children")
  }

  /** The child block's loop over the items collection: each item not deleted whose parent id is `id`, projected. */
  function ChildEntries(cx: ItemContext, f: Filter, items: seq<ItemState>, id: int): seq<Value> {
    if |items| == 0 then []
    else
      var init := ChildEntries(cx, f, items[..|items| - 1], id);
      var last := items[|items| - 1];
      if !last.deleted && ParentId(last.data) == id then init + [Dict(ChildProjection(cx, f, last.data))] else init
  }

  /** What the child block collects for an item: its child entries when the block runs, else nothing. */
  function BlockChildren(cx: ItemContext, f: Filter, all: seq<ItemState>, item: map<string, Value>): seq<Value> {
    if ChildBlock(f, item) then ChildEntries(cx, f, all, ItemId(item)) else []
  }

  /** `prepareItem($item, $filter)` for an item of a quote whose items collection is `all`. */
  function ItemProjection(cx: ItemContext, f: Filter, all: seq<ItemState>, item: map<string, Value>): Record {
    Projected(cx.loc, cx.currencyCode,
              Raw(cx.facts, f.included, item, ChildBlock(f, item), BlockChildren(cx, f, all, item)),
              f.readable, ITEM_TYPES, f.included)
  }

  /** The keys of the item type map are distinct. */
  lemma ItemTypesDistinct()
    ensures DistinctKeys(ITEM_TYPES)
  {
    assert |"item_id"| == 7 && |"qty"| == 3 && |"original_price"| == 14 && |"price"| == 5;
    assert |"row_total"| == 9 && |"backorder_qty"| == 13;
  }

  /** The value of an included code in the projection built from `children`. */
  function ProjectedValue(cx: ItemContext, f: Filter, item: map<string, Value>, block: bool, children: seq<Value>, k: string): Value {
    var v := RawValue(cx.facts, item, block, children, k);
    if k in f.readable && v.Some? then Typed(cx.loc, cx.currencyCode, ITEM_TYPES, k, v.value) else Null
  }

  /**
   * An item projection holds exactly the included codes. An included code
   * the filter does not let through is null; one it lets through holds
   * its built value, typed by the type map, or null when there is none
   * (children of an item whose child block does not run).
   */
  lemma ItemProjectionLookup(cx: ItemContext, f: Filter, all: seq<ItemState>, item: map<string, Value>, k: string)
    ensures Lookup(ItemProjection(cx, f, all, item), k) ==
            if k in f.included
            then Some(ProjectedValue(cx, f, item, ChildBlock(f, item), BlockChildren(cx, f, all, item), k))
            else None
  {
    var children := BlockChildren(cx, f, all, item);
    var raw := Raw(cx.facts, f.included, item, ChildBlock(f, item), children);
    RawDistinct(cx.facts, f.included, item, ChildBlock(f, item), children);
    RawLookup(cx.facts, f.included, item, ChildBlock(f, item), children, k);
    ItemTypesDistinct();
    ProjectedShape(cx.loc, cx.currencyCode, raw, f.readable, ITEM_TYPES, f.included);
  }

  /** An item projection is sorted by key and its keys are exactly the included codes. */
  lemma ItemProjectionShape(cx: ItemContext, f: Filter, all: seq<ItemState>, item: map<string, Value>)
    ensures SortedKeys(ItemProjection(cx, f, all, item))
    ensures forall k :: HasKey(ItemProjection(cx, f, all, item), k) <==> k in f.included
  {
    var children := BlockChildren(cx, f, all, item);
    var raw := Raw(cx.facts, f.included, item, ChildBlock(f, item), children);
    RawDistinct(cx.facts, f.included, item, ChildBlock(f, item), children);
    ItemTypesDistinct();
    ProjectedShape(cx.loc, cx.currencyCode, raw, f.readable, ITEM_TYPES, f.included);
    forall k ensures HasKey(ItemProjection(cx, f, all, item), k) <==> k in f.included {
      ItemProjectionLookup(cx, f, all, item, k);
    }
  }

  /**
   * Children appear only on a top-level item: when 'children' is included
   * and readable, a top-level item lists its child entries and any other
   * item holds null.
   */
  lemma ItemProjectionChildren(cx: ItemContext, f: Filter, all: seq<ItemState>, item: map<string, Value>)
    requires "children" in f.included && "children" in f.readable
    ensures Lookup(ItemProjection(cx, f, all, item), "children") ==
            Some(if TopLevel(item) then List(ChildEntries(cx, f, all, ItemId(item))) else Null)
  {
    ItemProjectionLookup(cx, f, all, item, "children");
    ManualNamesDistinct();
    ChildrenUntyped();
  }

  /** The item type map gives 'children' no type. */
  lemma ChildrenUntyped()
    ensures Lookup(ITEM_TYPES, "children") == None
  {
    assert |"item_id"| == 7 && |"qty"| == 3 && |"original_price"| == 14 && |"price"| == 5;
    assert |"row_total"| == 9 && |"backorder_qty"| == 13 && |"children"| == 8;
  }

  /** With prices shown including tax, an included and readable row_total is the typed row total including tax. */
  lemma ItemProjectionRowTotal(cx: ItemContext, f: Filter, all: seq<ItemState>, item: map<string, Value>)
    requires "row_total" in f.included && "row_total" in f.readable && cx.facts.pricesInclTax
    ensures Lookup(ItemProjection(cx, f, all, item), "row_total") ==
            Some(Typed(cx.loc, cx.currencyCode, ITEM_TYPES, "row_total", Field(item, "row_total_incl_tax")))
  {
    ItemProjectionLookup(cx, f, all, item, "row_total");
  }

  /** The items the child block keeps: not deleted, with the given parent id, in collection order. */
  function ChildrenOf(items: seq<ItemState>, id: int): (r: seq<ItemState>)
    ensures forall x :: x in r <==> x in items && !x.deleted && ParentId(x.data) == id
  {
    if |items| == 0 then []
    else
      var init := ChildrenOf(items[..|items| - 1], id);
      var last := items[|items| - 1];
      assert forall x :: x in items <==> x in items[..|items| - 1] || x == last;
      if !last.deleted && ParentId(last.data) == id then init + [last] else init
  }

  /**
   * The child entries are the children of the item, one entry each, in
   * collection order, and no entry carries a 'children' key.
   */
  lemma {:induction false} ChildEntriesAre(cx: ItemContext, f: Filter, items: seq<ItemState>, id: int)
    ensures var e := ChildEntries(cx, f, items, id);
            var c := ChildrenOf(items, id);
      && |e| == |c|
      && (forall j :: 0 <= j < |e| ==> e[j] == Dict(ChildProjection(cx, f, c[j].data)))
      && (forall j :: 0 <= j < |e| ==> e[j].Dict? && !HasKey(e[j].fields, "children"))
  {
    if |items| > 0 {
      ChildEntriesAre(cx, f, items[..|items| - 1], id);
    }
  }

  /** Every empty value casts to the integer 0, so a non-zero intval only comes from a truthy value. */
  lemma EmptyCastsToZero(v: Value)
    ensures IsEmpty(v) ==> ToInt(v) == 0
  {
    match v
    case Str(s) =>
      if s == "" {
        assert SkipSpace(s) == "" && DigitRun("") == "";
      } else if s == "0" {
        ParseIntOfDigits(s);
        assert s[..0] == "";
      }
    case _ =>
  }

  /**
   * A child of an item that has an id has a parent id, so `prepareItem` on
   * the child skips its own child block: this is why a child is projected
   * without one.
   */
  lemma ChildrenSkipTheirBlock(item: map<string, Value>, child: map<string, Value>)
    requires ItemId(item) != 0 && ParentId(child) == ItemId(item)
    ensures !TopLevel(child)
  {
    EmptyCastsToZero(Field(child, "parent_item_id"));
  }

  /**
   * `prepareItem($item, $filter)`. `nested` marks the call the child block
   * makes for a child item, which skips the child block.
   */
  method PrepareItem(cx: ItemContext, f: Filter, items: seq<DataObject>, item: DataObject, nested: bool) returns (r: Record)
    ensures nested ==> r == NestedProjection(cx, f, old(item.data))
    ensures !nested ==> r == ItemProjection(cx, f, old(Snapshot(items)), old(item.data))
    decreases if nested then 0 else 2
  {
    var included := f.included;
    var fields := item.data;
    var data := LoadResourceAttributes(item, included, ITEM_MANUAL, ITEM_MAP, []);
    data := ManualPrices(cx.facts, included, fields, data);
    var block := !nested && TopLevel(fields) && "children" in included;
    var children: seq<Value> := [];
    if block {
      children := ChildList(cx, f, items, ItemId(fields));
    }
    data := ManualFlags(cx.facts, included, fields, block, children, data);
    r := ProjectItemData(cx, f, data);
  }

  /** The end of `prepareItem`: the filter's `out`, `fixTypes` with the item type map, null-fill and `ksort`. */
  method ProjectItemData(cx: ItemContext, f: Filter, raw: Record) returns (r: Record)
    ensures r == Projected(cx.loc, cx.currencyCode, raw, f.readable, ITEM_TYPES, f.included)
  {
    var data := Out(raw, f.readable);
    data := FixTypes(cx.loc, cx.currencyCode, data, [], ITEM_TYPES);
    r := Finish(data, f.included);
  }

  /** The child block's loop: each item not deleted whose parent id is `id`, prepared as a child, without 'children'. */
  method ChildList(cx: ItemContext, f: Filter, items: seq<DataObject>, id: int) returns (list: seq<Value>)
    ensures list == ChildEntries(cx, f, old(Snapshot(items)), id)
    decreases 1
  {
    list := [];
    ghost var all := Snapshot(items);
    var i := 0;
    while i < |items|
      invariant 0 <= i <= |items|
      invariant list == ChildEntries(cx, f, all[..i], id)
    {
      ChildEntriesNext(cx, f, all, i, id);
      var next := items[i];
      assert all[i] == ItemState(next.data, next.deleted);
      if !next.deleted && ParentId(next.data) == id {
        var child := PrepareItem(cx, f, items, next, true);
        assert Remove(child, "children") == ChildProjection(cx, f, all[i].data);
        list := list + [Dict(Remove(child, "children"))];
      }
      i := i + 1;
    }
    assert all[..|items|] == all;
  }

  /** One more item of the collection adds at most its own child entry. */
  lemma ChildEntriesNext(cx: ItemContext, f: Filter, all: seq<ItemState>, i: nat, id: int)
    requires i < |all|
    ensures ChildEntries(cx, f, all[..i + 1], id) ==
            if !all[i].deleted && ParentId(all[i].data) == id
            then ChildEntries(cx, f, all[..i], id) + [Dict(ChildProjection(cx, f, all[i].data))]
            else ChildEntries(cx, f, all[..i], id)
  {
    assert all[..i + 1][..i] == all[..i];
  }

  /** The listing `prepareCollection` builds from the items `s`: each visible one's record under its id. */
  function Collected(s: seq<ItemState>, project: map<string, Value> -> Record): Assoc<Record> {
    if |s| == 0 then []
    else
      var init := Collected(s[..|s| - 1], project);
      var last := s[|s| - 1];
      if Visible(last) then Put(init, IdKey(last.data), project(last.data)) else init
  }

  /** The projection of an item of a quote whose items are `all`, as a function of the item's data. */
  function Projector(cx: ItemContext, f: Filter, all: seq<ItemState>): map<string, Value> -> Record {
    d => ItemProjection(cx, f, all, d)
  }

  /** The collection of a quote whose items are `all`: each visible item's projection under its id. */
  function CollectionOf(cx: ItemContext, f: Filter, all: seq<ItemState>): Assoc<Record> {
    Collected(all, Projector(cx, f, all))
  }

  /** The listing has one entry per key. */
  lemma {:induction false} CollectedDistinct(s: seq<ItemState>, project: map<string, Value> -> Record)
    ensures DistinctKeys(Collected(s, project))
  {
    if |s| > 0 {
      var n := |s| - 1;
      CollectedDistinct(s[..n], project);
      if Visible(s[n]) {
        PutShape(Collected(s[..n], project), IdKey(s[n].data), project(s[n].data));
      }
    }
  }

  /** The listing is keyed by the ids of the visible items. */
  lemma CollectedKeys(s: seq<ItemState>, project: map<string, Value> -> Record)
    ensures forall key :: HasKey(Collected(s, project), key) <==>
              exists i :: 0 <= i < |s| && Visible(s[i]) && IdKey(s[i].data) == key
  {
    forall key ensures HasKey(Collected(s, project), key) <==>
                       exists i :: 0 <= i < |s| && Visible(s[i]) && IdKey(s[i].data) == key
    {
      if HasKey(Collected(s, project), key) {
        CollectedKeyFrom(s, project, key);
      }
      if exists i :: 0 <= i < |s| && Visible(s[i]) && IdKey(s[i].data) == key {
        var i :| 0 <= i < |s| && Visible(s[i]) && IdKey(s[i].data) == key;
        CollectedKeyTo(s, project, i);
      }
    }
  }

  /** A key of the listing is the id of a visible item. */
  lemma {:induction false} CollectedKeyFrom(s: seq<ItemState>, project: map<string, Value> -> Record, key: string)
    requires HasKey(Collected(s, project), key)
    ensures exists i :: 0 <= i < |s| && Visible(s[i]) && IdKey(s[i].data) == key
  {
    var n := |s| - 1;
    var init := s[..n];
    if !(Visible(s[n]) && IdKey(s[n].data) == key) {
      CollectedKeyFrom(init, project, key);
      var i :| 0 <= i < |init| && Visible(init[i]) && IdKey(init[i].data) == key;
      assert s[i] == init[i];
    }
  }

  /** The id of every visible item is a key of the listing. */
  lemma {:induction false} CollectedKeyTo(s: seq<ItemState>, project: map<string, Value> -> Record, i: nat)
    requires i < |s| && Visible(s[i])
    ensures HasKey(Collected(s, project), IdKey(s[i].data))
  {
    var n := |s| - 1;
    if i < n {
      var init := s[..n];
      assert init[i] == s[i];
      CollectedKeyTo(init, project, i);
    }
  }

  /** An id's entry is the record of the last visible item with that id. */
  lemma {:induction false} CollectedEntries(s: seq<ItemState>, project: map<string, Value> -> Record)
    ensures forall i :: 0 <= i < |s| && Visible(s[i])
              && (forall j :: i < j < |s| && Visible(s[j]) ==> IdKey(s[j].data) != IdKey(s[i].data))
              ==> Lookup(Collected(s, project), IdKey(s[i].data)) == Some(project(s[i].data))
  {
    if |s| > 0 {
      var n := |s| - 1;
      var init := s[..n];
      CollectedEntries(init, project);
      assert forall i :: 0 <= i < n ==> init[i] == s[i];
    }
  }

  /**
   * The collection of a quote is keyed by the ids of its visible items, one
   * key per distinct id, and a visible item whose id no later visible item
   * reuses is filed with its own projection.
   */
  lemma CollectionOfContents(cx: ItemContext, f: Filter, all: seq<ItemState>)
    ensures DistinctKeys(CollectionOf(cx, f, all))
    ensures forall key :: HasKey(CollectionOf(cx, f, all), key) <==>
              exists i :: 0 <= i < |all| && Visible(all[i]) && IdKey(all[i].data) == key
    ensures forall i :: 0 <= i < |all| && Visible(all[i])
              && (forall j :: i < j < |all| && Visible(all[j]) ==> IdKey(all[j].data) != IdKey(all[i].data))
              ==> Lookup(CollectionOf(cx, f, all), IdKey(all[i].data)) == Some(ItemProjection(cx, f, all, all[i].data))
  {
    CollectedDistinct(all, Projector(cx, f, all));
    CollectedKeys(all, Projector(cx, f, all));
    CollectedEntries(all, Projector(cx, f, all));
  }

  /**
   * `prepareCollection($quote)`: every visible item's projection, filed
   * under its id, with the filter of a collection retrieve; the action
   * type and operation are restored.
   */
  method PrepareCollection(state: ResourceState, acl: (string, string) -> Filter, cx: ItemContext, quote: Quote)
    returns (entries: Assoc<Record>)
    modifies state
    ensures state.actionType == old(state.actionType) && state.operation == old(state.operation) && state.quote == old(state.quote)
    ensures entries == CollectionOf(cx, acl(COLLECTION, RETRIEVE), Snapshot(quote.items))
  {
    var actionType := state.actionType;
    var operation := state.operation;
    state.actionType := COLLECTION;
    state.operation := RETRIEVE;
    entries := CollectItems(cx, acl(COLLECTION, RETRIEVE), quote.items);
    state.actionType := actionType;
    state.operation := operation;
  }

  /** The loop of `prepareCollection` over the visible items. */
  method CollectItems(cx: ItemContext, f: Filter, items: seq<DataObject>) returns (entries: Assoc<Record>)
    ensures entries == CollectionOf(cx, f, Snapshot(items))
  {
    ghost var all := Snapshot(items);
    ghost var project := Projector(cx, f, all);
    entries := [];
    var i := 0;
    while i < |items|
      invariant 0 <= i <= |items|
      invariant entries == Collected(all[..i], project)
    {
      entries := CollectOne(cx, f, items, i, entries);
      i := i + 1;
    }
    assert all[..|items|] == all;
  }

  /** One pass of that loop: a visible item's projection is filed under its id. */
  method CollectOne(cx: ItemContext, f: Filter, items: seq<DataObject>, i: nat, entries: Assoc<Record>) returns (e: Assoc<Record>)
    requires i < |items|
    requires entries == Collected(Snapshot(items)[..i], Projector(cx, f, Snapshot(items)))
    ensures e == Collected(Snapshot(items)[..i + 1], Projector(cx, f, Snapshot(items)))
  {
    ghost var all := Snapshot(items);
    assert all[..i + 1][..i] == all[..i];
    assert all[i] == ItemState(items[i].data, items[i].deleted);
    e := entries;
    if !items[i].deleted && TopLevel(items[i].data) {
      var r := PrepareTop(cx, f, items, items[i]);
      assert r == Projector(cx, f, all)(all[i].data);
      e := Put(entries, IdKey(items[i].data), r);
    }
  }

  /** `prepareItem` on an item of the listing itself. */
  method PrepareTop(cx: ItemContext, f: Filter, items: seq<DataObject>, item: DataObject) returns (r: Record)
    ensures r == ItemProjection(cx, f, Snapshot(items), item.data)
  {
    r := PrepareItem(cx, f, items, item, false);
  }

  /** `prepareResource($item)`: the item's projection with the filter of an entity retrieve; the state is restored. */
  method PrepareResource(state: ResourceState, acl: (string, string) -> Filter, cx: ItemContext, quote: Quote, item: DataObject)
    returns (r: Record)
    modifies state
    ensures state.actionType == old(state.actionType) && state.operation == old(state.operation) && state.quote == old(state.quote)
    ensures r == ItemProjection(cx, acl(ENTITY, RETRIEVE), old(Snapshot(quote.items)), old(item.data))
    ensures Snapshot(quote.items) == old(Snapshot(quote.items)) && item.data == old(item.data)
  {
    ghost var all := Snapshot(quote.items);
    var actionType := state.actionType;
    var operation := state.operation;
    state.actionType := ENTITY;
    state.operation := RETRIEVE;
    assert Snapshot(quote.items) == all;
    r := PrepareItem(cx, acl(ENTITY, RETRIEVE), quote.items, item, false);
    state.actionType := actionType;
    state.operation := operation;
    assert Snapshot(quote.items) == all;
  }

  /** `$quote->getItemById($id)`: the index of the item with that id. */
  function FindById(items: seq<ItemState>, id: int): (r: Option<nat>)
    ensures r.Some? ==> r.value < |items| && ItemId(items[r.value].data) == id
    ensures r.None? ==> forall j :: 0 <= j < |items| ==> ItemId(items[j].data) != id
  {
    if |items| == 0 then None
    else if ItemId(items[0].data) == id then Some(0)
    else match FindById(items[1..], id)
      case Some(j) => Some(j + 1)
      case None => None
  }

  /**
   * `loadItem($quote, $id)`: 404 when the id casts to 0 or no item has it,
   * or the item is deleted or has a parent; otherwise the item, which is
   * then a visible item with that id.
   */
  method LoadItem(quote: Quote, id: Value) returns (o: Outcome<DataObject>)
    ensures ToInt(id) == 0 ==> o == Fault(NOT_FOUND, "Not Found")
    ensures o.Fault? ==> o == Fault(NOT_FOUND, "Not Found")
    ensures o.Done? <==> ToInt(id) != 0 && FindById(Snapshot(quote.items), ToInt(id)).Some?
                         && Visible(Snapshot(quote.items)[FindById(Snapshot(quote.items), ToInt(id)).value])
    ensures o.Done? ==> o.value == quote.items[FindById(Snapshot(quote.items), ToInt(id)).value]
    ensures o.Done? ==> o.value in quote.items && !o.value.deleted && TopLevel(o.value.data) && ItemId(o.value.data) == ToInt(id)
    ensures o.Done? <==> Target(Snapshot(quote.items), id).Some?
    ensures o.Done? ==> o.value == quote.items[Target(Snapshot(quote.items), id).value]
  {
    var n := ToInt(id);
    if n == 0 {
      return Fault(NOT_FOUND, "Not Found");
    }
    var found := FindById(Snapshot(quote.items), n);
    if found.None? || quote.items[found.value].deleted || !TopLevel(quote.items[found.value].data) {
      return Fault(NOT_FOUND, "Not Found");
    }
    o := Done(quote.items[found.value]);
  }

  /** The index of the item `loadItem` finds for `id`, when it finds one: a visible item carrying the non-zero id. */
  function Target(all: seq<ItemState>, id: Value): (r: Option<nat>)
    ensures r.Some? ==> r.value < |all| && r == FindById(all, ToInt(id)) && Visible(all[r.value]) && ToInt(id) != 0
  {
    if ToInt(id) == 0 then None
    else match FindById(all, ToInt(id))
      case None => None
      case Some(i) => if Visible(all[i]) then Some(i) else None
  }

  /** Entity retrieve on a quote whose items are `all`: the 404 of `loadItem`, or the loaded item rendered by the read filter `r`. */
  function EntityRetrieved(cx: ItemContext, r: Filter, all: seq<ItemState>, id: Value): Outcome<Reply> {
    match Target(all, id)
    case None => Fault(NOT_FOUND, "Not Found")
    case Some(at) => Done(Reply(OK, Single(ItemProjection(cx, r, all, all[at].data))))
  }

  /**
   * Entity create or update on a quote whose items are `all`: the 404 of
   * `loadItem`, leaving the items as they are, or the reply and the items
   * with the loaded one written by the plan of the write filter `w` and
   * rendered by the read filter `r`.
   */
  function EntityUpdated(cx: ItemContext, w: Filter, r: Filter, all: seq<ItemState>, id: Value, body: Record)
    : (Outcome<Reply>, seq<ItemState>)
  {
    match Target(all, id)
    case None => (Fault(NOT_FOUND, "Not Found"), all)
    case Some(at) =>
      var after := all[at := ItemState(Written(all[at].data, UpdatePlan(w), body), false)];
      (Done(Reply(OK, Single(ItemProjection(cx, r, after, after[at].data)))), after)
  }

  /** Entity delete on a quote whose items are `all`: the 404 of `loadItem`, or the reply `code` and the loaded item deleted. */
  function EntityDeleted(all: seq<ItemState>, id: Value, code: int): (Outcome<Reply>, seq<ItemState>) {
    match Target(all, id)
    case None => (Fault(NOT_FOUND, "Not Found"), all)
    case Some(at) => (Done(Reply(code, NoBody)), all[at := ItemState(all[at].data, true)])
  }

  /** What the catalog holds for a SKU (`load(getIdBySku($sku))`): no id when there is none. */
  datatype Product = Product(
    id: Value,
    inStock: bool,
    visibleInSite: bool,
    /** `getWebsiteIds()`: None when it is not an array. */
    websiteIds: Option<seq<int>>,
    /** `getStockItem()`, by its min sale qty: None when the product has no stock item. */
    minSaleQty: Option<Value>)

  /** The catalog, whether the store runs in single-store mode, and the current website id. */
  datatype Catalog = Catalog(bySku: Value -> Product, singleStoreMode: bool, websiteId: int)

  /** What `$quote->addProduct($product, $request)` gives: the item and its parent item, if any, or the message it throws. */
  datatype Added = Added(item: DataObject, parent: Option<DataObject>) | Threw(message: string)

  /** `$quote->hasProductId($id)`: an item that is not deleted carries that product. */
  predicate HasProduct(items: seq<ItemState>, productId: Value) {
    exists i :: 0 <= i < |items| && !items[i].deleted && ToInt(Field(items[i].data, "product_id")) == ToInt(productId)
  }

  /** The incoming data of a write: filtered by `in`, then mapped to internal names. */
  function Incoming(f: Filter, body: Record): Record {
    MapAttributes(ITEM_MAP, In(body, f))
  }

  /** The SKU checks: the product, or the 400 they stop with. `websiteChecked` says whether website assignment is checked. */
  function ProductFor(catalog: Catalog, data: Record, invalid: string, websiteChecked: bool): Outcome<Product> {
    if !IsSet(data, "sku") then Fault(BAD_REQUEST, "Missing SKU")
    else
      var p := catalog.bySku(Get(data, "sku"));
      if !Truthy(p.id) || !p.inStock || !p.visibleInSite then Fault(BAD_REQUEST, invalid)
      else if websiteChecked && (p.websiteIds.None? || catalog.websiteId !in p.websiteIds.value) then Fault(BAD_REQUEST, invalid)
      else Done(p)
  }

  /** The quantity handed to `addProduct`, as an independent definition. */
  function RequestQty(data: Record, p: Product, inQuote: bool): real {
    var q := if IsSet(data, "qty") then ToFloat(Get(data, "qty")) else 1.0;
    if !inQuote && p.minSaleQty.Some? && ToFloat(p.minSaleQty.value) > 0.0 && q < ToFloat(p.minSaleQty.value)
    then ToFloat(p.minSaleQty.value) else q
  }

  /** The product and the request data `createResource` hands to `addProduct`, or the 400 it stops with first. */
  function Request(catalog: Catalog, data: Record, invalid: string, websiteChecked: bool, items: seq<ItemState>): Outcome<(Product, Record)> {
    match ProductFor(catalog, data, invalid, websiteChecked)
    case Fault(c, m) => Fault(c, m)
    case Done(p) => Done((p, Put(data, "qty", Float(RequestQty(data, p, HasProduct(items, p.id))))))
  }

  /** What `createResource` ends with: the 400 of a check or of `addProduct`, or the item (its parent, if it has one). */
  function CreateOutcome(request: Outcome<(Product, Record)>, addProduct: (Product, Record) -> Added): Outcome<DataObject> {
    match request
    case Fault(c, m) => Fault(c, m)
    case Done(pr) =>
      match addProduct(pr.0, pr.1)
      case Threw(m) => Fault(BAD_REQUEST, m)
      case Added(item, parent) =>
        var chosen: DataObject := if parent.Some? then parent.value else item;
        Done(chosen)
  }

  /** The message of a failed SKU check in this resource: the SKU is appended. */
  function InvalidSku(loc: Locale, data: Record): string {
    "Invalid SKU " + ToText(loc, Get(data, "sku"))
  }

  /**
   * The SKU checks: no sku (or a null one) is 400 'Missing SKU'; an
   * unknown, out-of-stock or invisible product is 400 with the invalid
   * message; a product not on the current website is too, unless the
   * website is not checked; a product passing every check is the one
   * the catalog has for the SKU.
   */
  lemma ProductForRules(catalog: Catalog, data: Record, invalid: string, websiteChecked: bool)
    ensures !IsSet(data, "sku") ==> ProductFor(catalog, data, invalid, websiteChecked) == Fault(BAD_REQUEST, "Missing SKU")
    ensures IsSet(data, "sku") ==>
              var p := catalog.bySku(Get(data, "sku"));
              (!Truthy(p.id) || !p.inStock || !p.visibleInSite ==> ProductFor(catalog, data, invalid, websiteChecked) == Fault(BAD_REQUEST, invalid))
              && (websiteChecked && (p.websiteIds.None? || catalog.websiteId !in p.websiteIds.value) ==>
                    ProductFor(catalog, data, invalid, websiteChecked) == Fault(BAD_REQUEST, invalid))
              && (ProductFor(catalog, data, invalid, websiteChecked).Done? <==>
                    Truthy(p.id) && p.inStock && p.visibleInSite
                    && (!websiteChecked || (p.websiteIds.Some? && catalog.websiteId in p.websiteIds.value)))
    ensures ProductFor(catalog, data, invalid, websiteChecked).Done? ==> ProductFor(catalog, data, invalid, websiteChecked).value == catalog.bySku(Get(data, "sku"))
    ensures ProductFor(catalog, data, invalid, websiteChecked).Fault? ==> ProductFor(catalog, data, invalid, websiteChecked).code == BAD_REQUEST
  {
  }

  /**
   * The quantity is 1 when none is set, never lower than the one asked
   * for, and is raised to the product's minimum sale quantity when the
   * product is not in the quote yet and has a positive minimum; it is
   * either the quantity asked for or that minimum.
   */
  lemma RequestQtyRules(data: Record, p: Product, inQuote: bool)
    ensures var asked := if IsSet(data, "qty") then ToFloat(Get(data, "qty")) else 1.0;
      && (!IsSet(data, "qty") ==> asked == 1.0)
      && RequestQty(data, p, inQuote) >= asked
      && (RequestQty(data, p, inQuote) == asked || (p.minSaleQty.Some? && RequestQty(data, p, inQuote) == ToFloat(p.minSaleQty.value)))
      && (!inQuote && p.minSaleQty.Some? && ToFloat(p.minSaleQty.value) > 0.0 ==> RequestQty(data, p, inQuote) >= ToFloat(p.minSaleQty.value))
      && (inQuote || p.minSaleQty.None? ==> RequestQty(data, p, inQuote) == asked)
  {
  }

  /** The request data is the incoming data with qty set to the request quantity, as a float; nothing else changes. */
  lemma RequestData(catalog: Catalog, data: Record, invalid: string, websiteChecked: bool, items: seq<ItemState>)
    ensures var r := Request(catalog, data, invalid, websiteChecked, items);
      && (r.Fault? <==> ProductFor(catalog, data, invalid, websiteChecked).Fault?)
      && (r.Done? ==>
            && r.value.0 == ProductFor(catalog, data, invalid, websiteChecked).value
            && Lookup(r.value.1, "qty") == Some(Float(RequestQty(data, r.value.0, HasProduct(items, r.value.0.id))))
            && (forall k :: k != "qty" ==> Lookup(r.value.1, k) == Lookup(data, k)))
  {
  }

  /**
   * `createResource($quote, $data)`: the SKU checks, the quantity, then
   * `addProduct`, whose child item is replaced by its parent. A check that
   * fails ends the call as a 400 with the action type and operation still
   * set to entity create; otherwise they are restored.
   */
  method CreateResource(state: ResourceState, acl: (string, string) -> Filter, loc: Locale, catalog: Catalog, quote: Quote,
                        body: Record, addProduct: (Product, Record) -> Added)
    returns (o: Outcome<DataObject>)
    requires quote.Valid() && AddsItems(addProduct, quote)
    modifies state, quote
    ensures quote.Valid() && (o.Done? ==> o.value in quote.items)
    ensures state.quote == old(state.quote)
    ensures o == Created(catalog, loc, acl(ENTITY, CREATE), old(Snapshot(quote.items)), body, addProduct)
    ensures quote.items
            == old(quote.items) + NewItems(old(quote.items), CreateRequest(catalog, loc, acl(ENTITY, CREATE), old(Snapshot(quote.items)), body), addProduct)
    ensures quote.data == old(quote.data) && quote.billing == old(quote.billing) && quote.shipping == old(quote.shipping)
    ensures quote.payment == old(quote.payment) && quote.isVirtual == old(quote.isVirtual) && quote.totalsCollectedFlag == old(quote.totalsCollectedFlag)
    ensures o.Done? ==> state.actionType == old(state.actionType) && state.operation == old(state.operation)
    ensures o.Fault? ==> state.actionType == ENTITY && state.operation == CREATE && o.code == BAD_REQUEST
  {
    var all := Snapshot(quote.items);
    var actionType := state.actionType;
    var operation := state.operation;
    state.actionType := ENTITY;
    state.operation := CREATE;
    var data := Incoming(acl(ENTITY, CREATE), body);
    var checked := CheckSku(catalog, data, InvalidSku(loc, data), !catalog.singleStoreMode);
    if checked.Fault? {
      return Fault(checked.code, checked.message);
    }
    var p := checked.value;
    var request := WithQty(data, p, HasProduct(all, p.id));
    o := AddToQuote(quote, addProduct, p, request);
    if o.Done? {
      state.actionType := actionType;
      state.operation := operation;
    }
  }

  /** `$quote->addProduct($product, $request)`: the items it adds join the quote's items, which stay distinct. */
  method AddToQuote(quote: Quote, addProduct: (Product, Record) -> Added, p: Product, request: Record)
    returns (o: Outcome<DataObject>)
    requires quote.Valid() && AddsItems(addProduct, quote)
    modifies quote
    ensures quote.Valid() && (o.Done? ==> o.value in quote.items)
    ensures o == CreateOutcome(Done((p, request)), addProduct)
    ensures quote.items == old(quote.items) + NewItems(old(quote.items), Done((p, request)), addProduct)
    ensures quote.data == old(quote.data) && quote.billing == old(quote.billing) && quote.shipping == old(quote.shipping)
    ensures quote.payment == old(quote.payment) && quote.isVirtual == old(quote.isVirtual) && quote.totalsCollectedFlag == old(quote.totalsCollectedFlag)
  {
    var added;
    o, added := AddProduct(quote.items, addProduct, p, request);
    NewItemsValid(quote, Done((p, request)), addProduct);
    quote.items := quote.items + added;
  }

  /** The request `createResource` passes to `addProduct`, for the filter `f` of an entity create and a quote whose items are `all`, or the 400 of a SKU check. */
  function CreateRequest(catalog: Catalog, loc: Locale, f: Filter, all: seq<ItemState>, body: Record): Outcome<(Product, Record)> {
    var data := Incoming(f, body);
    Request(catalog, data, InvalidSku(loc, data), !catalog.singleStoreMode, all)
  }

  /** What `createResource` ends with, for the filter `f` of an entity create and a quote whose items are `all`. */
  function Created(catalog: Catalog, loc: Locale, f: Filter, all: seq<ItemState>, body: Record, addProduct: (Product, Record) -> Added): Outcome<DataObject> {
    CreateOutcome(CreateRequest(catalog, loc, f, all, body), addProduct)
  }

  /**
   * The items `addProduct` puts into a quote whose items are `items`: of
   * the item and its parent it gives, those the quote does not hold yet,
   * the parent first; nothing when a check or `addProduct` fails.
   */
  function NewItems(items: seq<DataObject>, request: Outcome<(Product, Record)>, addProduct: (Product, Record) -> Added): seq<DataObject> {
    match request
    case Fault(_, _) => []
    case Done(pr) =>
      match addProduct(pr.0, pr.1)
      case Threw(_) => []
      case Added(item, parent) =>
        (if parent.Some? && parent.value !in items then [parent.value] else []) + (if item !in items then [item] else [])
  }

  /** `$quote->addProduct($product, $request)` on a quote whose items are `items`: the item it ends with and the items it adds. */
  method AddProduct(items: seq<DataObject>, addProduct: (Product, Record) -> Added, p: Product, request: Record)
    returns (o: Outcome<DataObject>, added: seq<DataObject>)
    ensures o == CreateOutcome(Done((p, request)), addProduct)
    ensures added == NewItems(items, Done((p, request)), addProduct)
  {
    match addProduct(p, request) {
      case Threw(m) =>
        return Fault(BAD_REQUEST, m), [];
      case Added(item, parent) =>
        added := [];
        if parent.Some? && parent.value !in items {
          added := [parent.value];
        }
        if item !in items {
          added := added + [item];
        }
        var chosen: DataObject := if parent.Some? then parent.value else item;
        o := Done(chosen);
    }
  }

  /** The SKU checks of `createResource`, in their order. */
  method CheckSku(catalog: Catalog, data: Record, invalid: string, websiteChecked: bool) returns (o: Outcome<Product>)
    ensures o == ProductFor(catalog, data, invalid, websiteChecked)
  {
    if !IsSet(data, "sku") {
      return Fault(BAD_REQUEST, "Missing SKU");
    }
    var p := catalog.bySku(Get(data, "sku"));
    if !Truthy(p.id) {
      return Fault(BAD_REQUEST, invalid);
    }
    if !p.inStock {
      return Fault(BAD_REQUEST, invalid);
    }
    if !p.visibleInSite {
      return Fault(BAD_REQUEST, invalid);
    }
    if websiteChecked {
      if p.websiteIds.None? || catalog.websiteId !in p.websiteIds.value {
        return Fault(BAD_REQUEST, invalid);
      }
    }
    o := Done(p);
  }

  /** The quantity steps of `createResource`: default 1, cast to float, raised to the minimum sale quantity. */
  method WithQty(data: Record, p: Product, inQuote: bool) returns (d: Record)
    ensures d == Put(data, "qty", Float(RequestQty(data, p, inQuote)))
  {
    d := data;
    if !IsSet(d, "qty") {
      d := Put(d, "qty", Int(1));
    }
    d := Put(d, "qty", Float(ToFloat(Get(d, "qty"))));
    if !inQuote && p.minSaleQty.Some? {
      var minimumQty := ToFloat(p.minSaleQty.value);
      if minimumQty > 0.0 && ToFloat(Get(d, "qty")) < minimumQty {
        d := Put(d, "qty", Float(minimumQty));
      }
    }
    PutPut(data, "qty", Int(1), Float(1.0));
    PutPut(data, "qty", Float(ToFloat(Get(data, "qty"))), Float(RequestQty(data, p, inQuote)));
    PutPut(data, "qty", Float(1.0), Float(RequestQty(data, p, inQuote)));
  }

  /** The codes `updateResource` writes: the allowed ones, never sku. */
  function UpdateCodes(f: Filter): seq<string> {
    Without(f.writable, {"sku"})
  }

  /** The write plan of `updateResource`. */
  function UpdatePlan(f: Filter): Assoc<string> {
    Plan(Without(UpdateCodes(f), ITEM_MANUAL), ITEM_MAP)
  }

  /**
   * `updateResource($item, $data)`: the allowed, non-manual attributes
   * other than sku are written to their internal names; the state is
   * restored.
   */
  method UpdateResource(state: ResourceState, acl: (string, string) -> Filter, item: DataObject, body: Record)
    modifies state, item
    ensures state.actionType == old(state.actionType) && state.operation == old(state.operation) && state.quote == old(state.quote)
    ensures item.data == Written(old(item.data), UpdatePlan(acl(ENTITY, UPDATE)), body)
    ensures item.deleted == old(item.deleted)
  {
    var actionType := state.actionType;
    var operation := state.operation;
    state.actionType := ENTITY;
    state.operation := UPDATE;
    var f := acl(ENTITY, UPDATE);
    var allowed := Without(f.writable, {"sku"});
    SaveResourceAttributes(item, allowed, ITEM_MANUAL, ITEM_MAP, body);
    state.actionType := actionType;
    state.operation := operation;
  }

  /**
   * An update never writes an item's sku, even when the filter allows it,
   * and never writes a manual attribute; every field outside its plan
   * keeps its value.
   */
  lemma UpdateNeverWritesSku(f: Filter, fields: map<string, Value>, body: Record)
    ensures "sku" in Written(fields, UpdatePlan(f), body) <==> "sku" in fields
    ensures "sku" in fields ==> Written(fields, UpdatePlan(f), body)["sku"] == fields["sku"]
    ensures forall k :: HasKey(UpdatePlan(f), k) ==> k != "sku" && k !in ITEM_MANUAL
  {
    var plan := UpdatePlan(f);
    forall n | n in WrittenNames(plan, body) ensures n != "sku" {
      var i :| 0 <= i < |body| && HasKey(plan, body[i].0) && Lookup(plan, body[i].0).value == n;
      ItemRenameNotSku(body[i].0);
    }
    WrittenFields(fields, plan, body);
  }

  /** No key other than sku is renamed to sku by the item's attribute map. */
  lemma ItemRenameNotSku(k: string)
    requires k != "sku"
    ensures Rename(ITEM_MAP, k) != "sku"
  {
    var rest := ITEM_MAP[1..];
    assert rest == [("error_info", "error_infos")];
    assert rest[1..] == [];
    assert Lookup(rest, k) == if k == "error_info" then Some("error_infos") else None;
    assert "backorders"[1] != "sku"[1] && "error_infos"[1] != "sku"[1];
  }

  /** `$quote->isObjectNew()`, and the same for an item: it has no id yet. */
  predicate IsNew(data: map<string, Value>, idKey: string) {
    !Truthy(Field(data, idKey))
  }

  /** `addProduct` gives quote items, never the quote's addresses or payment, and a parent item is not its own child. */
  ghost predicate AddsItems(addProduct: (Product, Record) -> Added, q: Quote)
    reads q
  {
    forall p, r :: addProduct(p, r).Added? ==>
      var a := addProduct(p, r);
      && a.item != q.billing && a.item != q.shipping && a.item != q.payment
      && (a.parent.Some? ==> a.parent.value != q.billing && a.parent.value != q.shipping && a.parent.value != q.payment
                             && a.parent.value != a.item)
  }

  /** The item a successful create renders, as a frame. */
  function CreatedItem(c: Outcome<DataObject>): set<DataObject> {
    if c.Done? then {c.value} else {}
  }

  /** The data of the item a successful create renders. */
  function CreatedData(c: Outcome<DataObject>): map<string, Value>
    reads CreatedItem(c)
  {
    if c.Done? then c.value.data else map[]
  }

  /** The data `$item->save()` leaves: a new item has the id the database assigns. */
  function Saved(data: map<string, Value>, newId: int): map<string, Value> {
    if IsNew(data, "item_id") then data["item_id" := Int(newId)] else data
  }

  /**
   * The quote's items stay distinct, and distinct from its addresses and
   * payment, when the new items of a create are appended; the item the
   * create ends with is among them.
   */
  lemma NewItemsValid(q: Quote, request: Outcome<(Product, Record)>, addProduct: (Product, Record) -> Added)
    requires q.Valid() && AddsItems(addProduct, q)
    ensures var items := q.items + NewItems(q.items, request, addProduct);
      && (forall i :: 0 <= i < |items| ==> items[i] != q.billing && items[i] != q.shipping && items[i] != q.payment)
      && (forall i, j :: 0 <= i < j < |items| ==> items[i] != items[j])
      && (CreateOutcome(request, addProduct).Done? ==> CreateOutcome(request, addProduct).value in items)
  {
    var added := NewItems(q.items, request, addProduct);
    if request.Done? && addProduct(request.value.0, request.value.1).Added? {
      var a := addProduct(request.value.0, request.value.1);
      assert forall x :: x in added ==> x !in q.items && x != q.billing && x != q.shipping && x != q.payment;
    }
    var items := q.items + added;
    forall i, j | 0 <= i < j < |items| ensures items[i] != items[j] {
      if j >= |q.items| && i < |q.items| {
        assert items[j] in added && items[i] in q.items;
      }
    }
  }

  /**
   * Collection create: the item is created and the items `addProduct`
   * adds join the quote's items; the quote is saved (twice when it is new)
   * and the item saved, which gives a new item the id `newId` the database
   * assigns; the item is rendered with 201 when it had no id yet, 200
   * otherwise. A failed create is its 400 and adds nothing.
   */
  method CollectionCreate(state: ResourceState, acl: (string, string) -> Filter, cx: ItemContext, catalog: Catalog,
                          session: Quote, body: Record, addProduct: (Product, Record) -> Added, newId: int, collect: map<string, Value> -> map<string, Value>)
    returns (o: Outcome<Reply>)
    requires session.Valid() && state.quote == session
    requires AddsItems(addProduct, session)
    requires newId > 0
    modifies state, session, session.billing, session.shipping
    modifies CreatedItem(Created(catalog, cx.loc, acl(ENTITY, CREATE), Snapshot(session.items), body, addProduct))
    ensures o.Fault? ==> View(session) == old(View(session))
    ensures o.Done? && old(IsNew(session.data, "entity_id")) ==> View(session) == AfterSaves(2, collect, old(View(session)))
    ensures o.Done? && !old(IsNew(session.data, "entity_id")) ==> View(session) == AfterSaves(1, collect, old(View(session)))
    ensures session.Valid()
    ensures var all := old(Snapshot(session.items));
            var c := Created(catalog, cx.loc, acl(ENTITY, CREATE), all, body, addProduct);
      && (c.Fault? ==> o == Fault(c.code, c.message) && o.code == BAD_REQUEST && session.items == old(session.items))
      && (c.Done? ==>
            && session.items == old(session.items) + NewItems(old(session.items), CreateRequest(catalog, cx.loc, acl(ENTITY, CREATE), all, body), addProduct)
            && c.value.data == Saved(old(c.value.data), newId)
            && o == Done(Reply(if old(IsNew(c.value.data, "item_id")) then CREATED else OK,
                               Single(ItemProjection(cx, acl(ENTITY, RETRIEVE), Snapshot(session.items), c.value.data)))))
    ensures o.Done? ==> state.actionType == old(state.actionType) && state.operation == old(state.operation)
  {
    ghost var all := Snapshot(session.items);
    ghost var c := Created(catalog, cx.loc, acl(ENTITY, CREATE), all, body, addProduct);
    ghost var items := session.items + NewItems(session.items, CreateRequest(catalog, cx.loc, acl(ENTITY, CREATE), all, body), addProduct);
    var created := CreateResource(state, acl, cx.loc, catalog, session, body, addProduct);
    assert created == c && session.items == items;
    if created.Fault? {
      return Fault(created.code, created.message);
    }
    ghost var data := created.value.data;
    assert old(created.value.data) == data;
    var reply := SaveCreated(state, acl, cx, session, created.value, newId, collect);
    assert created.value.data == Saved(data, newId);
    o := Done(reply);
    assert o == Done(Reply(if IsNew(data, "item_id") then CREATED else OK,
                           Single(ItemProjection(cx, acl(ENTITY, RETRIEVE), Snapshot(session.items), created.value.data))));
  }

  /** `$item->save()`: a new item gets the id the database assigns. */
  method SaveItem(item: DataObject, newId: int)
    requires newId > 0
    modifies item
    ensures item.data == Saved(old(item.data), newId)
    ensures item.deleted == old(item.deleted)
    ensures !IsNew(item.data, "item_id")
  {
    if IsNew(item.data, "item_id") {
      item.Set("item_id", Int(newId));
    }
  }

  /**
   * The rest of collection create: the quote is saved (twice when it is
   * new) and the item saved, then rendered, with 201 when it had no id,
   * 200 otherwise.
   */
  method SaveCreated(state: ResourceState, acl: (string, string) -> Filter, cx: ItemContext, session: Quote, item: DataObject, newId: int,
                     collect: map<string, Value> -> map<string, Value>)
    returns (reply: Reply)
    requires session.Valid() && state.quote == session && item in session.items
    requires newId > 0
    modifies state, session, session.billing, session.shipping, item
    ensures session.Valid() && session.items == old(session.items)
    ensures item.data == Saved(old(item.data), newId)
    ensures reply.code == (if old(IsNew(item.data, "item_id")) then CREATED else OK)
    ensures reply.body == Single(ItemProjection(cx, acl(ENTITY, RETRIEVE), Snapshot(session.items), item.data))
    ensures state.actionType == old(state.actionType) && state.operation == old(state.operation)
    ensures old(IsNew(session.data, "entity_id")) ==> View(session) == AfterSaves(2, collect, old(View(session)))
    ensures !old(IsNew(session.data, "entity_id")) ==> View(session) == AfterSaves(1, collect, old(View(session)))
  {
    var isNew := IsNew(item.data, "item_id");
    if IsNew(session.data, "entity_id") {
      var _ := SaveQuote(state, session, collect);
    }
    SaveItem(item, newId);
    var _ := SaveQuote(state, session, collect);
    var code := if isNew then CREATED else OK;
    var r := PrepareResource(state, acl, cx, session, item);
    reply := Reply(code, Single(r));
  }

  /** Collection delete: every visible item is deleted, the quote saved, and the reply is 204. */
  method CollectionDelete(state: ResourceState, session: Quote, collect: map<string, Value> -> map<string, Value>) returns (o: Outcome<Reply>)
    requires session.Valid() && state.quote == session
    modifies state, session, session.billing, session.shipping, session.items
    ensures o == Done(Reply(NO_CONTENT, NoBody))
    ensures session.items == old(session.items)
    ensures forall i :: 0 <= i < |session.items| ==>
              session.items[i].data == old(session.items[i].data)
              && session.items[i].deleted == (old(session.items[i].deleted) || old(Visible(ItemState(session.items[i].data, session.items[i].deleted))))
    ensures Snapshot(session.items) == AllDeleted(old(Snapshot(session.items)))
    ensures state.actionType == old(state.actionType) && state.operation == old(state.operation)
    ensures View(session) == AfterSaves(1, collect, old(View(session)))
  {
    ghost var all := Snapshot(session.items);
    DeleteVisible(session.items);
    var _ := SaveQuote(state, session, collect);
    o := Done(Reply(NO_CONTENT, NoBody));
    assert Snapshot(session.items) == AllDeleted(all);
  }

  /** The items after collection delete: every visible one is deleted, nothing else changes. */
  function AllDeleted(all: seq<ItemState>): (r: seq<ItemState>)
    ensures |r| == |all|
  {
    seq(|all|, i requires 0 <= i < |all| => ItemState(all[i].data, all[i].deleted || Visible(all[i])))
  }

  /** A listing of items none of which is visible is empty. */
  lemma {:induction false} CollectedNone(s: seq<ItemState>, project: map<string, Value> -> Record)
    requires forall i :: 0 <= i < |s| ==> !Visible(s[i])
    ensures Collected(s, project) == []
  {
    if |s| > 0 {
      CollectedNone(s[..|s| - 1], project);
    }
  }

  /** After collection delete, collection retrieve lists nothing and entity retrieve finds nothing. */
  lemma DeletedListsNothing(cx: ItemContext, f: Filter, all: seq<ItemState>, id: Value)
    ensures CollectionOf(cx, f, AllDeleted(all)) == []
    ensures EntityRetrieved(cx, f, AllDeleted(all), id) == Fault(NOT_FOUND, "Not Found")
  {
    CollectedNone(AllDeleted(all), Projector(cx, f, AllDeleted(all)));
  }

  /** `getItemById` finds the same index in two item lists whose items carry the same ids in the same places. */
  lemma {:induction false} FindBySameIds(a: seq<ItemState>, b: seq<ItemState>, id: int)
    requires |a| == |b|
    requires forall i :: 0 <= i < |a| ==> ItemId(a[i].data) == ItemId(b[i].data)
    ensures FindById(a, id) == FindById(b, id)
  {
    if |a| > 0 && ItemId(a[0].data) != id {
      FindBySameIds(a[1..], b[1..], id);
    }
  }

  /** After entity delete, entity retrieve of the same id is a 404. */
  lemma RetrieveAfterDelete(cx: ItemContext, f: Filter, all: seq<ItemState>, id: Value, code: int)
    ensures EntityRetrieved(cx, f, EntityDeleted(all, id, code).1, id) == Fault(NOT_FOUND, "Not Found")
  {
    var t := Target(all, id);
    if t.Some? {
      var after := EntityDeleted(all, id, code).1;
      FindBySameIds(all, after, ToInt(id));
    }
  }

  /**
   * When the write plan names neither the item id nor the parent id, entity
   * retrieve after entity create or update renders what the update
   * answered.
   */
  lemma RetrieveAfterUpdate(cx: ItemContext, w: Filter, r: Filter, all: seq<ItemState>, id: Value, body: Record)
    requires forall c :: HasKey(UpdatePlan(w), c) ==> Lookup(UpdatePlan(w), c).value != "item_id" && Lookup(UpdatePlan(w), c).value != "parent_item_id"
    ensures var u := EntityUpdated(cx, w, r, all, id, body);
            EntityRetrieved(cx, r, u.1, id) == u.0
  {
    var t := Target(all, id);
    if t.Some? {
      var at := t.value;
      var after := EntityUpdated(cx, w, r, all, id, body).1;
      WrittenUntouched(all[at].data, UpdatePlan(w), body, "item_id");
      WrittenUntouched(all[at].data, UpdatePlan(w), body, "parent_item_id");
      assert Field(after[at].data, "item_id") == Field(all[at].data, "item_id");
      assert Field(after[at].data, "parent_item_id") == Field(all[at].data, "parent_item_id");
      FindBySameIds(all, after, ToInt(id));
    }
  }

  /** The loop of collection delete: every visible item is flagged deleted, nothing else changes. */
  method DeleteVisible(items: seq<DataObject>)
    requires forall a, b :: 0 <= a < b < |items| ==> items[a] != items[b]
    modifies set j | 0 <= j < |items| :: items[j]
    ensures forall j :: 0 <= j < |items| ==>
              items[j].data == old(items[j].data)
              && items[j].deleted == (old(items[j].deleted) || old(Visible(ItemState(items[j].data, items[j].deleted))))
  {
    var i := 0;
    while i < |items|
      invariant 0 <= i <= |items|
      invariant forall j :: 0 <= j < |items| ==> items[j].data == old(items[j].data)
      invariant forall j :: 0 <= j < i ==> items[j].deleted == (old(items[j].deleted) || old(Visible(ItemState(items[j].data, items[j].deleted))))
      invariant forall j :: i <= j < |items| ==> items[j].deleted == old(items[j].deleted)
    {
      if !items[i].deleted && TopLevel(items[i].data) {
        items[i].Delete();
      }
      i := i + 1;
    }
  }

  /** Entity retrieve: load the item (404 when it is not a visible item) and render it. */
  method EntityRetrieve(state: ResourceState, acl: (string, string) -> Filter, cx: ItemContext, session: Quote, id: Value)
    returns (o: Outcome<Reply>)
    modifies state
    ensures state.actionType == old(state.actionType) && state.operation == old(state.operation) && state.quote == old(state.quote)
    ensures o.Fault? ==> o == Fault(NOT_FOUND, "Not Found")
    ensures var all := old(Snapshot(session.items));
            var at := FindById(all, ToInt(id));
      && (o.Done? <==> ToInt(id) != 0 && at.Some? && Visible(all[at.value]))
      && (o.Done? ==> o.value == Reply(OK, Single(ItemProjection(cx, acl(ENTITY, RETRIEVE), all, all[at.value].data))))
    ensures o == EntityRetrieved(cx, acl(ENTITY, RETRIEVE), old(Snapshot(session.items)), id)
  {
    ghost var all := Snapshot(session.items);
    var loaded := LoadItem(session, id);
    if loaded.Fault? {
      return Fault(loaded.code, loaded.message);
    }
    assert loaded.value.data == all[FindById(all, ToInt(id)).value].data;
    var r := PrepareResource(state, acl, cx, session, loaded.value);
    o := Done(Reply(OK, Single(r)));
  }

  /**
   * Entity create and update take the same path: load the item (404 when
   * it is not a visible item), write it, save the quote and render it.
   */
  method EntityUpdate(state: ResourceState, acl: (string, string) -> Filter, cx: ItemContext, session: Quote, id: Value, body: Record,
                      collect: map<string, Value> -> map<string, Value>)
    returns (o: Outcome<Reply>)
    requires session.Valid() && state.quote == session
    modifies state, session, session.billing, session.shipping, session.items
    ensures session.items == old(session.items)
    ensures (o, Snapshot(session.items)) == EntityUpdated(cx, acl(ENTITY, UPDATE), acl(ENTITY, RETRIEVE), old(Snapshot(session.items)), id, body)
    ensures state.actionType == old(state.actionType) && state.operation == old(state.operation)
    ensures o.Fault? ==> View(session) == old(View(session))
    ensures o.Done? ==> View(session) == AfterSaves(1, collect, old(View(session)))
  {
    ghost var all := Snapshot(session.items);
    var loaded := LoadItem(session, id);
    if loaded.Fault? {
      return Fault(loaded.code, loaded.message);
    }
    var r := UpdateAndRender(state, acl, cx, session, loaded.value, body, Target(all, id).value, collect);
    o := Done(Reply(OK, Single(r)));
  }

  /** The part of entity update after the load: write the item, save the quote, render the item. */
  method UpdateAndRender(state: ResourceState, acl: (string, string) -> Filter, cx: ItemContext, session: Quote, item: DataObject, body: Record,
                         ghost at: nat, collect: map<string, Value> -> map<string, Value>)
    returns (r: Record)
    requires session.Valid() && state.quote == session && at < |session.items| && session.items[at] == item
    modifies state, session, session.billing, session.shipping, item
    ensures session.items == old(session.items)
    ensures Snapshot(session.items)
            == old(Snapshot(session.items))[at := ItemState(Written(old(item.data), UpdatePlan(acl(ENTITY, UPDATE)), body), old(item.deleted))]
    ensures r == ItemProjection(cx, acl(ENTITY, RETRIEVE), Snapshot(session.items), item.data)
    ensures state.actionType == old(state.actionType) && state.operation == old(state.operation)
    ensures View(session) == AfterSaves(1, collect, old(View(session)))
  {
    WriteAt(state, acl, session, item, body, at, collect);
    r := PrepareResource(state, acl, cx, session, item);
  }

  /** Write the loaded item and save the quote. */
  method WriteAt(state: ResourceState, acl: (string, string) -> Filter, session: Quote, item: DataObject, body: Record, ghost at: nat,
                 collect: map<string, Value> -> map<string, Value>)
    requires session.Valid() && state.quote == session && at < |session.items| && session.items[at] == item
    modifies state, session, session.billing, session.shipping, item
    ensures session.items == old(session.items)
    ensures Snapshot(session.items)
            == old(Snapshot(session.items))[at := ItemState(Written(old(item.data), UpdatePlan(acl(ENTITY, UPDATE)), body), old(item.deleted))]
    ensures state.actionType == old(state.actionType) && state.operation == old(state.operation)
    ensures View(session) == AfterSaves(1, collect, old(View(session)))
  {
    UpdateAt(state, acl, session, item, body, at);
    ghost var written := Snapshot(session.items);
    var _ := SaveQuote(state, session, collect);
    assert Snapshot(session.items) == written;
  }

  /** The write of entity update on the item at index `at`; the other items keep their state. */
  method UpdateAt(state: ResourceState, acl: (string, string) -> Filter, session: Quote, item: DataObject, body: Record, ghost at: nat)
    requires session.Valid() && at < |session.items| && session.items[at] == item
    modifies state, item
    ensures Snapshot(session.items)
            == old(Snapshot(session.items))[at := ItemState(Written(old(item.data), UpdatePlan(acl(ENTITY, UPDATE)), body), old(item.deleted))]
    ensures state.actionType == old(state.actionType) && state.operation == old(state.operation) && state.quote == old(state.quote)
  {
    ghost var all := Snapshot(session.items);
    UpdateResource(state, acl, item, body);
    assert Snapshot(session.items) == all[at := ItemState(item.data, item.deleted)];
  }

  /** Entity delete: load the item (404 as for a read), delete it, save the quote; the reply is 204. */
  method EntityDelete(state: ResourceState, session: Quote, id: Value, collect: map<string, Value> -> map<string, Value>) returns (o: Outcome<Reply>)
    requires session.Valid() && state.quote == session
    modifies state, session, session.billing, session.shipping, session.items
    ensures session.items == old(session.items)
    ensures (o, Snapshot(session.items)) == EntityDeleted(old(Snapshot(session.items)), id, NO_CONTENT)
    ensures state.actionType == old(state.actionType) && state.operation == old(state.operation)
    ensures o.Fault? ==> View(session) == old(View(session))
    ensures o.Done? ==> View(session) == AfterSaves(1, collect, old(View(session)))
  {
    ghost var all := Snapshot(session.items);
    var loaded := LoadItem(session, id);
    if loaded.Fault? {
      return Fault(loaded.code, loaded.message);
    }
    DeleteAt(state, session, loaded.value, Target(all, id).value, collect);
    o := Done(Reply(NO_CONTENT, NoBody));
  }

  /** The part of entity delete after the load: delete the item and save the quote. */
  method DeleteAt(state: ResourceState, session: Quote, item: DataObject, ghost at: nat, collect: map<string, Value> -> map<string, Value>)
    requires session.Valid() && state.quote == session && at < |session.items| && session.items[at] == item
    modifies state, session, session.billing, session.shipping, item
    ensures session.items == old(session.items)
    ensures Snapshot(session.items) == old(Snapshot(session.items))[at := ItemState(old(item.data), true)]
    ensures state.actionType == old(state.actionType) && state.operation == old(state.operation)
    ensures View(session) == AfterSaves(1, collect, old(View(session)))
  {
    ghost var all := Snapshot(session.items);
    item.Delete();
    var _ := SaveQuote(state, session, collect);
    assert Snapshot(session.items) == all[at := ItemState(item.data, true)];
  }

  /** The operations of the collection. */
  const COLLECTION_OPS: set<string> := {COLLECTION + RETRIEVE, COLLECTION + CREATE, COLLECTION + DELETE}

  /** The operations of one item. */
  const ENTITY_OPS: set<string> := {ENTITY + RETRIEVE, ENTITY + CREATE, ENTITY + UPDATE, ENTITY + DELETE}

  /** No operation is both a collection and an entity operation. */
  lemma OpSetsDisjoint()
    ensures forall op :: op in COLLECTION_OPS ==> op !in ENTITY_OPS
  {
    forall op | op in COLLECTION_OPS ensures op !in ENTITY_OPS {
      assert op[0] == 'c';
    }
    assert forall op :: op in ENTITY_OPS ==> op[0] == 'e';
  }

  /**
   * `dispatch()`: the quote is loaded, then the action type and operation
   * choose collection retrieve (the keyed listing), collection create,
   * collection delete, entity retrieve, entity create or update, or
   * entity delete; anything else is 405.
   */
  method Dispatch(state: ResourceState, acl: (string, string) -> Filter, cx: ItemContext, catalog: Catalog, session: Quote,
                  id: Value, body: Record, addProduct: (Product, Record) -> Added, newId: int, collect: map<string, Value> -> map<string, Value>)
    returns (o: Outcome<Reply>)
    requires session.Valid() && AddsItems(addProduct, session) && newId > 0
    requires state.quote == null || state.quote == session
    modifies state, session, session.billing, session.shipping, session.items
    modifies CreatedItem(Created(catalog, cx.loc, acl(ENTITY, CREATE), Snapshot(session.items), body, addProduct))
    ensures var op := old(state.actionType) + old(state.operation);
            var all := old(Snapshot(session.items));
      && (op in COLLECTION_OPS ==>
            Collection(cx, acl, catalog, body, addProduct, newId, op, all,
                       old(CreatedData(Created(catalog, cx.loc, acl(ENTITY, CREATE), Snapshot(session.items), body, addProduct))),
                       CreatedData(Created(catalog, cx.loc, acl(ENTITY, CREATE), all, body, addProduct)),
                       old(session.items), session.items, Snapshot(session.items), o))
      && (op in ENTITY_OPS ==> Entity(cx, acl, id, body, op, all, Snapshot(session.items), o) && session.items == old(session.items))
      && (op !in COLLECTION_OPS && op !in ENTITY_OPS ==> o == NotAllowed() && session.items == old(session.items))
    ensures var op := old(state.actionType) + old(state.operation);
            var loaded := LoadedView(old(state.quote) != null, old(View(session)));
            var first := op == COLLECTION + CREATE && IsNew(loaded.data, "entity_id");
      && (op == COLLECTION + RETRIEVE || op == ENTITY + RETRIEVE || o.Fault? ==> View(session) == loaded)
      && (first && o.Done? ==> View(session) == AfterSaves(2, collect, loaded))
      && (op != COLLECTION + RETRIEVE && op != ENTITY + RETRIEVE && !first && o.Done? ==> View(session) == AfterSaves(1, collect, loaded))
  {
    ghost var all := Snapshot(session.items);
    ghost var c := Created(catalog, cx.loc, acl(ENTITY, CREATE), all, body, addProduct);
    ghost var created := CreatedData(c);
    var quote := LoadQuote(state, session, false);
    ghost var items := session.items;
    assert items == old(session.items) && Snapshot(items) == all && CreatedData(c) == created;
    ghost var loaded := View(session);
    assert loaded == LoadedView(old(state.quote) != null, old(View(session)));
    OpSetsDisjoint();
    var op := state.actionType + state.operation;
    if op in COLLECTION_OPS {
      o := DispatchCollection(state, acl, cx, catalog, session, op, body, addProduct, newId, collect);
    } else if op in ENTITY_OPS {
      o := DispatchEntity(state, acl, cx, session, op, id, body, collect);
      assert session.items == items;
    } else {
      o := NotAllowed();
    }
  }

  /**
   * The collection cases of `dispatch()`, on the items `all` (the objects
   * `before`) that become the objects `after` in the states `now`:
   * collection retrieve lists the visible items; collection create is
   * `Created`, whose item's data goes from `created` to `saved`, with its
   * new items appended and the item rendered; collection delete deletes
   * every visible item and answers 204.
   */
  predicate Collection(cx: ItemContext, acl: (string, string) -> Filter, catalog: Catalog, body: Record,
                       addProduct: (Product, Record) -> Added, newId: int, op: string, all: seq<ItemState>,
                       created: map<string, Value>, saved: map<string, Value>,
                       before: seq<DataObject>, after: seq<DataObject>, now: seq<ItemState>, o: Outcome<Reply>)
  {
    && (op == COLLECTION + RETRIEVE ==> CollectionListed(cx, acl, all, before, after, now, o))
    && (op == COLLECTION + CREATE ==> CollectionCreated(cx, acl, catalog, body, addProduct, newId, all, created, saved, before, after, now, o))
    && (op == COLLECTION + DELETE ==> o == Done(Reply(NO_CONTENT, NoBody)) && after == before && now == AllDeleted(all))
  }

  /** Collection retrieve: the visible items are listed and nothing changes. */
  predicate CollectionListed(cx: ItemContext, acl: (string, string) -> Filter, all: seq<ItemState>,
                             before: seq<DataObject>, after: seq<DataObject>, now: seq<ItemState>, o: Outcome<Reply>)
  {
    o == Done(Reply(OK, Listing(CollectionOf(cx, acl(COLLECTION, RETRIEVE), all), true))) && after == before && now == all
  }

  /** Collection create: `Created`, with its new items appended and the saved item rendered. */
  predicate CollectionCreated(cx: ItemContext, acl: (string, string) -> Filter, catalog: Catalog, body: Record,
                              addProduct: (Product, Record) -> Added, newId: int, all: seq<ItemState>,
                              created: map<string, Value>, saved: map<string, Value>,
                              before: seq<DataObject>, after: seq<DataObject>, now: seq<ItemState>, o: Outcome<Reply>)
  {
    var c := Created(catalog, cx.loc, acl(ENTITY, CREATE), all, body, addProduct);
    && (c.Fault? ==> o == Fault(c.code, c.message) && o.code == BAD_REQUEST && after == before)
    && (c.Done? ==>
          && after == before + NewItems(before, CreateRequest(catalog, cx.loc, acl(ENTITY, CREATE), all, body), addProduct)
          && saved == Saved(created, newId)
          && o == Done(Reply(if IsNew(created, "item_id") then CREATED else OK,
                             Single(ItemProjection(cx, acl(ENTITY, RETRIEVE), now, saved)))))
  }

  /** The entity cases of `dispatch()`, on the items `all` that become `after`. */
  predicate Entity(cx: ItemContext, acl: (string, string) -> Filter, id: Value, body: Record, op: string, all: seq<ItemState>,
                   after: seq<ItemState>, o: Outcome<Reply>)
  {
    && (op == ENTITY + RETRIEVE ==> o == EntityRetrieved(cx, acl(ENTITY, RETRIEVE), all, id) && after == all)
    && (op == ENTITY + CREATE || op == ENTITY + UPDATE ==> (o, after) == EntityUpdated(cx, acl(ENTITY, UPDATE), acl(ENTITY, RETRIEVE), all, id, body))
    && (op == ENTITY + DELETE ==> (o, after) == EntityDeleted(all, id, NO_CONTENT))
  }

  /** The collection cases of `dispatch()`. */
  method DispatchCollection(state: ResourceState, acl: (string, string) -> Filter, cx: ItemContext, catalog: Catalog, session: Quote,
                            op: string, body: Record, addProduct: (Product, Record) -> Added, newId: int, collect: map<string, Value> -> map<string, Value>)
    returns (o: Outcome<Reply>)
    requires op in COLLECTION_OPS
    requires session.Valid() && AddsItems(addProduct, session) && state.quote == session && newId > 0
    modifies state, session, session.billing, session.shipping, session.items
    modifies CreatedItem(Created(catalog, cx.loc, acl(ENTITY, CREATE), Snapshot(session.items), body, addProduct))
    ensures op == COLLECTION + RETRIEVE || o.Fault? ==> View(session) == old(View(session))
    ensures op == COLLECTION + CREATE && o.Done? && old(IsNew(session.data, "entity_id")) ==>
              View(session) == AfterSaves(2, collect, old(View(session)))
    ensures (op == COLLECTION + CREATE && o.Done? && !old(IsNew(session.data, "entity_id"))) || op == COLLECTION + DELETE ==>
              View(session) == AfterSaves(1, collect, old(View(session)))
    ensures Collection(cx, acl, catalog, body, addProduct, newId, op, old(Snapshot(session.items)),
                       old(CreatedData(Created(catalog, cx.loc, acl(ENTITY, CREATE), Snapshot(session.items), body, addProduct))),
                       CreatedData(Created(catalog, cx.loc, acl(ENTITY, CREATE), old(Snapshot(session.items)), body, addProduct)),
                       old(session.items), session.items, Snapshot(session.items), o)
  {
    ghost var all := Snapshot(session.items);
    ghost var c := Created(catalog, cx.loc, acl(ENTITY, CREATE), all, body, addProduct);
    ghost var created := CreatedData(c);
    ghost var before := session.items;
    OpsDistinct();
    if op == COLLECTION + RETRIEVE {
      var entries := PrepareCollection(state, acl, cx, session);
      o := Done(Reply(OK, Listing(entries, true)));
      assert CollectionListed(cx, acl, all, before, session.items, Snapshot(session.items), o);
    } else if op == COLLECTION + CREATE {
      o := CollectionCreate(state, acl, cx, catalog, session, body, addProduct, newId, collect);
      assert CollectionCreated(cx, acl, catalog, body, addProduct, newId, all, created, CreatedData(c),
                               before, session.items, Snapshot(session.items), o);
    } else {
      o := CollectionDelete(state, session, collect);
    }
  }

  /** The entity cases of `dispatch()`. */
  method DispatchEntity(state: ResourceState, acl: (string, string) -> Filter, cx: ItemContext, session: Quote,
                        op: string, id: Value, body: Record, collect: map<string, Value> -> map<string, Value>)
    returns (o: Outcome<Reply>)
    requires op in ENTITY_OPS
    requires session.Valid() && state.quote == session
    modifies state, session, session.billing, session.shipping, session.items
    ensures session.items == old(session.items)
    ensures Entity(cx, acl, id, body, op, old(Snapshot(session.items)), Snapshot(session.items), o)
    ensures op == ENTITY + RETRIEVE || o.Fault? ==> View(session) == old(View(session))
    ensures op != ENTITY + RETRIEVE && o.Done? ==> View(session) == AfterSaves(1, collect, old(View(session)))
  {
    OpsDistinct();
    if op == ENTITY + RETRIEVE {
      o := EntityRetrieve(state, acl, cx, session, id);
    } else if op == ENTITY + CREATE || op == ENTITY + UPDATE {
      o := EntityUpdate(state, acl, cx, session, id, body, collect);
    } else {
      o := EntityDelete(state, session, id, collect);
    }
  }
}
