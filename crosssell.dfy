/**
 * Model/Crosssell.php: the cross-sell products of the cart, keyed by SKU.
 * A virtual quote has none; otherwise the products linked as cross-sells
 * from the products in the cart, less those already in the cart, are each
 * rendered from their requested codes. The catalog query and the image
 * helper belong to Magento and are given as functions.
 */
module Crosssell {
  import opened Wrappers
  import opened Values
  import opened Casts
  import opened Codec
  import opened KeySort
  import opened Projection
  import opened Typing
  import opened Pipeline
  import opened Objects
  import opened QuoteSync
  import opened Resource
  import Item

  /** `$attributeMap`: 'url' is read from url_in_store. */
  const CROSS_MAP: AttrMap := [("url", "url_in_store")]

  /** `$attributeTypeMap`. */
  const CROSS_TYPES: TypeMap := [("sku", TString), ("name", TString), ("description", TString), ("short_description", TString),
                                 ("url", TString), ("is_saleable", TBool), ("is_in_stock", TBool), ("qty", TFloat),
                                 ("min_sale_qty", TFloat), ("max_sale_qty", TFloat), ("price", TCurrency), ("final_price", TCurrency)]

  /** `$manualAttributes`. */
  const CROSS_MANUAL: set<string> := {"is_saleable", "is_in_stock", "qty", "min_sale_qty", "max_sale_qty", "images"}

  /** The manual attributes `prepareProduct` looks for among the internal names it reads. */
  const STOCK_FIELDS: set<string> := {"is_saleable", "is_in_stock", "qty", "min_sale_qty", "max_sale_qty"}

  /**
   * A `Mage_Catalog_Model_Product` of the link collection: its id, its
   * data, `isSaleable()`, and its stock item's data when `getStockItem()`
   * is a `Mage_CatalogInventory_Model_Stock_Item`.
   */
  datatype Product = Product(id: int, fields: map<string, Value>, saleable: bool, stockItem: Option<map<string, Value>>)

  /**
   * What Magento supplies: the image helper's URL for a product and an
   * image type, and the cross-sell link collection for the cart's product
   * ids (store, status, visibility, stock and price limits, the product
   * filter, grouping, position order and the request's collection
   * modifiers applied), before the cart's own products are excluded.
   */
  datatype CrosssellFacts = CrosssellFacts(imageUrl: (Product, string) -> string, linked: seq<int> -> seq<Product>)

  /** What a projection depends on besides the filter and the product. */
  datatype CrosssellContext = CrosssellContext(loc: Locale, currencyCode: Value, facts: CrosssellFacts)

  /** `intval($product->getId())` for each item of `getAllItems()` (not deleted) that has a product, in order. */
  function ProductIds(items: seq<Item.ItemState>): seq<int> {
    if |items| == 0 then []
    else
      var last := items[|items| - 1];
      ProductIds(items[..|items| - 1]) + (if !last.deleted && Truthy(Field(last.data, "product_id")) then [ToInt(Field(last.data, "product_id"))] else [])
  }

  /** `addExcludeProductFilter($cartProductIds)`: the products whose id is not one of the cart's. */
  function Excluding(products: seq<Product>, ids: seq<int>): seq<Product> {
    if |products| == 0 then []
    else
      var last := products[|products| - 1];
      Excluding(products[..|products| - 1], ids) + (if last.id in ids then [] else [last])
  }

  /** `getCrosssellProducts($quote)`: nothing for a cart without products, else the linked products not in the cart. */
  function CrosssellProducts(facts: CrosssellFacts, ids: seq<int>): seq<Product> {
    if |ids| == 0 then [] else Excluding(facts.linked(ids), ids)
  }

  /**
   * A cart without products has no cross-sells; otherwise the cross-sells
   * are exactly the linked products whose id is not in the cart, in the
   * collection's order.
   */
  lemma {:induction false} CrosssellProductsMembers(facts: CrosssellFacts, ids: seq<int>)
    ensures |ids| == 0 ==> CrosssellProducts(facts, ids) == []
    ensures forall p :: p in CrosssellProducts(facts, ids) <==> |ids| > 0 && p in facts.linked(ids) && p.id !in ids
  {
    if |ids| > 0 {
      ExcludingMembers(facts.linked(ids), ids);
    }
  }

  lemma {:induction false} ExcludingMembers(products: seq<Product>, ids: seq<int>)
    ensures forall p :: p in Excluding(products, ids) <==> p in products && p.id !in ids
  {
    if |products| > 0 {
      var init := products[..|products| - 1];
      ExcludingMembers(init, ids);
      assert products == init + [products[|products| - 1]];
      forall p ensures p in products <==> p in init || p == products[|products| - 1] {
      }
    }
  }

  /** The cart's product ids are those of its items that are not deleted and have a product. */
  lemma {:induction false} ProductIdsMembers(items: seq<Item.ItemState>)
    ensures forall id :: id in ProductIds(items) <==>
              exists i :: 0 <= i < |items| && !items[i].deleted && Truthy(Field(items[i].data, "product_id"))
                          && ToInt(Field(items[i].data, "product_id")) == id
  {
    if |items| > 0 {
      var n := |items| - 1;
      ProductIdsMembers(items[..n]);
      forall id | id in ProductIds(items)
        ensures exists i :: 0 <= i < |items| && !items[i].deleted && Truthy(Field(items[i].data, "product_id"))
                            && ToInt(Field(items[i].data, "product_id")) == id
      {
        if id !in ProductIds(items[..n]) {
          assert !items[n].deleted && ToInt(Field(items[n].data, "product_id")) == id;
        } else {
          var i :| 0 <= i < n && !items[..n][i].deleted && Truthy(Field(items[..n][i].data, "product_id"))
                   && ToInt(Field(items[..n][i].data, "product_id")) == id;
          assert items[i] == items[..n][i];
        }
      }
      forall id | exists i :: 0 <= i < |items| && !items[i].deleted && Truthy(Field(items[i].data, "product_id"))
                              && ToInt(Field(items[i].data, "product_id")) == id
        ensures id in ProductIds(items)
      {
        var i :| 0 <= i < |items| && !items[i].deleted && Truthy(Field(items[i].data, "product_id"))
                 && ToInt(Field(items[i].data, "product_id")) == id;
        if i < n {
          assert items[..n][i] == items[i];
        }
      }
    }
  }

  /** The loop of `getCrosssellProducts` collecting the cart's product ids. */
  method CartProductIds(items: seq<DataObject>) returns (ids: seq<int>)
    ensures ids == ProductIds(Item.Snapshot(items))
  {
    ghost var all := Item.Snapshot(items);
    ids := [];
    var i := 0;
    while i < |items|
      invariant 0 <= i <= |items|
      invariant ids == ProductIds(all[..i])
    {
      assert all[..i + 1][..i] == all[..i];
      var item := items[i];
      if !item.deleted && Truthy(item.Get("product_id")) {
        ids := ids + [ToInt(item.Get("product_id"))];
      }
      i := i + 1;
    }
    assert all[..|items|] == all;
  }

  /** `getCrosssellProducts($quote)`. */
  method GetCrosssellProducts(facts: CrosssellFacts, quote: Quote) returns (products: seq<Product>)
    ensures products == CrosssellProducts(facts, ProductIds(Item.Snapshot(quote.items)))
  {
    var ids := CartProductIds(quote.items);
    if |ids| > 0 {
      products := Excluding(facts.linked(ids), ids);
    } else {
      products := [];
    }
  }

  /** `in_array($name, $attributes)`: whether `name` is among the internal names of the read plan. */
  predicate Reads(plan: Assoc<string>, name: string) {
    exists i :: 0 <= i < |plan| && plan[i].1 == name
  }

  /** The read plan of `prepareProduct`: the requested codes that are not manual attributes, with their internal names. */
  function ReadPlan(included: seq<string>): Assoc<string> {
    Plan(Without(included, CROSS_MANUAL), CROSS_MAP)
  }

  /** 'url' is the one renamed code. */
  lemma CrossRename(k: string)
    ensures Rename(CROSS_MAP, k) == if k == "url" then "url_in_store" else k
  {
    assert CROSS_MAP[1..] == [];
  }

  /**
   * The stock tests look for manual attribute names among the internal
   * names of the read plan, from which the manual attributes were removed:
   * they never succeed, whatever is requested.
   */
  lemma StockTestsNeverFire(included: seq<string>, name: string)
    requires name in STOCK_FIELDS
    ensures !Reads(ReadPlan(included), name)
  {
    var plan := ReadPlan(included);
    forall i | 0 <= i < |plan| ensures plan[i].1 != name {
      HasKeyIndex(plan, plan[i].0);
      LookupIndex(plan, i);
      CrossRename(plan[i].0);
      UrlInStoreNotStock();
    }
  }

  /** The internal name of 'url' is not a stock field. */
  lemma UrlInStoreNotStock()
    ensures "url_in_store" !in STOCK_FIELDS
  {
    assert |"url_in_store"| == 12 && |"is_saleable"| == 11 && |"is_in_stock"| == 11 && |"qty"| == 3;
    assert |"min_sale_qty"| == 12 && |"max_sale_qty"| == 12 && "url_in_store"[0] == 'u';
    assert "min_sale_qty"[0] == 'm' && "max_sale_qty"[0] == 'm';
  }

  /** `getImageUrls($product)`: the normal, small and thumbnail URLs. */
  function ImageUrls(facts: CrosssellFacts, p: Product): Value {
    Dict([("normal", Str(facts.imageUrl(p, "image"))),
          ("small", Str(facts.imageUrl(p, "small_image"))),
          ("thumbnail", Str(facts.imageUrl(p, "thumbnail")))])
  }

  /** The stock data `prepareProduct` adds when the product has a stock item. */
  function StockData(plan: Assoc<string>, stock: map<string, Value>, d: Record): Record {
    var d1 := PutIf(d, Reads(plan, "is_in_stock"), "is_in_stock", Field(stock, "is_in_stock"));
    var d2 := PutIf(d1, Reads(plan, "qty"), "qty", Field(stock, "qty"));
    var d3 := PutIf(d2, Reads(plan, "min_sale_qty"), "min_sale_qty", Field(stock, "min_sale_qty"));
    PutIf(d3, Reads(plan, "max_sale_qty"), "max_sale_qty", Field(stock, "max_sale_qty"))
  }

  /** The manual attributes `prepareProduct` adds, in source order, to the data read along the plan. */
  function ManualData(facts: CrosssellFacts, included: seq<string>, plan: Assoc<string>, p: Product, d: Record): Record {
    var d1 := PutIf(d, Reads(plan, "is_saleable"), "is_saleable", Bool(p.saleable));
    var d2 := if p.stockItem.Some? then StockData(plan, p.stockItem.value, d1) else d1;
    PutIf(d2, "images" in included, "images", ImageUrls(facts, p))
  }

  /** The data `prepareProduct` builds before the event and the filter. */
  function Raw(facts: CrosssellFacts, included: seq<string>, p: Product): Record {
    var plan := ReadPlan(included);
    ManualData(facts, included, plan, p, ReadInto([], plan, p.fields))
  }

  /** The value the built data holds for a code, if any. */
  function RawValue(facts: CrosssellFacts, p: Product, k: string): Option<Value> {
    if k == "images" then Some(ImageUrls(facts, p))
    else if k in STOCK_FIELDS then None
    else Some(Field(p.fields, Rename(CROSS_MAP, k)))
  }

  /**
   * The built data holds each requested code that is not a manual
   * attribute, read under its internal name, and the image URLs when
   * 'images' is requested; the stock fields are never set.
   */
  lemma RawLookup(facts: CrosssellFacts, included: seq<string>, p: Product, k: string)
    ensures DistinctKeys(Raw(facts, included, p))
    ensures Lookup(Raw(facts, included, p), k) == if k in included then RawValue(facts, p, k) else None
  {
    var plan := ReadPlan(included);
    var d0 := ReadInto([], plan, p.fields);
    ReadIntoDistinct([], plan, p.fields);
    LoadedAttributesContents(p.fields, included, CROSS_MANUAL, CROSS_MAP, [], k);
    StockTestsNeverFire(included, "is_saleable");
    StockTestsNeverFire(included, "is_in_stock");
    StockTestsNeverFire(included, "qty");
    StockTestsNeverFire(included, "min_sale_qty");
    StockTestsNeverFire(included, "max_sale_qty");
    PutShape(d0, "images", ImageUrls(facts, p));
    assert Field(p.fields, Rename(CROSS_MAP, k)) == if Rename(CROSS_MAP, k) in p.fields then p.fields[Rename(CROSS_MAP, k)] else Null;
  }

  /** The keys of the type map are distinct. */
  lemma CrossTypesDistinct()
    ensures DistinctKeys(CROSS_TYPES)
  {
    assert |"sku"| == 3 && |"name"| == 4 && |"description"| == 11 && |"short_description"| == 17 && |"url"| == 3;
    assert |"is_saleable"| == 11 && |"is_in_stock"| == 11 && |"qty"| == 3 && |"min_sale_qty"| == 12 && |"max_sale_qty"| == 12;
    assert |"price"| == 5 && |"final_price"| == 11;
    assert "sku"[0] == 's' && "url"[0] == 'u' && "qty"[0] == 'q';
    assert "description"[0] == 'd' && "is_saleable"[0] == 'i' && "final_price"[0] == 'f';
    assert "is_saleable"[3] == 's' && "is_in_stock"[3] == 'i';
    assert "min_sale_qty"[1] == 'i' && "max_sale_qty"[1] == 'a';
  }

  /** `prepareProduct($product, $filter)` as a function of the product. */
  function ProductProjection(cx: CrosssellContext, f: Filter, p: Product): Record {
    Projected(cx.loc, cx.currencyCode, Raw(cx.facts, f.included, p), f.readable, CROSS_TYPES, f.included)
  }

  /**
   * A product's projection is sorted by key and holds exactly the
   * requested codes: each readable one with its built value, typed (url
   * from url_in_store as a string, prices as currency), and null for one
   * the filter hides or a stock field, which is never built.
   */
  lemma ProductProjectionLookup(cx: CrosssellContext, f: Filter, p: Product, k: string)
    ensures SortedKeys(ProductProjection(cx, f, p))
    ensures Lookup(ProductProjection(cx, f, p), k) ==
            if k !in f.included then None
            else if k in f.readable && RawValue(cx.facts, p, k).Some?
            then Some(Typed(cx.loc, cx.currencyCode, CROSS_TYPES, k, RawValue(cx.facts, p, k).value))
            else Some(Null)
  {
    RawLookup(cx.facts, f.included, p, k);
    CrossTypesDistinct();
    ProjectedShape(cx.loc, cx.currencyCode, Raw(cx.facts, f.included, p), f.readable, CROSS_TYPES, f.included);
  }

  /** A requested stock field is always null. */
  lemma StockFieldsNull(cx: CrosssellContext, f: Filter, p: Product, k: string)
    requires k in STOCK_FIELDS && k in f.included
    ensures Lookup(ProductProjection(cx, f, p), k) == Some(Null)
  {
    ImagesNotStock();
    assert RawValue(cx.facts, p, k) == None;
    ProductProjectionLookup(cx, f, p, k);
  }

  /** 'images' is not a stock field. */
  lemma ImagesNotStock()
    ensures "images" !in STOCK_FIELDS
  {
    assert |"images"| == 6 && |"is_saleable"| == 11 && |"is_in_stock"| == 11 && |"qty"| == 3;
    assert |"min_sale_qty"| == 12 && |"max_sale_qty"| == 12;
  }

  /** A readable requested 'url' is the product's url_in_store, as a string. */
  lemma UrlFromUrlInStore(cx: CrosssellContext, f: Filter, p: Product)
    requires "url" in f.included && "url" in f.readable
    ensures Lookup(ProductProjection(cx, f, p), "url") == Some(Typed(cx.loc, cx.currencyCode, CROSS_TYPES, "url", Field(p.fields, "url_in_store")))
  {
    assert RawValue(cx.facts, p, "url") == Some(Field(p.fields, "url_in_store")) by {
      CrossRename("url");
      assert |"url"| == 3 && |"images"| == 6 && |"is_saleable"| == 11 && |"is_in_stock"| == 11 && "url"[0] != "qty"[0];
      assert |"min_sale_qty"| == 12 && |"max_sale_qty"| == 12;
    }
    ProductProjectionLookup(cx, f, p, "url");
  }

  /** `prepareProduct($product, $filter)`. */
  method PrepareProduct(cx: CrosssellContext, f: Filter, p: Product) returns (r: Record)
    ensures r == ProductProjection(cx, f, p)
  {
    var plan := ReadPlan(f.included);
    var data: Record := [];
    var i := 0;
    while i < |plan|
      invariant 0 <= i <= |plan|
      invariant data == ReadInto([], plan[..i], p.fields)
    {
      assert plan[..i + 1][..i] == plan[..i];
      data := Put(data, plan[i].0, Field(p.fields, plan[i].1));
      i := i + 1;
    }
    assert plan[..|plan|] == plan;
    data := ManualData(cx.facts, f.included, plan, p, data);
    data := Out(data, f.readable);
    data := FixTypes(cx.loc, cx.currencyCode, data, [], CROSS_TYPES);
    r := Finish(data, f.included);
  }

  /** The key `$data[$product->getSku()]` files a product under. */
  function SkuKey(loc: Locale, p: Product): string {
    ToText(loc, Field(p.fields, "sku"))
  }

  /** The collection built from `products`: each product's projection under its SKU. */
  function Collection(cx: CrosssellContext, f: Filter, products: seq<Product>): Assoc<Record> {
    Filed(products, (p: Product) => SkuKey(cx.loc, p), (p: Product) => ProductProjection(cx, f, p))
  }

  /** The collection has one entry per key. */
  lemma CollectionDistinct(cx: CrosssellContext, f: Filter, products: seq<Product>)
    ensures DistinctKeys(Collection(cx, f, products))
  {
    FiledDistinct(products, (p: Product) => SkuKey(cx.loc, p), (p: Product) => ProductProjection(cx, f, p));
  }

  /** A key of the collection is the SKU of a product. */
  lemma CollectionKeyFrom(cx: CrosssellContext, f: Filter, products: seq<Product>, key: string)
    requires HasKey(Collection(cx, f, products), key)
    ensures exists i :: 0 <= i < |products| && SkuKey(cx.loc, products[i]) == key
  {
    FiledKeyFrom(products, (p: Product) => SkuKey(cx.loc, p), (p: Product) => ProductProjection(cx, f, p), key);
  }

  /** The SKU of every product is a key of the collection. */
  lemma CollectionKeyTo(cx: CrosssellContext, f: Filter, products: seq<Product>, i: nat)
    requires i < |products|
    ensures HasKey(Collection(cx, f, products), SkuKey(cx.loc, products[i]))
  {
    FiledKeyTo(products, (p: Product) => SkuKey(cx.loc, p), (p: Product) => ProductProjection(cx, f, p), i);
  }

  /** A product whose SKU no later product repeats is filed with its own projection. */
  lemma CollectionEntry(cx: CrosssellContext, f: Filter, products: seq<Product>, i: nat)
    requires i < |products|
    requires forall j :: i < j < |products| ==> SkuKey(cx.loc, products[j]) != SkuKey(cx.loc, products[i])
    ensures Lookup(Collection(cx, f, products), SkuKey(cx.loc, products[i])) == Some(ProductProjection(cx, f, products[i]))
  {
    FiledEntry(products, (p: Product) => SkuKey(cx.loc, p), (p: Product) => ProductProjection(cx, f, p), i);
  }

  /** The collection of a non-virtual quote: the projections of its cross-sell products, keyed by SKU. */
  function CollectionOf(cx: CrosssellContext, f: Filter, items: seq<Item.ItemState>): Assoc<Record> {
    Collection(cx, f, CrosssellProducts(cx.facts, ProductIds(items)))
  }

  /**
   * `prepareCollection($quote)`: a virtual quote gives an empty keyed
   * collection before the state is touched; otherwise the state is switched
   * to collection retrieve for the filter and restored.
   */
  method PrepareCollection(state: ResourceState, acl: (string, string) -> Filter, cx: CrosssellContext, quote: Quote)
    returns (entries: Assoc<Record>)
    modifies state
    ensures quote.isVirtual ==> entries == []
    ensures !quote.isVirtual ==> entries == CollectionOf(cx, acl(COLLECTION, RETRIEVE), Item.Snapshot(quote.items))
    ensures state.actionType == old(state.actionType) && state.operation == old(state.operation) && state.quote == old(state.quote)
  {
    entries := [];
    if quote.isVirtual {
      return;
    }
    var actionType := state.actionType;
    var operation := state.operation;
    state.actionType := COLLECTION;
    state.operation := RETRIEVE;
    entries := CollectCrosssells(cx, acl(COLLECTION, RETRIEVE), quote);
    state.actionType := actionType;
    state.operation := operation;
  }

  /** The cross-sell products of a quote, each prepared and filed under its SKU. */
  method CollectCrosssells(cx: CrosssellContext, f: Filter, quote: Quote) returns (entries: Assoc<Record>)
    ensures entries == CollectionOf(cx, f, Item.Snapshot(quote.items))
  {
    var products := GetCrosssellProducts(cx.facts, quote);
    entries := CollectProducts(cx, f, products);
  }

  /** The loop of `prepareCollection`: each product's projection under its SKU. */
  method CollectProducts(cx: CrosssellContext, f: Filter, products: seq<Product>) returns (entries: Assoc<Record>)
    ensures entries == Collection(cx, f, products)
  {
    entries := [];
    var i := 0;
    while i < |products|
      invariant 0 <= i <= |products|
      invariant entries == Collection(cx, f, products[..i])
    {
      assert products[..i + 1][..i] == products[..i];
      var r := PrepareProduct(cx, f, products[i]);
      entries := Put(entries, SkuKey(cx.loc, products[i]), r);
      i := i + 1;
    }
    assert products[..|products|] == products;
  }

  /** `dispatch()`: collection retrieve renders the keyed collection; anything else is 405. */
  method Dispatch(state: ResourceState, acl: (string, string) -> Filter, cx: CrosssellContext, session: Quote)
    returns (o: Outcome<Reply>)
    requires session.billing != session.shipping
    modifies state, session, session.billing
    ensures var op := old(state.actionType) + old(state.operation);
            var loaded := if old(state.quote) == null then session else old(state.quote);
      && (op == COLLECTION + RETRIEVE && old(loaded.isVirtual) ==> o == Done(Reply(OK, Listing([], true))))
      && (op == COLLECTION + RETRIEVE && !old(loaded.isVirtual) ==>
            o == Done(Reply(OK, Listing(CollectionOf(cx, acl(COLLECTION, RETRIEVE), Item.Snapshot(old(loaded.items))), true))))
      && (op != COLLECTION + RETRIEVE ==> o == NotAllowed())
    ensures state.actionType == old(state.actionType) && state.operation == old(state.operation)
    ensures (session.data, session.billing.data) == AfterLoad(old(state.quote) != null, old(session.data), old(session.billing.data))
    ensures session.billing == old(session.billing) && session.shipping == old(session.shipping)
    ensures session.isVirtual == old(session.isVirtual) && session.items == old(session.items)
  {
    var quote := LoadQuote(state, session, false);
    if state.actionType + state.operation == COLLECTION + RETRIEVE {
      var entries := PrepareCollection(state, acl, cx, quote);
      o := Done(Reply(OK, Listing(entries, true)));
    } else {
      o := NotAllowed();
    }
  }
}
