/**
 * The Magento objects the resources work on, reduced to what the
 * extension reads and writes: a `Varien_Object` is a map of data keys;
 * a quote owns its billing address, shipping address, payment and items.
 */
module Objects {
  import opened Wrappers
  import opened Values

  /** A `Varien_Object`: `getData`/`setData`/`unsetData`/`hasData`, plus Magento's deleted flag. */
  class DataObject {
    var data: map<string, Value>
    var deleted: bool

    constructor (d: map<string, Value>)
      ensures data == d && !deleted
    {
      data := d;
      deleted := false;
    }

    /** `getData($k)` (and `getDataUsingMethod`): a missing key reads as null. */
    function Get(k: string): Value
      reads this
    {
      Field(data, k)
    }

    /** `hasData($k)`. */
    predicate Has(k: string)
      reads this
    {
      k in data
    }

    /** `setData($k, $v)` (and `setDataUsingMethod`). */
    method Set(k: string, v: Value)
      modifies this
      ensures data == old(data)[k := v] && deleted == old(deleted)
    {
      data := data[k := v];
    }

    /** `isDeleted(true)`: what `$quote->deleteItem($item)` does to the item in memory. */
    method Delete()
      modifies this
      ensures data == old(data) && deleted
    {
      deleted := true;
    }

    /** `unsetData($k)`. */
    method Unset(k: string)
      modifies this
      ensures data == old(data) - {k} && deleted == old(deleted)
    {
      data := data - {k};
    }
  }

  /**
   * A `Mage_Sales_Model_Quote`. Its own data holds customer_email,
   * customer_id, coupon_code, is_active and the like; the addresses,
   * the payment and the items are objects of their own.
   */
  class Quote {
    var data: map<string, Value>
    var billing: DataObject
    var shipping: DataObject
    var payment: DataObject
    var items: seq<DataObject>
    var isVirtual: bool
    var totalsCollectedFlag: bool

    constructor (d: map<string, Value>, b: DataObject, s: DataObject, p: DataObject, virtual: bool)
      ensures data == d && billing == b && shipping == s && payment == p && items == []
      ensures isVirtual == virtual && !totalsCollectedFlag
    {
      data := d;
      billing := b;
      shipping := s;
      payment := p;
      items := [];
      isVirtual := virtual;
      totalsCollectedFlag := false;
    }

    /**
     * The two addresses and the payment are three different objects, and
     * the items are further objects, each listed once.
     */
    predicate Valid()
      reads this
    {
      && billing != shipping && billing != payment && shipping != payment
      && (forall i :: 0 <= i < |items| ==> items[i] != billing && items[i] != shipping && items[i] != payment)
      && (forall i, j :: 0 <= i < j < |items| ==> items[i] != items[j])
    }

    function Get(k: string): Value
      reads this
    {
      Field(data, k)
    }

    predicate Has(k: string)
      reads this
    {
      k in data
    }

    method Set(k: string, v: Value)
      modifies this
      ensures data == old(data)[k := v]
      ensures billing == old(billing) && shipping == old(shipping) && payment == old(payment)
      ensures items == old(items) && isVirtual == old(isVirtual) && totalsCollectedFlag == old(totalsCollectedFlag)
    {
      data := data[k := v];
    }
  }

  /**
   * The request state every resource saves before a sub-projection and
   * restores afterwards (`getActionType`/`getOperation`), and the quote
   * `loadQuote` caches.
   */
  class ResourceState {
    var actionType: string
    var operation: string
    var quote: Quote?

    constructor (a: string, o: string)
      ensures actionType == a && operation == o && quote == null
    {
      actionType := a;
      operation := o;
      quote := null;
    }
  }

  /** The action types and operations of the REST layer. */
  const ENTITY: string := "entity"
  const COLLECTION: string := "collection"
  const CREATE: string := "create"
  const RETRIEVE: string := "retrieve"
  const UPDATE: string := "update"
  const DELETE: string := "delete"

  /** The switch labels of a `dispatch()` are different strings. */
  lemma OpsDistinct()
    ensures COLLECTION + RETRIEVE != COLLECTION + CREATE && COLLECTION + RETRIEVE != COLLECTION + DELETE
    ensures COLLECTION + CREATE != COLLECTION + DELETE
    ensures ENTITY + RETRIEVE != ENTITY + CREATE && ENTITY + RETRIEVE != ENTITY + UPDATE && ENTITY + RETRIEVE != ENTITY + DELETE
    ensures ENTITY + CREATE != ENTITY + UPDATE && ENTITY + CREATE != ENTITY + DELETE && ENTITY + UPDATE != ENTITY + DELETE
  {
    assert |COLLECTION + RETRIEVE| == 18 && |COLLECTION + CREATE| == 16 && |COLLECTION + DELETE| == 16;
    assert (COLLECTION + CREATE)[10] == 'c' && (COLLECTION + DELETE)[10] == 'd';
    assert |ENTITY + RETRIEVE| == 14 && |ENTITY + CREATE| == 12 && |ENTITY + UPDATE| == 12 && |ENTITY + DELETE| == 12;
    assert (ENTITY + CREATE)[6] == 'c' && (ENTITY + UPDATE)[6] == 'u' && (ENTITY + DELETE)[6] == 'd';
  }
}
