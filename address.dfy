/**
 * What the billing and shipping address resources share: loading a stored
 * customer address into a quote address, the cleaning of the
 * `validation_errors` attribute on the way out, and the delete that keeps
 * the chosen shipping method. The customer address book belongs to
 * Magento and is given as functions.
 */
module Address {
  import opened Wrappers
  import opened Values
  import opened Text
  import opened Casts
  import opened Objects
  import opened Projection

  /** The customer address book as an address resource uses it. */
  datatype AddressBook = AddressBook(
    /** `Mage::getModel('customer/address')->load($id)`: the stored address's data (no entity_id when there is none). */
    load: Value -> map<string, Value>,
    /** A quote address's data after `importCustomerAddress($customerAddress)`. */
    importStored: (map<string, Value>, map<string, Value>) -> map<string, Value>)

  /** What a projection of an address depends on besides the filter: the locale, the quote's currency code and `format($type)`. */
  datatype AddressContext = AddressContext(loc: Locale, currencyCode: Value, format: (map<string, Value>, string) -> Value)

  const INVALID_ADDRESS: string := "Customer Address is not valid."

  /** `$customerAddress->getId()`: the load found a stored address. */
  predicate Exists(stored: map<string, Value>) {
    Truthy(Field(stored, "entity_id"))
  }

  /** `$customerAddress->getCustomerId() != $quote->getCustomerId()`, compared as integers. */
  predicate OtherCustomer(stored: map<string, Value>, customerId: Value) {
    ToInt(Field(stored, "customer_id")) != ToInt(customerId)
  }

  /**
   * The quote address after loading the stored address `id` into it: kept
   * as it is when there is no such address, a 400 when the address
   * belongs to another customer, else imported with save_in_address_book
   * cleared.
   */
  function StoredOutcome(book: AddressBook, id: Value, customerId: Value, fields: map<string, Value>): Outcome<map<string, Value>> {
    var stored := book.load(id);
    if !Exists(stored) then Done(fields)
    else if OtherCustomer(stored, customerId) then Fault(BAD_REQUEST, INVALID_ADDRESS)
    else Done(book.importStored(fields, stored)["save_in_address_book" := Int(0)])
  }

  /**
   * Loading a stored address fails exactly when it exists and belongs to
   * another customer, and then with 400 "Customer Address is not valid.";
   * a missing address leaves the quote address alone; an imported one is
   * never saved back to the address book.
   */
  lemma StoredRules(book: AddressBook, id: Value, customerId: Value, fields: map<string, Value>)
    ensures var o := StoredOutcome(book, id, customerId, fields);
            var stored := book.load(id);
      && (o.Fault? <==> Exists(stored) && OtherCustomer(stored, customerId))
      && (o.Fault? ==> o.code == BAD_REQUEST && o.message == INVALID_ADDRESS)
      && (!Exists(stored) ==> o == Done(fields))
      && (Exists(stored) && o.Done? ==>
            && Field(o.value, "save_in_address_book") == Int(0)
            && (forall k :: k != "save_in_address_book" ==> Field(o.value, k) == Field(book.importStored(fields, stored), k)))
  {
  }

  /** The stored-address branch of `updateResource`: load `id` and import it into the quote address. */
  method ImportStored(resource: DataObject, book: AddressBook, id: Value, customerId: Value) returns (o: Outcome<()>)
    modifies resource
    ensures var w := StoredOutcome(book, id, customerId, old(resource.data));
      && (w.Fault? ==> o == Fault(w.code, w.message) && resource.data == old(resource.data))
      && (w.Done? ==> o == Done(()) && resource.data == w.value)
    ensures resource.deleted == old(resource.deleted)
  {
    var stored := book.load(id);
    if Exists(stored) {
      if OtherCustomer(stored, customerId) {
        return Fault(BAD_REQUEST, INVALID_ADDRESS);
      }
      resource.data := book.importStored(resource.data, stored);
      resource.Set("save_in_address_book", Int(0));
    }
    o := Done(());
  }

  // PHP arrays with integer keys, as `(array)` and `array_filter` see them.

  /** A list as a PHP array: indexed "0", "1", … */
  function Indexed(items: seq<Value>): (r: Record)
    ensures |r| == |items|
    ensures forall i :: 0 <= i < |r| ==> r[i] == (IntText(i), items[i])
  {
    seq(|items|, i requires 0 <= i < |items| => (IntText(i), items[i]))
  }

  /** `(array)$v`: null is empty, an array is itself, a scalar is a one-entry list. */
  function ArrayCast(v: Value): Record {
    match v
    case Null => []
    case List(items) => Indexed(items)
    case Dict(fields) => fields
    case _ => [("0", v)]
  }

  /** A PHP array whose keys are "0" to n-1 in order is a list; any other is a dictionary. */
  predicate IsList(a: Record) {
    forall i :: 0 <= i < |a| ==> a[i].0 == IntText(i)
  }

  /** A PHP array as a value. */
  function ArrayValue(a: Record): Value {
    if IsList(a) then List(seq(|a|, i requires 0 <= i < |a| => a[i].1)) else Dict(a)
  }

  /** Turning an array into a value and back with `(array)` gives it back. */
  lemma ArrayRoundTrip(a: Record)
    ensures ArrayCast(ArrayValue(a)) == a
  {
  }

  /** `trim($v)` on one element: the trimmed text of a scalar; an array cannot be trimmed and gives null. */
  function TrimmedValue(loc: Locale, v: Value): Value {
    if v.List? || v.Dict? then Null else Str(Trim(ToText(loc, v)))
  }

  /** `array_filter(array_map('trim', $a))`: trim each entry and drop the empty ones, keeping keys and order. */
  function TrimFilter(loc: Locale, a: Record): Record {
    if |a| == 0 then []
    else
      var t := TrimmedValue(loc, a[0].1);
      if Truthy(t) then [(a[0].0, t)] + TrimFilter(loc, a[1..]) else TrimFilter(loc, a[1..])
  }

  /** The outbound validation_errors: `array_filter(array_map('trim', (array)$errors))`. */
  function CleanErrors(loc: Locale, v: Value): Value {
    ArrayValue(TrimFilter(loc, ArrayCast(v)))
  }

  /** An error message as it survives the cleaning: trimmed and neither "" nor "0". */
  predicate CleanMessage(v: Value) {
    v.Str? && Trim(v.s) == v.s && v.s != "" && v.s != "0"
  }

  /** The trimmed, filtered array is no longer than its input and keeps only clean messages. */
  lemma {:induction false} TrimFilterClean(loc: Locale, a: Record)
    ensures |TrimFilter(loc, a)| <= |a|
    ensures forall i :: 0 <= i < |TrimFilter(loc, a)| ==> CleanMessage(TrimFilter(loc, a)[i].1)
  {
    if |a| > 0 {
      var rest := TrimFilter(loc, a[1..]);
      TrimFilterClean(loc, a[1..]);
      var t := TrimmedValue(loc, a[0].1);
      var r := TrimFilter(loc, a);
      if Truthy(t) {
        TrimmedTruthyClean(loc, a[0].1);
        assert r == [(a[0].0, t)] + rest;
        forall i | 0 <= i < |r|
          ensures CleanMessage(r[i].1)
        {
          if i > 0 {
            assert r[i] == rest[i - 1];
          }
        }
      } else {
        assert r == rest;
      }
    }
  }

  /** A trimmed element that `array_filter` keeps is a clean message. */
  lemma TrimmedTruthyClean(loc: Locale, v: Value)
    requires Truthy(TrimmedValue(loc, v))
    ensures CleanMessage(TrimmedValue(loc, v))
  {
    var s := ToText(loc, v);
    TrimIdempotent(s);
    assert TrimmedValue(loc, v) == Str(Trim(s));
  }

  /** Every key the trimmed, filtered array holds is a key of its input. */
  lemma {:induction false} TrimFilterKeys(loc: Locale, a: Record)
    ensures forall i :: 0 <= i < |TrimFilter(loc, a)| ==> TrimFilter(loc, a)[i].0 in Keys(a)
  {
    if |a| > 0 {
      TrimFilterKeys(loc, a[1..]);
      assert forall k :: k in Keys(a[1..]) ==> k in Keys(a);
    }
  }

  /** An array of clean messages comes through trimming and filtering unchanged. */
  lemma {:induction false} TrimFilterKeepsClean(loc: Locale, a: Record)
    requires forall i :: 0 <= i < |a| ==> CleanMessage(a[i].1)
    ensures TrimFilter(loc, a) == a
  {
    if |a| > 0 {
      var rest := a[1..];
      TrimFilterKeepsClean(loc, rest);
      TrimmedClean(loc, a[0].1);
      assert a == [a[0]] + rest;
    }
  }

  lemma TrimmedClean(loc: Locale, v: Value)
    requires CleanMessage(v)
    ensures TrimmedValue(loc, v) == v && Truthy(v)
  {
    assert ToText(loc, v) == v.s;
    assert !IsEmpty(v);
  }

  /**
   * The outbound validation_errors hold only clean messages: trimmed
   * strings that are neither "" nor "0". Cleaning twice is cleaning once.
   */
  lemma CleanErrorsClean(loc: Locale, v: Value)
    ensures forall i :: 0 <= i < |ArrayCast(CleanErrors(loc, v))| ==> CleanMessage(ArrayCast(CleanErrors(loc, v))[i].1)
    ensures CleanErrors(loc, CleanErrors(loc, v)) == CleanErrors(loc, v)
  {
    var t := TrimFilter(loc, ArrayCast(v));
    TrimFilterClean(loc, ArrayCast(v));
    ArrayRoundTrip(t);
    TrimFilterKeepsClean(loc, t);
  }

  /** `setData('validation_errors', $errors)` with a list of messages. */
  function ErrorList(errors: seq<string>): (v: Value)
    ensures v.List? && |v.items| == |errors|
    ensures forall i :: 0 <= i < |errors| ==> v.items[i] == Str(errors[i])
  {
    List(seq(|errors|, i requires 0 <= i < |errors| => Str(errors[i])))
  }

  /** Error messages that are already clean are rendered back exactly as they were stored. */
  lemma ErrorListRendered(loc: Locale, errors: seq<string>)
    requires forall i :: 0 <= i < |errors| ==> Trim(errors[i]) == errors[i] && errors[i] != "" && errors[i] != "0"
    ensures CleanErrors(loc, ErrorList(errors)) == ErrorList(errors)
  {
    var v := ErrorList(errors);
    var a := Indexed(v.items);
    assert ArrayCast(v) == a;
    forall i | 0 <= i < |a| ensures CleanMessage(a[i].1) {
      assert a[i].1 == Str(errors[i]);
    }
    TrimFilterKeepsClean(loc, a);
    assert IsList(a);
    var items := seq(|a|, i requires 0 <= i < |a| => a[i].1);
    assert items == v.items;
    assert ArrayValue(a) == List(items);
  }

  /**
   * The shipping address delete: the address is deleted and, when it had
   * a shipping method, the quote gets a new shipping address that keeps
   * that method.
   */
  method DeleteKeepingMethod(quote: Quote)
    requires quote.Valid()
    modifies quote, quote.shipping
    ensures quote.Valid()
    ensures old(quote.shipping).deleted && old(quote.shipping).data == old(quote.shipping.data)
    ensures quote.data == old(quote.data) && quote.billing == old(quote.billing) && quote.payment == old(quote.payment)
    ensures quote.items == old(quote.items) && quote.isVirtual == old(quote.isVirtual)
    ensures quote.totalsCollectedFlag == old(quote.totalsCollectedFlag)
    ensures !Truthy(old(quote.shipping.Get("shipping_method"))) ==> quote.shipping == old(quote.shipping)
    ensures Truthy(old(quote.shipping.Get("shipping_method"))) ==>
              fresh(quote.shipping) && !quote.shipping.deleted
              && quote.shipping.data == map["address_type" := Str("shipping"), "shipping_method" := old(quote.shipping.Get("shipping_method"))]
  {
    var shippingMethod := quote.shipping.Get("shipping_method");
    quote.shipping.Delete();
    if Truthy(shippingMethod) {
      var address := new DataObject(map["address_type" := Str("shipping")]);
      address.Set("shipping_method", shippingMethod);
      quote.shipping := address;
    }
  }
}
