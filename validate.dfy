/**
 * Model/Validate.php: POST to the validate resource runs the quote
 * validation, saves the quote whatever the outcome, and answers with a
 * status envelope, 200 on success and 422 otherwise.
 */
module Validate {
  import opened Wrappers
  import opened Values
  import opened KeySort
  import opened Projection
  import opened Objects
  import opened QuoteSync
  import opened Resource
  import opened QuoteValidation

  /**
   * The error map as the array it is rendered as: each key holds its list of
   * messages. No errors is the empty PHP array, which is the empty list, as
   * `ArrayValue` renders it.
   */
  function ErrorsValue(errors: Assoc<seq<string>>): (v: Value)
    ensures |errors| == 0 <==> v == List([])
    ensures |errors| > 0 ==> v.Dict? && |v.fields| == |errors|
    ensures |errors| > 0 ==> forall i :: 0 <= i < |errors| ==> v.fields[i].0 == errors[i].0 && v.fields[i].1.List?
  {
    if |errors| == 0 then List([])
    else Dict(seq(|errors|, i requires 0 <= i < |errors| => (errors[i].0, List(seq(|errors[i].1|, j requires 0 <= j < |errors[i].1| => Str(errors[i].1[j]))))))
  }

  /** `new Varien_Object(['status' => ..., 'errors' => $errors])`. */
  function Envelope(errors: Assoc<seq<string>>): Record {
    [("status", Str(if |errors| == 0 then "success" else "error")), ("errors", ErrorsValue(errors))]
  }

  /**
   * The rendered result of `validateQuote`: filtered, null-filled and
   * key-sorted. The resource's `attributeTypeMap` is empty, so `fixTypes`
   * leaves the data as it is.
   */
  function ValidateResponse(errors: Assoc<seq<string>>, readable: set<string>, requested: seq<string>): Record {
    Finish(Out(Envelope(errors), readable), requested)
  }

  /**
   * The envelope as rendered: status is 'success' iff there are no errors,
   * 'error' otherwise, and the errors are always included, as far as the
   * filter lets each key through; every requested key is present and the
   * keys are sorted.
   */
  lemma ValidateResponseShape(errors: Assoc<seq<string>>, readable: set<string>, requested: seq<string>)
    ensures var r := ValidateResponse(errors, readable, requested);
      && SortedKeys(r)
      && (forall c :: c in requested ==> HasKey(r, c))
      && ("status" in readable ==> Lookup(r, "status") == Some(Str(if |errors| == 0 then "success" else "error")))
      && ("errors" in readable ==> Lookup(r, "errors") == Some(ErrorsValue(errors)))
      && (forall k :: HasKey(r, k) ==> k in requested || (k in readable && (k == "status" || k == "errors")))
  {
    var d := Out(Envelope(errors), readable);
    assert DistinctKeys(Envelope(errors));
    OutDistinct(Envelope(errors), readable);
    FinishShape(d, requested);
  }

  /** The response code `dispatch` chooses from the rendered data: `$data['status'] === 'success'`. */
  function ResponseCode(data: Record): (code: int)
    ensures code == OK || code == UNPROCESSABLE
    ensures code == OK <==> Lookup(data, "status") == Some(Str("success"))
  {
    if Lookup(data, "status") == Some(Str("success")) then OK else UNPROCESSABLE
  }

  /** When the filter lets 'status' through, the code is 200 exactly when the quote has no errors. */
  lemma ResponseCodeMeaning(errors: Assoc<seq<string>>, readable: set<string>, requested: seq<string>)
    ensures "status" in readable ==> (ResponseCode(ValidateResponse(errors, readable, requested)) == OK <==> |errors| == 0)
    ensures "status" !in readable ==> ResponseCode(ValidateResponse(errors, readable, requested)) == UNPROCESSABLE
  {
    ValidateResponseShape(errors, readable, requested);
    var r := ValidateResponse(errors, readable, requested);
    if "status" !in readable && Lookup(r, "status").Some? {
      var d := Out(Envelope(errors), readable);
      OutDistinct(Envelope(errors), readable);
      FinishShape(d, requested);
      assert Lookup(d, "status") == None;
    }
  }

  /**
   * `dispatch()`: entity create loads the quote, validates it, saves it and
   * answers with the rendered envelope and its code; anything else is 405
   * (the quote is loaded first either way).
   */
  method Dispatch(state: ResourceState, session: Quote, checks: Checks, readable: set<string>, requested: seq<string>,
                  collect: map<string, Value> -> map<string, Value>)
    returns (o: Outcome<(int, Record)>, errors: Assoc<seq<string>>)
    requires session.Valid()
    requires state.quote == null || state.quote == session
    modifies state, session, session.billing, session.shipping
    ensures state.actionType == old(state.actionType) && state.operation == old(state.operation)
    ensures session.isVirtual == old(session.isVirtual)
    ensures var loaded := AfterLoad(old(state.quote) != null, old(session.data), old(session.billing.data));
      && (state.actionType + state.operation != ENTITY + CREATE ==>
            && o == NotAllowed()
            && session.data == loaded.0 && session.billing.data == loaded.1 && session.shipping.data == old(session.shipping.data))
      && (state.actionType + state.operation == ENTITY + CREATE ==>
            var shipping := ShippingForValidation(checks, session.isVirtual, old(session.shipping.data), loaded.1);
            && o.Done? && o.value.1 == ValidateResponse(errors, readable, requested)
            && o.value.0 == ResponseCode(o.value.1)
            && errors == QuoteErrors(checks, session.isVirtual, shipping, loaded.1, old(session.payment.data))
            && (session.data, session.billing.data) == SavedQuote(true, old(session.totalsCollectedFlag), collect, loaded.0, loaded.1)
            && session.totalsCollectedFlag
            && session.shipping.data == shipping["collect_shipping_rates" := Bool(true)])
  {
    errors := [];
    var quote := LoadQuote(state, session, false);
    if state.actionType + state.operation == ENTITY + CREATE {
      errors := ValidateQuote(quote, checks);
      var data := ValidateResponse(errors, readable, requested);
      var _ := SaveQuote(state, session, collect);
      o := Done((ResponseCode(data), data));
    } else {
      o := NotAllowed();
    }
  }
}
