/** The JSON-RPC adapter of the older API: request checking and the
    conversion of handler results into response objects. */
module LegacyJsonRpc {
  import opened Json
  import opened Optional
  import opened Exceptions
  import opened Validator
  import opened LegacyErrors

  /** How `checkRequest(data)` settles: with the list of requests, with an
      `RpcError`, or with the TypeError `Object.keys` throws on `null` or
      `undefined`. */
  datatype CheckOutcome = Accepted(requests: seq<Value>) | Refused(error: LegacyError) | NotAnObject

  /** The error every refused request gets: invalid params, not invalid
      request. */
  const MISSING_KEYS_ERROR: LegacyError :=
    FromJson(RpcErrorJson(Some(RpcErrorCode(INVALID_PARAMS)), Some(RpcErrorMessage(INVALID_PARAMS)), Undefined, None))

  /** `checkKeys(item)`: `None` when the item passes, otherwise how the
      call fails. It passes exactly when the item is an object with own
      keys "method", "params" and "jsonrpc" and `jsonrpc` is "2.0". */
  function CheckKeys(item: Value): (r: Option<CheckOutcome>)
    ensures r.None? <==> WellFormed(item)
    ensures IsNullish(item) ==> r == Some(NotAnObject)
    ensures !IsNullish(item) && !WellFormed(item) ==> r == Some(Refused(MISSING_KEYS_ERROR))
  {
    if IsNullish(item) then Some(NotAnObject)
    else if HasKey(item, "method") && HasKey(item, "params") && HasKey(item, "jsonrpc")
            && Get(item, "jsonrpc") == Str("2.0") then None
    else Some(Refused(MISSING_KEYS_ERROR))
  }

  /** An item the current validator refuses as an invalid request is
      refused here with the invalid-params code instead. */
  lemma MissingKeysCodeDiffers(item: Value, paramType: ParamType)
    requires !IsNullish(item) && !WellFormed(item)
    ensures CheckKeys(item) == Some(Refused(MISSING_KEYS_ERROR))
    ensures MISSING_KEYS_ERROR.code == INVALID_PARAMS_CODE
    ensures Validate(item, paramType).Invalid? && Validate(item, paramType).ex.code == INVALID_REQUEST_CODE
  {
  }

  /** `checkRequest(data)`: an array is checked item by item and the first
      failing item decides the outcome; an array whose items all pass
      (the empty one included) is returned as it is, and a single item
      that passes comes back as a one-element list. */
  method CheckRequest(data: Value) returns (out: CheckOutcome)
    ensures data.Arr? ==>
              (out.Accepted? <==> forall i :: 0 <= i < |data.items| ==> WellFormed(data.items[i]))
    ensures data.Arr? && out.Accepted? ==> out.requests == data.items
    ensures data.Arr? && !out.Accepted? ==>
              exists k :: 0 <= k < |data.items| && CheckKeys(data.items[k]) == Some(out)
                          && forall j :: 0 <= j < k ==> WellFormed(data.items[j])
    ensures !data.Arr? && WellFormed(data) ==> out == Accepted([data])
    ensures !data.Arr? && !WellFormed(data) ==> Some(out) == CheckKeys(data)
  {
    if data.Arr? {
      var i := 0;
      while i < |data.items|
        invariant 0 <= i <= |data.items|
        invariant forall j :: 0 <= j < i ==> WellFormed(data.items[j])
      {
        var check := CheckKeys(data.items[i]);
        if check.Some? {
          return check.value;
        }
        i := i + 1;
      }
      return Accepted(data.items);
    }
    var check := CheckKeys(data);
    if check.Some? {
      return check.value;
    }
    return Accepted([data]);
  }

  /** The `error` member of a response of the older API. */
  datatype ErrorInline = ErrorInline(code: Option<int>, message: string, data: Option<ErrorInline>, stack: Option<string>)

  /** `convertErr(e)`: the message of any error; the code of an
      `RpcError` with its parent converted into `data`; the stack of any
      other error when it is not empty. */
  function ConvertErr(e: LegacyError): (r: ErrorInline)
    ensures r.message == e.message
    ensures e.RpcError? ==> r.code == Some(e.code) && r.stack.None? && (r.data.Some? <==> e.parent.Some?)
    ensures e.PlainError? ==> r.code.None? && r.data.None? && (r.stack.Some? <==> e.stack != "")
    ensures e.PlainError? && e.stack != "" ==> r.stack == Some(e.stack)
  {
    match e
    case RpcError(code, message, _, parent, _) =>
      ErrorInline(Some(code), message, if parent.Some? then Some(ConvertErr(parent.value)) else None, None)
    case PlainError(message, stack) =>
      ErrorInline(None, message, None, if stack != "" then Some(stack) else None)
  }

  /** The messages along an error's parent chain, outermost first. */
  function ChainMessages(e: LegacyError): (ms: seq<string>)
    ensures |ms| >= 1 && ms[0] == e.message
  {
    if e.RpcError? && e.parent.Some? then [e.message] + ChainMessages(e.parent.value) else [e.message]
  }

  /** The messages along an inline error's nested `data`, outermost
      first. */
  function InlineMessages(r: ErrorInline): (ms: seq<string>)
    ensures |ms| >= 1 && ms[0] == r.message
  {
    if r.data.Some? then [r.message] + InlineMessages(r.data.value) else [r.message]
  }

  /** `convertErr` keeps the whole parent chain, in order, one nesting
      level per parent. */
  lemma {:induction false} ConvertErrKeepsChain(e: LegacyError)
    ensures InlineMessages(ConvertErr(e)) == ChainMessages(e)
  {
    if e.RpcError? && e.parent.Some? {
      ConvertErrKeepsChain(e.parent.value);
    }
  }

  /** What handlers produced for one request: the request (if known) and
      its result or the error it failed with. A result may itself be an
      `Error` instance. */
  datatype Datum = Failed(error: LegacyError) | Result(value: Value)
  datatype ConvertItem = ConvertItem(request: Value, data: Datum)

  /** `data instanceof Error`: the error an item's data is, if it is one —
      the failure, or a result value that is an `Error` instance. */
  function DataError(d: Datum): (e: Option<LegacyError>)
    ensures d.Failed? ==> e == Some(d.error)
    ensures d.Result? ==> (e.Some? <==> d.value.ErrorObj?)
    ensures d.Result? && d.value.ErrorObj? ==> e == Some(PlainError(d.value.message, d.value.stack))
  {
    match d
    case Failed(err) => Some(err)
    case Result(v) => if v.ErrorObj? then Some(PlainError(v.message, v.stack)) else None
  }

  /** A response of the older API. */
  datatype LegacyResponse =
    | LegacySuccess(id: Value, jsonrpc: Value, result: Value)
    | LegacyFailure(id: Value, jsonrpc: Value, error: ErrorInline)

  /** The id of a response: the request's id when the request and its id
      are truthy, otherwise `null` (so an id of 0 becomes `null`). */
  function ResponseId(request: Value): (id: Value)
    ensures Truthy(request) && Truthy(Get(request, "id")) ==> id == Get(request, "id")
    ensures !(Truthy(request) && Truthy(Get(request, "id"))) ==> id == Null
    ensures id != Num(0)
  {
    if Truthy(request) && Truthy(Get(request, "id")) then Get(request, "id") else Null
  }

  /** The jsonrpc member of a response: the request's when truthy,
      otherwise "2.0". */
  function ResponseJsonrpc(request: Value): (v: Value)
    ensures Truthy(request) && Truthy(Get(request, "jsonrpc")) ==> v == Get(request, "jsonrpc")
    ensures !(Truthy(request) && Truthy(Get(request, "jsonrpc"))) ==> v == Str("2.0")
    ensures Truthy(v)
  {
    if Truthy(request) && Truthy(Get(request, "jsonrpc")) then Get(request, "jsonrpc") else Str("2.0")
  }

  /** A request with id 0 is answered with a `null` id. */
  lemma ZeroIdBecomesNull(fields: map<string, Value>)
    requires "id" in fields && fields["id"] == Num(0)
    ensures ResponseId(Obj(fields)) == Null
  {
  }

  /** The internal error that replaces a failure that is not an
      `RpcError`, keeping the original as its parent. */
  function Promoted(e: LegacyError): (p: LegacyError)
    ensures p.RpcError? && p.code == RpcErrorCode(INTERNAL_ERROR) && p.message == RpcErrorMessage(INTERNAL_ERROR)
    ensures p.parent == Some(e) && p.data == Undefined
  {
    FromJson(RpcErrorJson(Some(RpcErrorCode(INTERNAL_ERROR)), Some(RpcErrorMessage(INTERNAL_ERROR)), Undefined, Some(e)))
  }

  /** `convert(data)`: one response per item, in order. Data that is an
      `Error` gives an error response, any other data a success. An error
      that is not an `RpcError` is first replaced, in the caller's item, by
      an internal error whose parent it becomes. */
  method Convert(items: array<ConvertItem>) returns (out: seq<LegacyResponse>)
    modifies items
    ensures |out| == items.Length
    ensures forall i :: 0 <= i < items.Length ==>
              out[i].id == ResponseId(old(items[i]).request) && out[i].jsonrpc == ResponseJsonrpc(old(items[i]).request)
    ensures forall i :: 0 <= i < items.Length && DataError(old(items[i]).data).None? ==>
              items[i] == old(items[i]) && out[i].LegacySuccess? && out[i].result == old(items[i]).data.value
    ensures forall i :: 0 <= i < items.Length && DataError(old(items[i]).data).Some? && DataError(old(items[i]).data).value.RpcError? ==>
              items[i] == old(items[i]) && out[i].LegacyFailure? && out[i].error == ConvertErr(DataError(old(items[i]).data).value)
    ensures forall i :: 0 <= i < items.Length && DataError(old(items[i]).data).Some? && DataError(old(items[i]).data).value.PlainError? ==>
              items[i] == old(items[i]).(data := Failed(Promoted(DataError(old(items[i]).data).value)))
              && out[i].LegacyFailure? && out[i].error == ConvertErr(Promoted(DataError(old(items[i]).data).value))
  {
    out := [];
    var i := 0;
    while i < items.Length
      invariant 0 <= i <= items.Length && |out| == i
      invariant forall j :: i <= j < items.Length ==> items[j] == old(items[j])
      invariant forall j :: 0 <= j < i ==>
                  out[j].id == ResponseId(old(items[j]).request) && out[j].jsonrpc == ResponseJsonrpc(old(items[j]).request)
      invariant forall j :: 0 <= j < i && DataError(old(items[j]).data).None? ==>
                  items[j] == old(items[j]) && out[j].LegacySuccess? && out[j].result == old(items[j]).data.value
      invariant forall j :: 0 <= j < i && DataError(old(items[j]).data).Some? && DataError(old(items[j]).data).value.RpcError? ==>
                  items[j] == old(items[j]) && out[j].LegacyFailure? && out[j].error == ConvertErr(DataError(old(items[j]).data).value)
      invariant forall j :: 0 <= j < i && DataError(old(items[j]).data).Some? && DataError(old(items[j]).data).value.PlainError? ==>
                  items[j] == old(items[j]).(data := Failed(Promoted(DataError(old(items[j]).data).value)))
                  && out[j].LegacyFailure? && out[j].error == ConvertErr(Promoted(DataError(old(items[j]).data).value))
    {
      var item := items[i];
      var id := ResponseId(item.request);
      var jsonrpc := ResponseJsonrpc(item.request);
      var err := DataError(item.data);
      if err.Some? {
        var e := err.value;
        if !e.RpcError? {
          e := Promoted(e);
          item := item.(data := Failed(e));
          items[i] := item;
        }
        out := out + [LegacyFailure(id, jsonrpc, ConvertErr(e))];
      } else {
        out := out + [LegacySuccess(id, jsonrpc, item.data.value)];
      }
      i := i + 1;
    }
  }

  /** A handler value that is an `Error` is answered as an internal error
      whose nested data is that error's message and stack. */
  lemma ErrorResultAnsweredAsError(message: string, stack: string)
    requires stack != ""
    ensures var e := DataError(Result(ErrorObj("Error", message, stack)));
            e == Some(PlainError(message, stack))
            && ConvertErr(Promoted(e.value))
               == ErrorInline(Some(RpcErrorCode(INTERNAL_ERROR)), RpcErrorMessage(INTERNAL_ERROR),
                              Some(ErrorInline(None, message, None, Some(stack))), None)
  {
  }
}
