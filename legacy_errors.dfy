/** The error class of the older API: `RpcError`, with its own code,
    message and HTTP status tables, and its JSON form. */
module LegacyErrors {
  import opened Json
  import opened Optional
  import HttpStatus

  /** The names the three tables of the older API are keyed by. */
  datatype RpcErrorName = PARSE_ERROR | INVALID_REQUEST | METHOD_NOT_FOUND | INVALID_PARAMS | INTERNAL_ERROR | SERVER_ERROR

  /** `RpcErrorCode`: the codes of section 5.1 of the JSON-RPC 2.0
      Specification. */
  function RpcErrorCode(n: RpcErrorName): (code: int)
    ensures n == SERVER_ERROR <==> code == -32000
    ensures -32700 <= code <= -32000
  {
    match n
    case PARSE_ERROR => -32700
    case INVALID_REQUEST => -32600
    case METHOD_NOT_FOUND => -32601
    case INVALID_PARAMS => -32602
    case INTERNAL_ERROR => -32603
    case SERVER_ERROR => -32000
  }

  /** No two names share a code. */
  lemma RpcErrorCodeInjective(a: RpcErrorName, b: RpcErrorName)
    ensures RpcErrorCode(a) == RpcErrorCode(b) ==> a == b
  {
  }

  /** `RpcErrorMessage`, spelling included. */
  function RpcErrorMessage(n: RpcErrorName): (message: string)
    ensures n == METHOD_NOT_FOUND ==> message == "Methot not found"
    ensures n == INTERNAL_ERROR ==> message == "RPC error"
  {
    match n
    case PARSE_ERROR => "Invalid params"
    case INVALID_REQUEST => "Invalid request"
    case METHOD_NOT_FOUND => "Methot not found"
    case INVALID_PARAMS => "Invalid params"
    case INTERNAL_ERROR => "RPC error"
    case SERVER_ERROR => "Server error"
  }

  /** `RpcErrorHttpCode`. */
  function RpcErrorHttpCode(n: RpcErrorName): (status: int)
    ensures n == INVALID_REQUEST <==> status == 400
    ensures n == METHOD_NOT_FOUND <==> status == 404
    ensures status in {400, 404, 500}
  {
    match n
    case PARSE_ERROR => 500
    case INVALID_REQUEST => 400
    case METHOD_NOT_FOUND => 404
    case INVALID_PARAMS => 500
    case INTERNAL_ERROR => 500
    case SERVER_ERROR => 500
  }

  /** An error of the older API: an `RpcError`, or any other `Error` with
      its message and stack text. */
  datatype LegacyError =
    | RpcError(code: int, message: string, data: Value, parent: Option<LegacyError>, httpStatusCode: int)
    | PlainError(message: string, stack: string)

  /** The status the constructor's switch sets: 400 and 404 for the two
      codes it names, 500 for every other code. */
  function StatusForCode(code: int): (status: int)
    ensures code == RpcErrorCode(INVALID_REQUEST) <==> status == 400
    ensures code == RpcErrorCode(METHOD_NOT_FOUND) <==> status == 404
    ensures status in {400, 404, 500}
  {
    if code == -32600 then 400
    else if code == -32601 then 404
    else 500
  }

  /** `new RpcError(code?, message?, data?, parent?)`: code and message
      default to the internal error's. */
  function NewRpcError(code: Option<int>, message: Option<string>, data: Value, parent: Option<LegacyError>): (e: LegacyError)
    ensures e.RpcError?
    ensures code.None? ==> e.code == RpcErrorCode(INTERNAL_ERROR)
    ensures code.Some? ==> e.code == code.value
    ensures message.None? ==> e.message == RpcErrorMessage(INTERNAL_ERROR)
    ensures message.Some? ==> e.message == message.value
    ensures e.data == data && e.parent == parent
    ensures e.httpStatusCode == StatusForCode(e.code)
  {
    var c := OrElse(code, RpcErrorCode(INTERNAL_ERROR));
    RpcError(c, OrElse(message, RpcErrorMessage(INTERNAL_ERROR)), data, parent, StatusForCode(c))
  }

  /** For every named code, the constructor's status agrees with the
      `RpcErrorHttpCode` table. */
  lemma StatusAgreesWithTable(n: RpcErrorName)
    ensures StatusForCode(RpcErrorCode(n)) == RpcErrorHttpCode(n)
  {
  }

  /** The older table and the current helper disagree on two codes: an
      invalid request is 400 here and 405 there, a parse error 500 here
      and 400 there. */
  lemma StatusTablesDiffer()
    ensures RpcErrorHttpCode(INVALID_REQUEST) == 400 && HttpStatus.StatusOf(RpcErrorCode(INVALID_REQUEST)) == 405
    ensures RpcErrorHttpCode(PARSE_ERROR) == 500 && HttpStatus.StatusOf(RpcErrorCode(PARSE_ERROR)) == 400
  {
  }

  /** An `RpcError` as its constructor leaves it. */
  predicate Constructed(e: LegacyError) {
    e.RpcError? ==> e.httpStatusCode == StatusForCode(e.code)
  }

  /** The `RpcErrorJson` shape: what `toJSON` gives and `fromJSON` takes. */
  datatype RpcErrorJson = RpcErrorJson(code: Option<int>, message: Option<string>, data: Value, parent: Option<LegacyError>)

  /** `RpcError.fromJSON(json)`. */
  function FromJson(json: RpcErrorJson): (e: LegacyError)
    ensures e.RpcError? && Constructed(e)
    ensures e.data == json.data && e.parent == json.parent
    ensures json.code.Some? ==> e.code == json.code.value
    ensures json.message.Some? ==> e.message == json.message.value
  {
    NewRpcError(json.code, json.message, json.data, json.parent)
  }

  /** `toJSON()`: exactly code, data, parent and message. */
  function ToJson(e: LegacyError): (json: RpcErrorJson)
    requires e.RpcError?
    ensures json.code == Some(e.code) && json.message == Some(e.message)
    ensures json.data == e.data && json.parent == e.parent
  {
    RpcErrorJson(Some(e.code), Some(e.message), e.data, e.parent)
  }

  /** `fromJSON(e.toJSON())` rebuilds `e`. */
  lemma FromJsonToJson(e: LegacyError)
    requires e.RpcError? && Constructed(e)
    ensures FromJson(ToJson(e)) == e
  {
  }

  /** `fromJSON(json).toJSON()` gives `json` back, the defaults filled in. */
  lemma ToJsonFromJson(json: RpcErrorJson)
    ensures ToJson(FromJson(json))
            == json.(code := Some(OrElse(json.code, RpcErrorCode(INTERNAL_ERROR))),
                     message := Some(OrElse(json.message, RpcErrorMessage(INTERNAL_ERROR))))
  {
  }
}
