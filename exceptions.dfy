/** The JSON-RPC error taxonomy of the server: the six exception kinds of
    section 5.1 of the JSON-RPC 2.0 Specification, their default messages,
    and the objects an exception turns into on the wire. */
module Exceptions {
  import opened Json
  import opened Optional

  const PARSE_ERROR_CODE: int := -32700
  const INVALID_REQUEST_CODE: int := -32600
  const METHOD_NOT_FOUND_CODE: int := -32601
  const INVALID_PARAMS_CODE: int := -32602
  const INTERNAL_ERROR_CODE: int := -32603
  const SERVER_ERROR_CODE: int := -32000

  // Default messages, as the library documents them (the parse-error text
  // is the same as the invalid-params one).
  const PARSE_ERROR_MESSAGE: string := "Invalid params"
  const INVALID_REQUEST_MESSAGE: string := "Invalid request"
  const METHOD_NOT_FOUND_MESSAGE: string := "Method not found"
  const INVALID_PARAMS_MESSAGE: string := "Invalid params"
  const INTERNAL_ERROR_MESSAGE: string := "RPC error"
  const SERVER_ERROR_MESSAGE: string := "Server error"

  datatype Kind = ParseError | InvalidRequest | MethodNotFound | InvalidParams | InternalError | ServerError

  function CodeOf(kind: Kind): int {
    match kind
    case ParseError => PARSE_ERROR_CODE
    case InvalidRequest => INVALID_REQUEST_CODE
    case MethodNotFound => METHOD_NOT_FOUND_CODE
    case InvalidParams => INVALID_PARAMS_CODE
    case InternalError => INTERNAL_ERROR_CODE
    case ServerError => SERVER_ERROR_CODE
  }

  /** The kind an error code belongs to, if any. */
  function KindOfCode(code: int): (k: Option<Kind>)
    ensures k.Some? ==> CodeOf(k.value) == code
  {
    if code == PARSE_ERROR_CODE then Some(ParseError)
    else if code == INVALID_REQUEST_CODE then Some(InvalidRequest)
    else if code == METHOD_NOT_FOUND_CODE then Some(MethodNotFound)
    else if code == INVALID_PARAMS_CODE then Some(InvalidParams)
    else if code == INTERNAL_ERROR_CODE then Some(InternalError)
    else if code == SERVER_ERROR_CODE then Some(ServerError)
    else None
  }

  /** The six codes are distinct: the code of an exception names its kind. */
  lemma KindOfCodeOf(kind: Kind)
    ensures KindOfCode(CodeOf(kind)) == Some(kind)
  {
  }

  /** A JRPC exception: an error with a fixed code, a message and optional
      data (`Undefined` when absent). */
  datatype JrpcException = JrpcException(code: int, message: string, data: Value)

  /** What a failing call throws: one of the server's exceptions, or any
      other JavaScript value. */
  datatype Thrown = Typed(ex: JrpcException) | Plain(v: Value)

  /** The `error` member of a response object. `data` is `Undefined` (left
      out of the JSON text) or the string form of the exception's data. */
  datatype ErrorObject = ErrorObject(code: int, message: string, data: Value)

  /** A JSON-RPC response object. A success copies `id` and `jsonrpc` from
      the request as they were; an error response always says "2.0". */
  datatype Response =
    | Success(id: Value, jsonrpc: Value, result: Value)
    | Failure(id: Value, jsonrpc: Value, error: ErrorObject)

  function ParseErrorException(data: Value, message: Option<string>): (e: JrpcException)
    ensures e.code == -32700 && KindOfCode(e.code) == Some(ParseError)
    ensures message.None? ==> e.message == PARSE_ERROR_MESSAGE
    ensures message.Some? ==> e.message == message.value
    ensures e.data == data
  {
    JrpcException(PARSE_ERROR_CODE, OrElse(message, PARSE_ERROR_MESSAGE), data)
  }

  function InvalidRequestException(data: Value, message: Option<string>): (e: JrpcException)
    ensures e.code == -32600 && KindOfCode(e.code) == Some(InvalidRequest)
    ensures message.None? ==> e.message == INVALID_REQUEST_MESSAGE
    ensures message.Some? ==> e.message == message.value
    ensures e.data == data
  {
    JrpcException(INVALID_REQUEST_CODE, OrElse(message, INVALID_REQUEST_MESSAGE), data)
  }

  function MethodNotFoundException(data: Value, message: Option<string>): (e: JrpcException)
    ensures e.code == -32601 && KindOfCode(e.code) == Some(MethodNotFound)
    ensures message.None? ==> e.message == METHOD_NOT_FOUND_MESSAGE
    ensures message.Some? ==> e.message == message.value
    ensures e.data == data
  {
    JrpcException(METHOD_NOT_FOUND_CODE, OrElse(message, METHOD_NOT_FOUND_MESSAGE), data)
  }

  function InvalidParamsException(data: Value, message: Option<string>): (e: JrpcException)
    ensures e.code == -32602 && KindOfCode(e.code) == Some(InvalidParams)
    ensures message.None? ==> e.message == INVALID_PARAMS_MESSAGE
    ensures message.Some? ==> e.message == message.value
    ensures e.data == data
  {
    JrpcException(INVALID_PARAMS_CODE, OrElse(message, INVALID_PARAMS_MESSAGE), data)
  }

  function InternalErrorException(data: Value, message: Option<string>): (e: JrpcException)
    ensures e.code == -32603 && KindOfCode(e.code) == Some(InternalError)
    ensures message.None? ==> e.message == INTERNAL_ERROR_MESSAGE
    ensures message.Some? ==> e.message == message.value
    ensures e.data == data
  {
    JrpcException(INTERNAL_ERROR_CODE, OrElse(message, INTERNAL_ERROR_MESSAGE), data)
  }

  function ServerErrorException(data: Value, message: Option<string>): (e: JrpcException)
    ensures e.code == -32000 && KindOfCode(e.code) == Some(ServerError)
    ensures message.None? ==> e.message == SERVER_ERROR_MESSAGE
    ensures message.Some? ==> e.message == message.value
    ensures e.data == data
  {
    JrpcException(SERVER_ERROR_CODE, OrElse(message, SERVER_ERROR_MESSAGE), data)
  }

  /** `toObject()`: code and message as they are; data as its string form,
      and left out when the exception carries none. */
  function ToObject(e: JrpcException): (r: ErrorObject)
    ensures r.code == e.code && r.message == e.message
    ensures r.data.Undefined? <==> IsNullish(e.data)
    ensures !IsNullish(e.data) ==> r.data == Str(JsString(e.data))
  {
    ErrorObject(e.code, e.message, OptionalToString(e.data))
  }

  /** `toResponseObj(id)`: an error response for the request `id`; a
      missing id becomes `null`. */
  function ToResponseObj(e: JrpcException, id: Value): (r: Response)
    ensures r.Failure? && r.jsonrpc == Str("2.0") && r.error == ToObject(e)
    ensures id.Undefined? ==> r.id == Null
    ensures !id.Undefined? ==> r.id == id
  {
    Failure(if id.Undefined? then Null else id, Str("2.0"), ToObject(e))
  }

  /** The JSON value of an error object, as `JSON.stringify` sees it. */
  function ErrorObjectValue(o: ErrorObject): (v: Value)
    ensures v.Obj? && v.fields.Keys == if o.data.Undefined? then {"code", "message"} else {"code", "message", "data"}
    ensures v.fields["code"] == Num(o.code) && v.fields["message"] == Str(o.message)
    ensures !o.data.Undefined? ==> v.fields["data"] == o.data
  {
    var base := map["code" := Num(o.code), "message" := Str(o.message)];
    Obj(if o.data.Undefined? then base else base["data" := o.data])
  }

  /** `toJSON()`: the JSON text of `toObject()`. `JSON.stringify` is not
      part of this model and is supplied by the caller. */
  function ToJson(e: JrpcException, stringify: Value -> string): (s: string)
    ensures IsNullish(e.data) ==>
              s == stringify(Obj(map["code" := Num(e.code), "message" := Str(e.message)]))
    ensures !IsNullish(e.data) ==>
              s == stringify(Obj(map["code" := Num(e.code), "message" := Str(e.message), "data" := Str(JsString(e.data))]))
  {
    stringify(ErrorObjectValue(ToObject(e)))
  }

  /** The data part of `toString()`: nothing for falsy data, otherwise
      "data " and the JSON text of an object or array, or the string form
      of any other value. */
  function DataText(data: Value, stringify: Value -> string): (s: string)
    ensures !Truthy(data) <==> s == ""
    ensures Truthy(data) ==> |s| >= 5 && s[..5] == "data "
    ensures Truthy(data) && TypeofObject(data) ==> s[5..] == stringify(data)
    ensures Truthy(data) && !TypeofObject(data) ==> s[5..] == JsString(data)
  {
    if !Truthy(data) then ""
    else if TypeofObject(data) then "data " + stringify(data)
    else "data " + JsString(data)
  }

  const TO_STRING_PREFIX: string := "RPC Error: Code "

  /** `toString()`: "RPC Error: Code <code> <message>" followed directly
      (no separator) by the data part. */
  function ExceptionToString(e: JrpcException, stringify: Value -> string): (s: string)
    ensures |s| > |TO_STRING_PREFIX| && s[..|TO_STRING_PREFIX|] == TO_STRING_PREFIX
    ensures !Truthy(e.data) ==> s == TO_STRING_PREFIX + IntToString(e.code) + " " + e.message
  {
    TO_STRING_PREFIX + IntToString(e.code) + " " + e.message + DataText(e.data, stringify)
  }

  /** The text up to the first space. */
  function UpToSpace(s: string): string {
    if s == [] || s[0] == ' ' then [] else [s[0]] + UpToSpace(s[1..])
  }

  lemma {:induction false} UpToSpaceOfToken(t: string, rest: string)
    requires ' ' !in t
    ensures UpToSpace(t + " " + rest) == t
  {
    var s := t + " " + rest;
    if t == [] {
      assert s[0] == ' ';
    } else {
      assert s[0] == t[0];
      assert s[1..] == t[1..] + " " + rest;
      UpToSpaceOfToken(t[1..], rest);
    }
  }

  lemma IntToStringHasNoSpace(i: int)
    ensures ' ' !in IntToString(i)
  {
    var d := if i < 0 then NatToString(-i) else NatToString(i);
    assert AllDigits(d);
    assert forall k :: 0 <= k < |d| ==> d[k] != ' ';
    if i < 0 {
      assert IntToString(i) == "-" + d;
    }
  }

  /** What follows the fixed prefix of `toString()`: the code, a space and
      the rest. */
  lemma AfterToStringPrefix(e: JrpcException, stringify: Value -> string)
    ensures ExceptionToString(e, stringify)[|TO_STRING_PREFIX|..]
            == IntToString(e.code) + " " + (e.message + DataText(e.data, stringify))
  {
    DropPrefix(TO_STRING_PREFIX, IntToString(e.code), " ", e.message, DataText(e.data, stringify));
  }

  lemma DropPrefix<T>(p: seq<T>, a: seq<T>, b: seq<T>, c: seq<T>, d: seq<T>)
    ensures (p + a + b + c + d)[|p|..] == a + b + (c + d)
  {
    assert p + a + b + c + d == p + (a + b + (c + d));
  }

  /** `toString()` keeps the code readable: two exceptions with the same
      text have the same code, whatever their messages and data. */
  lemma ToStringDeterminesCode(e1: JrpcException, e2: JrpcException, stringify: Value -> string)
    requires ExceptionToString(e1, stringify) == ExceptionToString(e2, stringify)
    ensures e1.code == e2.code
  {
    AfterToStringPrefix(e1, stringify);
    AfterToStringPrefix(e2, stringify);
    IntToStringHasNoSpace(e1.code);
    IntToStringHasNoSpace(e2.code);
    UpToSpaceOfToken(IntToString(e1.code), e1.message + DataText(e1.data, stringify));
    UpToSpaceOfToken(IntToString(e2.code), e2.message + DataText(e2.data, stringify));
    IntToStringInjective(e1.code, e2.code);
  }
}
