/** The default request validator of the router: the envelope check and the
    params-style check of a single request object. */
module Validator {
  import opened Json
  import opened Optional
  import opened Exceptions

  /** The params style the router is configured for. */
  datatype ParamType = ArrayParams | ObjectParams

  /** The validator's answer. `Crashed` is the TypeError `Object.keys`
      throws when the request is `null` or `undefined`. */
  datatype Validation = Valid | Invalid(ex: JrpcException) | Crashed

  /** The envelope of section 4 of the JSON-RPC 2.0 Specification as the
      server checks it: own keys "method", "params" and "jsonrpc" are
      present, and "jsonrpc" is exactly the string "2.0". */
  predicate WellFormed(body: Value) {
    HasKey(body, "method") && HasKey(body, "params") && HasKey(body, "jsonrpc")
    && body.fields["jsonrpc"] == Str("2.0")
  }

  /** Which params values each style accepts: array style takes arrays and
      every value that is not of type "object" (so `null` and plain objects
      are refused); object style takes everything but arrays. */
  predicate ParamsFit(params: Value, paramType: ParamType) {
    match paramType
    case ArrayParams => params.Arr? || !TypeofObject(params)
    case ObjectParams => !params.Arr?
  }

  /** The default validator. */
  function Validate(body: Value, paramType: ParamType): (r: Validation)
    ensures r.Crashed? <==> IsNullish(body)
    ensures !IsNullish(body) && !WellFormed(body) ==> r == Invalid(InvalidRequestException(Undefined, None))
    ensures WellFormed(body) && !ParamsFit(body.fields["params"], paramType) ==>
              r == Invalid(InvalidParamsException(Undefined, None))
    ensures r == Valid <==> WellFormed(body) && ParamsFit(body.fields["params"], paramType)
  {
    if IsNullish(body) then Crashed
    else if !(HasKey(body, "method") && HasKey(body, "params") && HasKey(body, "jsonrpc")
              && Get(body, "jsonrpc") == Str("2.0")) then
      Invalid(InvalidRequestException(Undefined, None))
    else
      var params := Get(body, "params");
      if (params.Arr? && paramType != ArrayParams)
         || (!params.Arr? && TypeofObject(params) && paramType != ObjectParams) then
        Invalid(InvalidParamsException(Undefined, None))
      else Valid
  }

  /** Scalar params (a string, number, boolean) pass in either style, and a
      `null` params is refused in array style. */
  lemma ScalarParamsAlwaysFit(body: Value, paramType: ParamType)
    requires WellFormed(body)
    ensures var p := body.fields["params"];
            (p.Str? || p.Num? || p.Bool?) ==> Validate(body, paramType) == Valid
    ensures body.fields["params"].Null? ==>
              (Validate(body, paramType) == Valid <==> paramType == ObjectParams)
  {
  }

  /** The validator never looks at "id": adding, changing or removing it
      does not change the verdict. */
  lemma ValidateIgnoresId(fields: map<string, Value>, id: Value, paramType: ParamType)
    ensures Validate(Obj(fields["id" := id]), paramType) == Validate(Obj(fields), paramType)
    ensures Validate(Obj(fields - {"id"}), paramType) == Validate(Obj(fields), paramType)
  {
    assert HasKey(Obj(fields["id" := id]), "method") == HasKey(Obj(fields), "method");
    assert HasKey(Obj(fields - {"id"}), "method") == HasKey(Obj(fields), "method");
  }
}
