/** The HTTP status an error response is sent with. */
module HttpStatus {
  import opened Exceptions

  /** `getHttpStatusCodeByErrCode(code)`. */
  function StatusOf(code: int): (status: int)
    ensures status == 400 || status == 404 || status == 405 || status == 500
    ensures status == 405 <==> code == INVALID_REQUEST_CODE
    ensures status == 404 <==> code == METHOD_NOT_FOUND_CODE
    ensures status == 400 <==> code == PARSE_ERROR_CODE || code == INVALID_PARAMS_CODE
    ensures KindOfCode(code).None? ==> status == 500
  {
    if code == INVALID_REQUEST_CODE then 405
    else if code == METHOD_NOT_FOUND_CODE then 404
    else if code == PARSE_ERROR_CODE || code == INVALID_PARAMS_CODE then 400
    else if code == INTERNAL_ERROR_CODE || code == SERVER_ERROR_CODE then 500
    else 500
  }

  /** Per kind: client mistakes get a 4xx status, server failures 500. */
  lemma StatusOfKind(kind: Kind)
    ensures kind == InvalidRequest ==> StatusOf(CodeOf(kind)) == 405
    ensures kind == MethodNotFound ==> StatusOf(CodeOf(kind)) == 404
    ensures kind == ParseError || kind == InvalidParams ==> StatusOf(CodeOf(kind)) == 400
    ensures kind == InternalError || kind == ServerError ==> StatusOf(CodeOf(kind)) == 500
  {
  }
}
