/** The HTTP response extender: one reply per HTTP request, with the status
    derived from the JSON-RPC error it carries. */
module HttpResponse {
  import opened Json
  import opened Optional
  import opened Exceptions
  import opened Transport
  import opened HttpStatus

  /** One reply on the wire: the status line, whether the JSON content type
      header was set, and the JSON body when there is one. */
  datatype Exchange = Exchange(status: int, json: bool, payload: Option<Payload>)

  /** The status `send(body)` answers with: 204 without a body, the status
      of the error code when the single response object is an error
      response, and 200 otherwise (batches always get 200). */
  function StatusFor(body: SendBody): (status: int)
    ensures body.NoBody? <==> status == 204
    ensures body.Many? || body.OneError? ==> status == 200
    ensures body.OneException? ==> status == StatusOf(body.ex.code)
    ensures body.OneResponse? && body.response.Success? ==> status == 200
    ensures body.OneResponse? && body.response.Failure? ==> status == StatusOf(body.response.error.code)
  {
    if body.NoBody? then 204
    else match Normalize(body)
      case Some(One(Failure(_, _, error))) => StatusOf(error.code)
      case _ => 200
  }

  class HttpResponseExtend {
    /** Set by the "finish" event of the underlying response. */
    var isFinished: bool
    /** The status line has been written (by `send`). */
    var headersSent: bool
    /** The data of the last reply that had some. */
    var responseData: Option<Payload>
    /** The replies written to the connection. */
    var exchanges: seq<Exchange>
    /** The data each "finish" event carried. */
    var finishEvents: seq<Option<Payload>>

    /** At most one reply per request, and "finish" only after it. */
    ghost predicate Valid()
      reads this
    {
      |exchanges| <= 1
      && (headersSent <==> |exchanges| == 1)
      && (isFinished ==> headersSent)
      && |finishEvents| == (if isFinished then 1 else 0)
      && (|exchanges| == 1 ==> exchanges[0].payload == responseData)
      && (|exchanges| == 0 ==> responseData.None?)
    }

    constructor()
      ensures Valid()
      ensures !isFinished && !headersSent && responseData.None? && exchanges == [] && finishEvents == []
    {
      isFinished := false;
      headersSent := false;
      responseData := None;
      exchanges := [];
      finishEvents := [];
    }

    /** `send(body)`. Nothing happens once the response has finished; a
        second reply before that makes Node's `writeHead` throw
        (`threw`), with nothing written. */
    method Send(body: SendBody) returns (threw: bool)
      requires Valid()
      modifies this
      ensures Valid()
      ensures threw <==> old(headersSent) && !old(isFinished)
      ensures old(headersSent) ==> unchanged(this)
      ensures !old(headersSent) ==>
                exchanges == [Exchange(StatusFor(body), !body.NoBody?, Normalize(body))]
                && headersSent && responseData == Normalize(body)
                && isFinished == old(isFinished) && finishEvents == old(finishEvents)
    {
      if isFinished {
        return false;
      }
      if headersSent {
        return true;
      }
      var statusCode := 204;
      var data: Option<Payload> := None;
      var json := false;
      if !body.NoBody? {
        statusCode := 200;
        json := true;
        if body.Many? {
          if |body.items| > 0 {
            data := Some(Batch(seq(|body.items|, i requires 0 <= i < |body.items| => ItemPayload(body.items[i]))));
          }
        } else {
          var single :=
            if body.OneException? then One(ToResponseObj(body.ex, Undefined))
            else if body.OneResponse? then One(body.response)
            else RawError(body.name, body.message);
          data := Some(single);
          if single.One? && single.response.Failure? {
            statusCode := StatusOf(single.response.error.code);
          }
        }
        if data.Some? {
          responseData := data;
        }
      }
      exchanges := exchanges + [Exchange(statusCode, json, data)];
      headersSent := true;
      threw := false;
    }

    /** The "finish" listener: marks the response finished and emits
        "finish" with the data sent. */
    method OnFinish()
      requires Valid() && headersSent && !isFinished
      modifies this
      ensures Valid() && isFinished
      ensures finishEvents == old(finishEvents) + [responseData]
      ensures exchanges == old(exchanges) && responseData == old(responseData) && headersSent
    {
      isFinished := true;
      finishEvents := finishEvents + [responseData];
    }
  }

  /** A request answered with "nothing" (a notification) gets an empty 204
      reply; an invalid-request error gets 405, an unknown method 404. */
  lemma StatusExamples(id: Value)
    ensures StatusFor(NoBody) == 204 && Normalize(NoBody).None?
    ensures StatusFor(OneResponse(ToResponseObj(InvalidRequestException(Undefined, None), id))) == 405
    ensures StatusFor(OneResponse(ToResponseObj(MethodNotFoundException(Undefined, None), id))) == 404
    ensures StatusFor(OneException(ParseErrorException(Undefined, None))) == 400
  {
  }
}
