/** What a transport is asked to send and what it actually serialises: the
    argument of a response extender's `send`, and its `responseData`. */
module Transport {
  import opened Json
  import opened Optional
  import opened Exceptions

  /** An element of an array handed to `send`. */
  datatype SendItem = ItemException(ex: JrpcException) | ItemResponse(response: Response)

  /** The argument of `send(body?)`: nothing, one exception, one response
      object, some other `Error` (a middleware failure passed on as is), or
      an array. */
  datatype SendBody =
    | NoBody
    | OneException(ex: JrpcException)
    | OneResponse(response: Response)
    | OneError(name: string, message: string)
    | Many(items: seq<SendItem>)

  /** The data a transport serialises with `JSON.stringify`. */
  datatype Payload =
    | One(response: Response)
    | Batch(responses: seq<Response>)
    | RawError(name: string, message: string)

  /** An exception is sent as its response object, with a `null` id. */
  function ItemPayload(item: SendItem): (r: Response)
    ensures item.ItemException? ==> r == ToResponseObj(item.ex, Null)
    ensures item.ItemResponse? ==> r == item.response
  {
    match item
    case ItemException(ex) => ToResponseObj(ex, Undefined)
    case ItemResponse(resp) => resp
  }

  /** The `responseData` both transports compute from `send(body)`: no data
      for a missing body or an empty array, each element of a non-empty
      array in order, an exception as its response object, anything else
      as it is. */
  function Normalize(body: SendBody): (p: Option<Payload>)
    ensures p.None? <==> body.NoBody? || body == Many([])
    ensures body.Many? && body.items != [] ==>
              p.Some? && p.value.Batch? && |p.value.responses| == |body.items|
              && forall i :: 0 <= i < |body.items| ==> p.value.responses[i] == ItemPayload(body.items[i])
    ensures body.OneException? ==> p == Some(One(ToResponseObj(body.ex, Null)))
    ensures body.OneResponse? ==> p == Some(One(body.response))
    ensures body.OneError? ==> p == Some(RawError(body.name, body.message))
  {
    match body
    case NoBody => None
    case Many(items) =>
      if |items| > 0 then Some(Batch(seq(|items|, i requires 0 <= i < |items| => ItemPayload(items[i]))))
      else None
    case OneException(ex) => Some(One(ToResponseObj(ex, Undefined)))
    case OneResponse(resp) => Some(One(resp))
    case OneError(name, message) => Some(RawError(name, message))
  }
}
