/** The WebSocket response extender: every `send` with data becomes one
    message on the socket. */
module WebsocketResponse {
  import opened Json
  import opened Optional
  import opened Exceptions
  import opened Transport

  class WebsocketResponseExtend {
    /** The data of the last message sent. */
    var responseData: Option<Payload>
    /** The messages sent on the socket, in order. */
    var messages: seq<Payload>
    /** The data each "finish" event carried. */
    var finishEvents: seq<Payload>

    /** Every message is announced by one "finish" event, and
        `responseData` is the last message. */
    ghost predicate Valid()
      reads this
    {
      finishEvents == messages
      && (|messages| == 0 ==> responseData.None?)
      && (|messages| > 0 ==> responseData == Some(messages[|messages| - 1]))
    }

    constructor()
      ensures Valid() && responseData.None? && messages == [] && finishEvents == []
    {
      responseData := None;
      messages := [];
      finishEvents := [];
    }

    /** `send(body)`: sends the data of `body`, if any, and emits "finish";
        a send without data (a notification) sends nothing at all. There is
        no guard against sending twice. */
    method Send(body: SendBody)
      requires Valid()
      modifies this
      ensures Valid()
      ensures Normalize(body).None? ==> unchanged(this)
      ensures Normalize(body).Some? ==>
                messages == old(messages) + [Normalize(body).value]
                && finishEvents == old(finishEvents) + [Normalize(body).value]
    {
      var data: Option<Payload> := None;
      if !body.NoBody? {
        if body.Many? {
          if |body.items| > 0 {
            data := Some(Batch(seq(|body.items|, i requires 0 <= i < |body.items| => ItemPayload(body.items[i]))));
          }
        } else if body.OneException? {
          data := Some(One(ToResponseObj(body.ex, Undefined)));
        } else if body.OneResponse? {
          data := Some(One(body.response));
        } else {
          data := Some(RawError(body.name, body.message));
        }
        if data.Some? {
          responseData := data;
        }
      }
      if data.Some? {
        messages := messages + [data.value];
        finishEvents := finishEvents + [data.value];
      }
    }
  }
}
