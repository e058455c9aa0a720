/** The request extenders: what a transport exposes of one incoming request
    (its HTTP method, decoded body and client id). */
module Requests {
  import opened Json
  import opened Optional

  /** The `x-forwarded-for` header: missing, given once, or repeated. */
  datatype ForwardedHeader = Absent | OneHeader(value: string) | ListHeader(values: seq<string>)

  /** `s.split(",").shift()`: the text before the first comma. */
  function FirstField(s: string): (r: string)
    ensures ',' !in r && |r| <= |s| && r == s[..|r|]
    ensures |r| < |s| ==> s[|r|] == ','
  {
    if s == [] || s[0] == ',' then []
    else [s[0]] + FirstField(s[1..])
  }

  /** Appending text that starts with a comma does not change the first
      field. */
  lemma {:induction false} FirstFieldAppend(a: string, b: string)
    requires b == [] || b[0] == ','
    ensures FirstField(a + b) == FirstField(a)
  {
    if a == [] {
      assert a + b == b;
    } else if a[0] == ',' {
    } else {
      assert (a + b)[1..] == a[1..] + b;
      FirstFieldAppend(a[1..], b);
    }
  }

  /** The header as one string: a repeated header is joined with commas. */
  function HeaderText(h: ForwardedHeader): (t: Option<string>)
    ensures h.Absent? <==> t.None?
    ensures h.OneHeader? ==> t == Some(h.value)
  {
    match h
    case Absent => None
    case OneHeader(v) => Some(v)
    case ListHeader(vs) => Some(Join(vs, ","))
  }

  /** `getClientId()`: the first field of the header when it is not empty,
      otherwise the socket's remote address (which may be missing). */
  function ClientId(h: ForwardedHeader, remoteAddress: Option<string>): (r: Option<string>)
    ensures HeaderText(h).Some? && FirstField(HeaderText(h).value) != [] ==>
              r == Some(FirstField(HeaderText(h).value)) && ',' !in r.value
    ensures (HeaderText(h).None? || FirstField(HeaderText(h).value) == []) ==> r == remoteAddress
  {
    match HeaderText(h)
    case Some(t) => if FirstField(t) != [] then Some(FirstField(t)) else remoteAddress
    case None => remoteAddress
  }

  /** Joining the repeated header before splitting it yields the first
      field of its first occurrence. */
  lemma {:induction false} JoinedFirstField(vs: seq<string>)
    requires vs != []
    ensures FirstField(Join(vs, ",")) == FirstField(vs[0])
  {
    if |vs| > 1 {
      var pre := vs[..|vs| - 1];
      assert Join(vs, ",") == Join(pre, ",") + ("," + vs[|vs| - 1]);
      FirstFieldAppend(Join(pre, ","), "," + vs[|vs| - 1]);
      JoinedFirstField(pre);
    }
  }

  /** A repeated header names the same client as its first occurrence
      alone would. */
  lemma RepeatedHeaderUsesFirst(vs: seq<string>, remoteAddress: Option<string>)
    requires vs != []
    ensures ClientId(ListHeader(vs), remoteAddress) == ClientId(OneHeader(vs[0]), remoteAddress)
  {
    JoinedFirstField(vs);
  }

  /** What an HTTP request exposes: its method (`getMethod()`), the body
      the adapter decoded into it (`getBody()`), and what `getClientId()`
      reads. */
  datatype HttpRequest = HttpRequest(httpMethod: string, body: Value, forwarded: ForwardedHeader, remoteAddress: Option<string>)

  /** What a WebSocket message exposes; it has no HTTP method. */
  datatype WebsocketRequest = WebsocketRequest(body: Value, forwarded: ForwardedHeader, remoteAddress: Option<string>)

  /** The constructor: the message text decoded with `parse` (`JSON.parse`,
      `None` when it throws), a text that is not JSON leaving the body
      undefined. */
  function NewWebsocketRequest(bodyString: string, parse: string -> Option<Value>, forwarded: ForwardedHeader, remoteAddress: Option<string>): (r: WebsocketRequest)
    ensures parse(bodyString).None? ==> r.body == Undefined
    ensures parse(bodyString).Some? ==> r.body == parse(bodyString).value
    ensures r.forwarded == forwarded && r.remoteAddress == remoteAddress
  {
    WebsocketRequest(match parse(bodyString) case Some(v) => v case None => Undefined, forwarded, remoteAddress)
  }

  /** A forwarded client is identified by the header's first address
      rather than by the proxy's; an empty first field falls back to the
      socket's address. */
  lemma ClientIdExamples()
    ensures ClientId(OneHeader("a,b"), Some("p")) == Some("a")
    ensures ClientId(Absent, Some("p")) == Some("p")
    ensures ClientId(OneHeader(",b"), Some("p")) == Some("p")
  {
    assert "a,b" == "a" + ",b";
    FirstFieldAppend("a", ",b");
    assert FirstField("a") == "a";
  }
}
