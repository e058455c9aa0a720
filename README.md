# jrpc-server, modelled in Dafny

This project models the core of `jrpc-server`, a JSON-RPC 2.0 server for
Node.js. The model covers these parts:

- **Exceptions.** The six exceptions of section 5.1 of the JSON-RPC 2.0
  Specification, and the error objects and response objects they become.
- **Request validator.** The default validator of the router. It checks the
  envelope of section 4 of the JSON-RPC 2.0 Specification and the
  params style.
- **Method manager.** Named handlers, called with the params spread as
  arguments.
- **Router.** It turns a request body into the reply:
  - one request object or a batch;
  - notifications, invalid elements, and handlers that throw or reject.
- **Middleware chain and adapter.** The chain every adapter runs. The
  adapter gates the handler on the chain's result.
- **HTTP adapter.** Its configuration, pathname normalisation, the POST-only
  rule it installs, its listening state and its request listener.
- **Response extenders.** The HTTP one answers once and derives the status
  from the error code. The WebSocket one sends one message per reply.
- **Request extenders.** Their decoded body and the client id read from
  `x-forwarded-for`.
- **Server object.** It wires everything together and registers the
  function that answers each request.
- **Older API.** `RpcError` with its tables and JSON form, the older
  request checker and response converter, and the older method registry.

## Modelling choices

**JSON values.** `Json.Value` carries a JavaScript value as the server sees
it, `undefined` included. The model renders JavaScript's truthiness, `??`,
`?.`, `String(v)`, and `Object.keys` throwing on `null` and `undefined`
explicitly.

**Handlers and outcomes.** A handler is a function from its arguments to
what calling it does: it returns a promise that fulfils or rejects, or it
throws. A request's outcome is a value: it resolves, rejects, or throws
before a promise exists.

**Stateful objects.** Objects whose fields the source updates are classes
with `modifies` frames:

- the method manager;
- the middleware list;
- the adapter;
- the HTTP adapter;
- the response extenders;
- the older method registry.

The batch loop and the middleware loop are methods. Each is proved against
the function that specifies it.

**Where the model follows the code rather than the documentation:**

- A handler that fails with `null` or `undefined` makes `processMethod`
  reject. `error.toString()` throws inside the catch.
- Every body that is neither an array nor null or undefined, has no id,
  and does not make the router throw gets an empty 204 reply. This
  includes a malformed request object, whose invalid-request error is
  never sent.
- A batch of notifications only gets HTTP 200 with no body. Over WebSocket
  nothing is sent.
- The POST rule of the HTTP adapter calls `next()` without the pending
  error. A POST whose body is not JSON therefore gets no parse error. The
  handler runs with an undefined body and no reply is sent.
- The older `exists` holds for every name. An unregistered name then fails
  with an internal error that wraps the TypeError of calling `undefined`.
- The older converter turns an id of 0 into `null`.
- Missing keys in the older request checker give invalid params, not
  invalid request.

## Model

| member | source | states |
|---|---|---|
| Exceptions.ParseErrorException | src/core/exceptions/parse-error.exception.ts:15-21 | code -32700 (the parse-error kind); the given message or the default one; the data as given |
| Exceptions.InvalidRequestException | src/core/exceptions/invalid-request.exception.ts:15-21 | code -32600; the given message or the default one; the data as given |
| Exceptions.MethodNotFoundException | src/core/exceptions/method-not-found.exception.ts:15-21 | code -32601; the given message or the default one; the data as given |
| Exceptions.InvalidParamsException | src/core/exceptions/invalid-params.exception.ts:15-21 | code -32602; the given message or the default one; the data as given |
| Exceptions.InternalErrorException | src/core/exceptions/internal-error.exception.ts:15-21 | code -32603; the given message or the default one; the data as given |
| Exceptions.ServerErrorException | src/core/exceptions/server-error.exception.ts:15-21 | code -32000; the given message or the default one; the data as given |
| Exceptions.KindOfCode | src/adapters/http/helpers/http-status-code.helper.ts:23-36 | a code maps back to a kind only when that kind's code is that code |
| Exceptions.KindOfCodeOf | src/adapters/http/helpers/http-status-code.helper.ts:23-36 | the six codes are distinct: the code of a kind names that kind |
| Exceptions.ToObject | src/core/exceptions/abstracts/jrpc-exception.abstract.ts:29-35 | code and message are kept; data is missing exactly when it is null or undefined, otherwise it is its string form |
| Exceptions.ToResponseObj | src/core/exceptions/abstracts/jrpc-exception.abstract.ts:43-49 | an error response saying "2.0" with the error object of the exception; the given id, a missing id becoming null |
| Exceptions.ErrorObjectValue | src/core/exceptions/abstracts/jrpc-exception.abstract.ts:56-58 | the JSON object has keys code and message, plus data exactly when data is present |
| Exceptions.ToJson | src/core/exceptions/abstracts/jrpc-exception.abstract.ts:56-58 | the JSON text of {code, message}, plus data as a string when data is not null or undefined |
| Exceptions.DataText | src/core/exceptions/abstracts/jrpc-exception.abstract.ts:66-73 | empty exactly for falsy data; otherwise "data " then the JSON text of an object or array, or the string form of another value |
| Exceptions.ExceptionToString | src/core/exceptions/abstracts/jrpc-exception.abstract.ts:65-75 | starts with "RPC Error: Code "; with falsy data it is the prefix, the code, a space and the message, and nothing more |
| Exceptions.ToStringDeterminesCode | src/core/exceptions/abstracts/jrpc-exception.abstract.ts:74 | two exceptions with the same text have the same code |
| Validator.Validate | src/managers/router/helpers/validator.helper.ts:9-31 | throws exactly for null or undefined; a missing key or a jsonrpc other than "2.0" gives invalid request; params of the wrong style give invalid params; valid exactly when well formed and the params fit |
| Validator.ScalarParamsAlwaysFit | src/managers/router/helpers/validator.helper.ts:22-30 | string, number and boolean params pass in both styles; null params pass only in object style |
| Validator.ValidateIgnoresId | src/managers/router/helpers/validator.helper.ts:9-31 | adding, changing or removing "id" never changes the verdict |
| MethodRegistry.SpreadArgs | src/managers/method/index.ts:81-85 | an array params is spread into the arguments; any other value is the only argument |
| MethodRegistry.Invoke | src/managers/method/index.ts:70-99 | an unknown name throws method-not-found before any call; a known one calls its handler with the spread params |
| MethodRegistry.Wrap | src/managers/method/index.ts:86-90 | a JRPC exception is kept; any other failure becomes an internal error carrying it as data |
| MethodRegistry.Detached | src/managers/method/index.ts:86-96 | the side chain rethrows exactly when the returned promise rejects, with the wrapped reason |
| MethodRegistry.Without | src/managers/method/index.ts:50-58 | the other names in their order; no duplicates are introduced |
| MethodRegistry.Settle | src/managers/router/index.ts:21-34 | awaiting a call inside the try sees a synchronous throw as a rejection with the same value, and a returned promise as it settles |
| MethodRegistry.InvokeAfterAdd | src/managers/method/index.ts:29-32 | after add(name, fn), a call of name runs fn with the spread params |
| MethodRegistry.InvokeAfterRemove | src/managers/method/index.ts:50-58 | after remove(name), a call of name throws method-not-found |
| MethodRegistry.MethodManager.constructor | src/managers/method/index.ts:22 | starts empty |
| MethodRegistry.MethodManager.Add | src/managers/method/index.ts:29-32 | the handler is stored under name, replacing any earlier one; a new name goes last in the listing order |
| MethodRegistry.MethodManager.Exist | src/managers/method/index.ts:40-43 | true exactly when a handler is registered under name |
| MethodRegistry.MethodManager.Remove | src/managers/method/index.ts:50-58 | the name is gone from the table and the listing; with no such name nothing changes |
| MethodRegistry.MethodManager.Names | src/managers/method/index.ts:65-68 | every registered name exactly once, and nothing else |
| MethodRegistry.MethodManager.Call | src/managers/method/index.ts:70-99 | the invocation Invoke describes, and the unhandled rejection of the side chain |
| Router.GenerateErrorResponse | src/managers/abstracts/router-manager.abstract.ts:27-40 | an error response saying "2.0"; a JRPC exception keeps its code and message; any other failure becomes an internal error whose data is its string form |
| Router.GenerateErrorResponseExamples | tests/route-manager.spec.ts:37-80 | an Error("foo") gives internal error data "Error: foo"; an internal error with data "data3" keeps id 3 and that data |
| Router.Processed | src/managers/router/index.ts:16-41 | a handler that fulfils with v is answered with success, echoing id and jsonrpc, with result v, or null when v is null or undefined; a handler that throws or rejects with a reason other than null or undefined is answered with that reason wrapped as an error response for the request's id; null or undefined reasons make it reject; an unknown method gives method-not-found |
| Router.Element | src/managers/router/index.ts:57-79 | one batch element makes the `forEach` throw exactly when the validator throws on it or it is null or undefined |
| Router.ElementOutcome | src/managers/router/index.ts:57-79 | an element the loop gets past: a refused one is answered with the validator's error and its id and starts nothing; an accepted one makes one `methodManager.call(method, params)` and is answered with the processed response exactly when it carries an id |
| Router.Fold | src/managers/router/index.ts:56-80 | the responses and calls the loop collects are at most one of each per element |
| Router.FoldCrashesIff | src/managers/router/index.ts:56-80 | the loop throws exactly when some element makes it throw |
| Router.NullishElementThrows | src/managers/router/index.ts:61-79 | a null or undefined element anywhere in a batch makes request throw, whatever the validator says about it, as `[null]` does |
| Router.PromiseAll | src/managers/router/index.ts:81 | rejects exactly when one entry rejects; otherwise all responses in order |
| Router.Route | src/managers/router/index.ts:43-98 | a falsy body or an empty array gives one invalid-request response with a null id; a single body throws exactly when the validator throws; an invalid one is answered with the validator's error and its id; a valid one is answered with its processed response or rejects; a batch throws exactly when some element made the validator throw or is null or undefined, and otherwise settles as Promise.all over the fold's pending responses, in request order |
| Router.Calls | src/managers/router/index.ts:52-92 | a single body makes one `methodManager.call(method, params)` exactly when it is truthy and valid, and none otherwise; the name need not be registered |
| Router.FoldCrashed | src/managers/router/index.ts:56-80 | once the validator has thrown on an element, later elements are never looked at |
| Router.FoldAppend | src/managers/router/index.ts:56-80 | a batch's responses and calls are those of its first part followed by those of its second: answers keep request order |
| Router.FoldSingleton | src/managers/router/index.ts:57-79 | a batch of one element collects exactly that element's result |
| Router.EntriesAtOwnPlace | src/managers/router/index.ts:56-80 | in a batch the loop gets through, the pending responses are those of the elements before an element, then its own, then those of the elements after it |
| Router.InvalidElementAnswered | src/managers/router/index.ts:73-79 | an element the validator refuses is answered at its own place, with its id and the validator's error |
| Router.BatchAnswerCount | src/managers/router/index.ts:53-81 | one response per invalid element or valid element with an id; none per notification |
| Router.NotificationsFold | src/managers/router/index.ts:61-72 | a batch of notifications (elements other than null or undefined, accepted, without an id) collects no response and passes every element's method and params to `methodManager.call`, in order |
| Router.NotificationBatchAnswersEmpty | src/managers/router/index.ts:53-81 | a batch of notifications (no null or undefined element) is answered with an empty array, yet every element's method and params are passed to `methodManager.call` |
| Router.BatchReply | src/managers/router/index.ts:56-81 | an answered batch has one response per responding element, and a refused element's error sits at its own place after the answers of the elements before it |
| Router.ProcessedExamples | tests/route-manager.spec.ts:164-187 | a handler returning true is answered with result true and id 9; an unknown method with method-not-found and id 10 |
| Router.BatchExample | tests/route-manager.spec.ts:224-255 | the three-element batch is answered with the success, the invalid-params error and the internal error wrapping Error("error inline"), in that order |
| Router.ObjectParamsRefused | tests/route-manager.spec.ts:214-222 | object params under array style are answered with invalid params and the request's id; the handler is not called |
| Router.RouterManager.constructor | src/managers/abstracts/router-manager.abstract.ts:22-25 | keeps the method manager and the configuration |
| Router.RouterManager.ProcessMethod | src/managers/router/index.ts:16-41 | the result Processed specifies |
| Router.RouterManager.CollectBatch | src/managers/router/index.ts:56-80 | the loop's crash flag, collected responses and calls equal the batch fold |
| Router.RouterManager.Request | src/managers/router/index.ts:43-98 | the outcome Route specifies and the calls Calls specifies |
| Transport.ItemPayload | src/adapters/http/extends/http-response.extend.ts:60-69 | an exception becomes its response object with a null id; a response stays as it is |
| Transport.Normalize | src/adapters/http/extends/http-response.extend.ts:53-84 | no data exactly for a missing body or an empty array; a non-empty array item by item in order; an exception as its response object; anything else as it is |
| HttpStatus.StatusOf | src/adapters/http/helpers/http-status-code.helper.ts:22-37 | 405 exactly for invalid request, 404 exactly for method not found, 400 exactly for parse error and invalid params, 500 for everything else |
| HttpStatus.StatusOfKind | src/adapters/http/helpers/http-status-code.helper.ts:22-37 | client mistakes get 4xx, server failures 500, per kind |
| HttpResponse.StatusFor | src/adapters/http/extends/http-response.extend.ts:40-90 | 204 exactly without a body; batches and plain errors 200; a single error response the status of its code; a single success 200 |
| HttpResponse.StatusExamples | src/adapters/http/extends/http-response.extend.ts:40-90 | a notification gets an empty 204; invalid request 405; unknown method 404; a parse error 400 |
| HttpResponse.HttpResponseExtend.constructor | src/adapters/http/extends/http-response.extend.ts:22-31 | nothing sent and not finished |
| HttpResponse.HttpResponseExtend.Send | src/adapters/http/extends/http-response.extend.ts:40-90 | after finishing nothing happens; a second send throws; the first writes one reply with StatusFor's status, the JSON header exactly when there is a body, and the normalised data; at most one reply ever |
| HttpResponse.HttpResponseExtend.OnFinish | src/adapters/http/extends/http-response.extend.ts:26-30 | marks the response finished and emits "finish" once, with the data sent |
| WebsocketResponse.WebsocketResponseExtend.constructor | src/adapters/websocket/extends/websocket-response.extend.ts:19-22 | nothing sent |
| WebsocketResponse.WebsocketResponseExtend.Send | src/adapters/websocket/extends/websocket-response.extend.ts:31-70 | a reply with data becomes one more message and one "finish" event; a reply without data changes nothing |
| Middlewares.Run | src/core/adapters/libraries/middleware.ts:93-105 | past the end nothing is sent and the error is kept; the middleware reached sends first; one that stops or throws ends the chain, with nothing sent after it; a stop keeps the error it was given and a throw records the thrown error |
| Middlewares.Execution | src/core/adapters/libraries/middleware.ts:54-107 | with no registered middleware the terminal handler alone answers; otherwise the first registered one runs first, with the base error |
| Middlewares.Terminal | src/core/adapters/libraries/middleware.ts:61-91 | no error: nothing sent and success; a SyntaxError is answered and recorded as a parse error; any other error is sent as it is and recorded |
| Middlewares.PassThroughPrefix | src/core/adapters/libraries/middleware.ts:54-107 | middlewares that only pass errors on change nothing about where the chain ends |
| Middlewares.ErrorReachesTerminal | src/core/adapters/libraries/middleware.ts:54-107 | through pass-through middlewares a pending error is answered by the terminal handler and reported as failure; with none nothing is sent and success is reported |
| Middlewares.HaltWithoutErrorSucceeds | src/core/adapters/libraries/middleware.ts:54-107 | a middleware that stops without next or throwing still lets execute report success, with only its own replies sent |
| Middlewares.RaiseMakesExecuteFail | src/core/adapters/libraries/middleware.ts:93-107 | a middleware that throws, reached through pass-through middlewares, ends the chain with only its own replies and the thrown error recorded, so execute reports failure |
| Middlewares.Middleware.constructor | src/core/adapters/libraries/middleware.ts:12 | starts with no middleware |
| Middlewares.Middleware.Clear | src/core/adapters/libraries/middleware.ts:19-21 | no middleware is left |
| Middlewares.Middleware.AddFirst | src/core/adapters/libraries/middleware.ts:29-32 | fn runs before all others |
| Middlewares.Middleware.Add | src/core/adapters/libraries/middleware.ts:41-44 | fn runs after all others |
| Middlewares.Middleware.Execute | src/core/adapters/libraries/middleware.ts:54-107 | the loop's replies equal the chain's, and it reports success exactly when no error is recorded where the chain stopped |
| Adapters.Gate | src/core/adapters/abstracts/adapter.abstract.ts:83-101 | the registered function runs exactly when the chain succeeded; with none registered that is a TypeError |
| Adapters.Adapter.constructor | src/core/adapters/abstracts/adapter.abstract.ts:22-31 | a fresh, empty chain and no registered function |
| Adapters.Adapter.Use | src/core/adapters/abstracts/adapter.abstract.ts:60-63 | appends fn to the chain and returns the adapter |
| Adapters.Adapter.Register | src/core/adapters/abstracts/adapter.abstract.ts:71-75 | replaces the registered function and returns the adapter |
| Adapters.Adapter.NewRequest | src/core/adapters/abstracts/adapter.abstract.ts:83-101 | the chain's replies, then the gate's decision on calling the registered function |
| HttpAdapterModel.RemoveSlashes | src/adapters/http/index.ts:74-77 | no slash is left; every other character is kept |
| HttpAdapterModel.NormalizePathname | src/adapters/http/index.ts:74-77 | one leading slash, followed by the configured characters without any slash |
| HttpAdapterModel.NormalizePathnameIdempotent | src/adapters/http/index.ts:74-77 | normalising twice is normalising once |
| HttpAdapterModel.NestedPathNeverMatches | src/adapters/http/index.ts:204-208 | a path with a slash after its first character never equals the configured pathname |
| HttpAdapterModel.ResolveConfig | src/adapters/http/index.ts:64-77 | hostname "127.0.0.1" and pathname "/" by default; the port as given; the pathname normalised |
| HttpAdapterModel.PostOnly | src/adapters/http/index.ts:107-113 | a POST continues with next() and no error; any other method gets an invalid-request reply and stops the chain |
| HttpAdapterModel.MalformedPostPassesPostRule | src/adapters/http/index.ts:107-113 | a POST whose body is not JSON sends nothing and reports success |
| HttpAdapterModel.OtherMethodRejected | src/adapters/http/index.ts:107-113 | another HTTP method is answered with invalid request, and the pending error alone decides whether the handler runs |
| HttpAdapterModel.HttpAdapter.constructor | src/adapters/http/index.ts:64-77 | the resolved configuration, an empty chain, and not listening |
| HttpAdapterModel.HttpAdapter.Listen | src/adapters/http/index.ts:103-142 | when not listening, appends the POST rule; otherwise changes nothing |
| HttpAdapterModel.HttpAdapter.IsListening | src/adapters/http/index.ts:187-189 | the listening flag the listening and close events set and clear |
| HttpAdapterModel.HttpAdapter.OnListening | src/adapters/http/index.ts:120 | now listening |
| HttpAdapterModel.HttpAdapter.OnServerClose | src/adapters/http/index.ts:132-136 | no longer listening |
| HttpAdapterModel.HttpAdapter.Shutdown | src/adapters/http/index.ts:149-180 | closes the server exactly once when listening, otherwise nothing |
| HttpAdapterModel.HttpAdapter.RequestListener | src/adapters/http/index.ts:201-243 | another path gets 404 and goes no further; the configured path goes through the chain and the gate |
| Server.ReplyBody | src/index.ts:105-117 | a single response is sent as it is; a batch as its responses in order |
| Server.Callback | src/index.ts:105-117 | nothing when the router throws or the body is null or undefined; an empty reply for any other non-array body without an id; otherwise the router's reply, or nothing when it rejects |
| Server.JRPCServer.constructor | src/index.ts:70-118 | the given managers, or a fresh method manager and a router with array params and the default validator; the request function is registered with the adapter; a missing options argument is read as OptionsAsIntended reads it |
| Server.OptionsAsWritten | src/index.ts:75-77 | as written, reading `routerManager` throws a TypeError exactly when the options argument is missing; otherwise both reads give the fields as given |
| Server.OptionsAsIntended | src/index.ts:75-81 | a missing options argument reads as options with every field left out; given options are kept |
| Server.MissingOptionsThrow | src/index.ts:77 | without options the source throws, while the intended reading gives every default |
| Server.IntendedAgreesWhenGiven | src/index.ts:75-81 | with options given, the corrected reading and the source agree |
| Server.JRPCServer.OnRequest | src/index.ts:105-117 | the reply Callback specifies, and the `methodManager.call`s the router makes |
| Server.JRPCServer.IsListening | src/index.ts:135-137 | whether the adapter is listening |
| Server.JRPCServer.Start | src/index.ts:125-128 | listens through the adapter: the POST rule is appended unless already listening |
| Server.JRPCServer.Shutdown | src/index.ts:144-153 | shuts the adapter down only when it is listening |
| Server.NotificationIsSilent | src/index.ts:105-117 | a single notification gets an empty 204 reply, and its method and params are passed to `methodManager.call` |
| Server.InvalidRequestWithoutIdIsSilent | src/index.ts:105-117 | a malformed request object without an id gets the empty reply; its error is never sent and `methodManager.call` is not called |
| Server.UnknownMethodAnswered404 | src/index.ts:105-117 | an unknown method is answered with method-not-found and its id, over HTTP with 404 |
| Server.NotificationBatchGetsEmptyReply | src/index.ts:105-117 | a batch of notifications (no null or undefined element) gets an empty array: HTTP 200 with no data |
| Server.MalformedPostGetsNoReply | src/adapters/http/index.ts:107-113 | a POST that is not JSON passes the chain with an undefined body, and the registered function sends nothing |
| Requests.FirstField | src/adapters/http/extends/http-request.extend.ts:104 | the text before the first comma: a prefix without a comma, followed by a comma when shorter |
| Requests.FirstFieldAppend | src/adapters/http/extends/http-request.extend.ts:104 | text that starts with a comma does not change the first field |
| Requests.HeaderText | src/adapters/http/extends/http-request.extend.ts:100-103 | a missing header gives nothing; a single header is itself; a repeated header is joined with commas |
| Requests.ClientId | src/adapters/http/extends/http-request.extend.ts:99-105 | the header's first field when it is not empty, otherwise the socket's remote address |
| Requests.JoinedFirstField | src/adapters/http/extends/http-request.extend.ts:100-104 | joining a repeated header keeps the first field of its first occurrence |
| Requests.RepeatedHeaderUsesFirst | src/adapters/websocket/extends/websocket-request.extend.ts:64-70 | a repeated header names the same client as its first occurrence alone |
| Requests.NewWebsocketRequest | src/adapters/websocket/extends/websocket-request.extend.ts:29-38 | the body is the parsed text, or undefined when it is not JSON |
| Requests.ClientIdExamples | src/adapters/http/extends/http-request.extend.ts:99-105 | "a,b" names "a"; no header or an empty first field falls back to the remote address |
| LegacyErrors.RpcErrorCode | src/Core/Errors.ts:1-26 | the server-error name exactly has -32000; every code lies in -32700..-32000 |
| LegacyErrors.RpcErrorCodeInjective | src/Core/Errors.ts:1-26 | no two names share a code |
| LegacyErrors.RpcErrorMessage | src/Core/Errors.ts:28-53 | method not found reads "Methot not found"; internal error reads "RPC error" |
| LegacyErrors.RpcErrorHttpCode | src/Core/Errors.ts:55-80 | 400 exactly for invalid request, 404 exactly for method not found, 500 otherwise |
| LegacyErrors.StatusForCode | src/Core/Errors.ts:94-101 | 400 exactly for -32600, 404 exactly for -32601, 500 otherwise |
| LegacyErrors.NewRpcError | src/Core/Errors.ts:89-102 | code and message default to the internal error's; data and parent are kept; the status follows the code |
| LegacyErrors.StatusAgreesWithTable | src/Core/Errors.ts:55-102 | for every named code the constructor's status agrees with the table |
| LegacyErrors.StatusTablesDiffer | src/Core/Errors.ts:55-80 | invalid request is 400 here and 405 in the current helper; parse error 500 here and 400 there |
| LegacyErrors.FromJson | src/Core/Errors.ts:104-106 | a constructed error with the given data and parent, and the given code and message when present |
| LegacyErrors.ToJson | src/Core/Errors.ts:108-115 | exactly code, message, data and parent |
| LegacyErrors.FromJsonToJson | src/Core/Errors.ts:104-115 | fromJSON of toJSON rebuilds the error |
| LegacyErrors.ToJsonFromJson | src/Core/Errors.ts:104-115 | toJSON of fromJSON gives the input back, with the defaults filled in |
| LegacyJsonRpc.CheckKeys | src/Adapters/jsonrpc/index.ts:8-22 | passes exactly for a well-formed object; null or undefined makes Object.keys throw; anything else is refused with the invalid-params error |
| LegacyJsonRpc.MissingKeysCodeDiffers | src/Adapters/jsonrpc/index.ts:8-22 | an item the current validator calls an invalid request is refused here as invalid params |
| LegacyJsonRpc.CheckRequest | src/Adapters/jsonrpc/index.ts:7-32 | an array is accepted exactly when every item is well formed; otherwise the first failing item decides; a single well-formed item comes back as a one-element list |
| LegacyJsonRpc.ConvertErr | src/Adapters/jsonrpc/index.ts:35-51 | the message of any error; an RpcError's code, with data exactly when it has a parent; another error's stack exactly when it is not empty |
| LegacyJsonRpc.ConvertErrKeepsChain | src/Adapters/jsonrpc/index.ts:35-51 | the nested data holds the whole parent chain in order |
| LegacyJsonRpc.ResponseId | src/Adapters/jsonrpc/index.ts:54 | the request's id when it and the id are truthy, otherwise null; never 0 |
| LegacyJsonRpc.ResponseJsonrpc | src/Adapters/jsonrpc/index.ts:55 | the request's jsonrpc when truthy, otherwise "2.0" |
| LegacyJsonRpc.ZeroIdBecomesNull | src/Adapters/jsonrpc/index.ts:54 | a request with id 0 is answered with id null |
| LegacyJsonRpc.Promoted | src/Adapters/jsonrpc/index.ts:56-63 | an internal RpcError whose parent is the original failure |
| LegacyJsonRpc.DataError | src/Adapters/jsonrpc/index.ts:56 | data is an error exactly when it is a failure or a result value that is an Error instance |
| LegacyJsonRpc.Convert | src/Adapters/jsonrpc/index.ts:34-77 | one response per item in order, with id and jsonrpc from its request; data that is not an Error is a success with that result; an RpcError is converted; any other Error, a returned one included, is replaced in the caller's item by the promoted error and converted |
| LegacyJsonRpc.ErrorResultAnsweredAsError | src/Adapters/jsonrpc/index.ts:56-68 | a returned Error is answered as an internal error whose nested data carries its message and stack |
| LegacyMethods.IndexOf | src/Core/Methods/index.ts:17-18 | -1 exactly for a missing name; otherwise the first position of the name |
| LegacyMethods.WrappedFailure | src/Core/Methods/index.ts:34-44 | an internal error with status 500, the call's name and arguments as data, and the failure as parent |
| LegacyMethods.Methods.constructor | src/Core/Methods/index.ts:5 | starts empty |
| LegacyMethods.Methods.Add | src/Core/Methods/index.ts:7-10 | stores or replaces the function, a new name going last, and returns the registry |
| LegacyMethods.Methods.Names | src/Core/Methods/index.ts:12-14 | every registered name exactly once |
| LegacyMethods.Methods.Exists | src/Core/Methods/index.ts:16-19 | true for every name, registered or not |
| LegacyMethods.Methods.Call | src/Core/Methods/index.ts:21-47 | it never throws synchronously, since exists holds for every name; an unregistered name rejects with the wrapped TypeError; a value fulfils; a rejection and a thrown RpcError pass through; any other thrown error is wrapped |

## Left out

- Sockets, HTTP and TLS servers, body streaming, and the `listen`/`close` callbacks of Node's servers are not modelled. They are I/O. `OnListening` and `OnServerClose` stand for their events.
- `JSON.parse`, `JSON.stringify` and URL parsing are parameters or inputs: the `parse` and `stringify` functions, a decoded body, and the URL's pathname.
- Promise interleaving is not modelled. A request's outcome is computed as if every promise settled in turn. The handlers of a batch may run concurrently in the source.
- Close timeouts, `timeout.helper.ts`, `process.helper.ts`, the exit handler and signal handling are not modelled. They are timers and process hooks.
- Request `close()` and `destroy()`, the "close" and "error" events of requests, and the EventEmitter plumbing are not modelled, beyond the "finish" events of the response extenders.
- Debug logging is not modelled.
- `Json.Value` numbers are integers. Floating point is not modelled.
- A "method" naming a property every JavaScript object inherits (`toString`, `constructor` and so on) is excluded by the `Resolvable` precondition. Registering "__proto__" is excluded in both registries.
- `Object.keys` lists integer-like keys before the others. The registries keep plain insertion order.
- The constants module is not part of this model. Its codes and messages are taken from the exception files' usage and the documentation.
- Server.JRPCServer.constructor: without an options argument the source throws a TypeError at `src/index.ts:77`. The constructor follows the corrected reading instead; see Findings.
- The WebSocket adapter (`src/adapters/websocket/index.ts`) is not part of this model. Its request and response extenders are.
- A middleware that does more work after calling `next` is not modelled. The chain only sees what it sends and how it ends.
- LegacyMethods.Methods.Call: handlers are taken to fail with `Error` objects only. A thrown non-Error value is not modelled.
- LegacyJsonRpc.Convert: the caller's array holds each item once. The same object appearing twice, so that an update at one index shows at another, is not modelled.
- LegacyMethods.Methods.Call: the engine's stack text of the TypeError is a parameter.

## Findings

| source | as written | input that shows it | evidently intended | confidence | as-written member | corrected member |
|---|---|---|---|---|---|---|
| src/index.ts:77 | `options.routerManager` is read without `?.`, unlike `options?.` at lines 75, 79 and 80 | `new JRPCServer(adapter)` with no options, as in the class's own examples at src/index.ts:25-52: the read of `routerManager` on `undefined` throws a TypeError | a missing options argument means every default: a fresh method manager and a router with array params and the default validator | high (not executed) | Server.MissingOptionsThrow | Server.OptionsAsIntended |
