/** The server object: it wires a method manager and a router to an
    adapter, registers the function that answers each request, and starts
    and stops the adapter. */
module Server {
  import opened Json
  import opened Optional
  import opened Exceptions
  import opened Validator
  import opened MethodRegistry
  import opened Router
  import opened Transport
  import opened Middlewares
  import opened Adapters
  import opened HttpResponse
  import opened HttpAdapterModel

  /** The server options; every field may be left out. */
  datatype ServerOptions = ServerOptions(
    methodManager: Option<MethodManager>,
    routerManager: Option<RouterManager>,
    paramType: Option<ParamType>,
    validator: Option<ValidatorFn>)

  /** What the constructor's first two reads of its options argument give
      as written: `options?.methodManager`, then `options.routerManager`,
      which has no `?.` and throws a TypeError when the argument is
      missing. */
  datatype ConstructorReads =
    | ThrowsTypeError
    | Reads(methodManager: Option<MethodManager>, routerManager: Option<RouterManager>)

  function OptionsAsWritten(options: Option<ServerOptions>): (r: ConstructorReads)
    ensures r.ThrowsTypeError? <==> options.None?
    ensures options.Some? ==> r == Reads(options.value.methodManager, options.value.routerManager)
  {
    var methodManager := if options.Some? then options.value.methodManager else None;
    match options
    case None => ThrowsTypeError
    case Some(o) => Reads(methodManager, o.routerManager)
  }

  /** The options as every other read treats them: a missing argument is
      the same as one with every field left out. */
  function OptionsAsIntended(options: Option<ServerOptions>): (o: ServerOptions)
    ensures options.None? ==> o == ServerOptions(None, None, None, None)
    ensures options.Some? ==> o == options.value
  {
    OrElse(options, ServerOptions(None, None, None, None))
  }

  /** Left out, the options argument makes the constructor throw, while
      reading it the way the other fields are read would give a server
      with every default. */
  lemma MissingOptionsThrow()
    ensures OptionsAsWritten(None).ThrowsTypeError?
    ensures OptionsAsIntended(None) == ServerOptions(None, None, None, None)
  {
  }

  /** When the options are given, the correction changes nothing. */
  lemma IntendedAgreesWhenGiven(o: ServerOptions)
    ensures var intended := OptionsAsIntended(Some(o));
            OptionsAsWritten(Some(o)) == Reads(intended.methodManager, intended.routerManager)
  {
  }

  /** What the registered function sends for one request body, if anything. */
  datatype CallbackResult = NothingSent | Sends(body: SendBody)

  /** The argument `res.send` gets for a reply. */
  function ReplyBody(reply: Reply): (b: SendBody)
    ensures reply.Single? ==> b == OneResponse(reply.response)
    ensures reply.Batch? ==> b.Many? && |b.items| == |reply.responses|
                             && forall i :: 0 <= i < |b.items| ==> b.items[i] == ItemResponse(reply.responses[i])
  {
    match reply
    case Single(r) => OneResponse(r)
    case Batch(rs) => Many(seq(|rs|, i requires 0 <= i < |rs| => ItemResponse(rs[i])))
  }

  /** The registered function, given the body and how the router's
      `request(body)` ended. The router runs first; if it throws, nothing
      is sent. A body that is not an array and has no id gets an empty
      reply at once, whatever the router answers (reading the id of a
      `null` or `undefined` body throws instead). Otherwise the router's
      reply is sent once it resolves, and nothing when it rejects. */
  function Callback(body: Value, outcome: Outcome): (r: CallbackResult)
    ensures outcome.Throws? ==> r.NothingSent?
    ensures !outcome.Throws? && !body.Arr? && IsNullish(body) ==> r.NothingSent?
    ensures !outcome.Throws? && !body.Arr? && !IsNullish(body) && IsNullish(Get(body, "id")) ==>
              r == Sends(NoBody)
    ensures (body.Arr? || !IsNullish(Get(body, "id"))) && outcome.Answered? ==>
              r == Sends(ReplyBody(outcome.reply))
    ensures (body.Arr? || !IsNullish(Get(body, "id"))) && outcome.Rejects? ==> r.NothingSent?
  {
    if outcome.Throws? then NothingSent
    else if !body.Arr? && IsNullish(body) then NothingSent
    else if !body.Arr? && IsNullish(Get(body, "id")) then Sends(NoBody)
    else match outcome
      case Answered(reply) => Sends(ReplyBody(reply))
      case _ => NothingSent
  }

  class JRPCServer {
    const adapter: HttpAdapter<RouterManager>
    const methods: MethodManager
    const routerManager: RouterManager

    /** The constructor: the given managers, or a fresh method manager and
        a router over it with array parameters and the default validator
        unless other ones are given; then the request function is
        registered with the adapter. A missing options argument is read
        as `OptionsAsIntended` reads it. */
    constructor(adapter: HttpAdapter<RouterManager>, options: Option<ServerOptions>)
      modifies adapter.base
      ensures this.adapter == adapter
      ensures OptionsAsIntended(options).methodManager.Some? ==> methods == OptionsAsIntended(options).methodManager.value
      ensures OptionsAsIntended(options).methodManager.None? ==>
                fresh(methods) && methods.Valid() && methods.methods == map[]
      ensures OptionsAsIntended(options).routerManager.Some? ==> routerManager == OptionsAsIntended(options).routerManager.value
      ensures OptionsAsIntended(options).routerManager.None? ==>
                fresh(routerManager) && routerManager.methodManager == methods
                && routerManager.config.paramType == OrElse(OptionsAsIntended(options).paramType, ArrayParams)
                && routerManager.config.validator == OrElse(OptionsAsIntended(options).validator, Validate)
      ensures adapter.base.registerFn == Some(routerManager)
    {
      var opts := OptionsAsIntended(options);
      this.adapter := adapter;
      var mm: MethodManager;
      if opts.methodManager.Some? {
        mm := opts.methodManager.value;
      } else {
        mm := new MethodManager();
      }
      methods := mm;
      var rm: RouterManager;
      if opts.routerManager.Some? {
        rm := opts.routerManager.value;
      } else {
        rm := new RouterManager(mm, RouterConfig(OrElse(opts.paramType, ArrayParams), OrElse(opts.validator, Validate)));
      }
      routerManager := rm;
      new;
      var _ := adapter.base.Register(rm);
    }

    /** The registered function, for the body of one request. */
    method OnRequest(body: Value) returns (result: CallbackResult, calls: seq<Dispatch>)
      requires Routable(routerManager.methodManager.methods, body)
      ensures result == Callback(body, Route(routerManager.methodManager.methods, routerManager.config, body))
      ensures calls == Calls(routerManager.methodManager.methods, routerManager.config, body)
    {
      var outcome;
      outcome, calls := routerManager.Request(body);
      if outcome.Throws? {
        return NothingSent, calls;
      }
      if !body.Arr? {
        if IsNullish(body) {
          return NothingSent, calls;
        }
        if IsNullish(Get(body, "id")) {
          return Sends(NoBody), calls;
        }
      }
      match outcome
      case Answered(reply) =>
        result := Sends(ReplyBody(reply));
      case _ =>
        result := NothingSent;
    }

    /** `start()`. */
    method Start()
      modifies adapter.base.middleware
      ensures adapter.isListened ==> adapter.base.middleware.middlewares == old(adapter.base.middleware.middlewares)
      ensures !adapter.isListened ==>
                adapter.base.middleware.middlewares == old(adapter.base.middleware.middlewares) + [PostOnly]
    {
      adapter.Listen();
    }

    /** `isListening()`. */
    function IsListening(): (b: bool)
      reads adapter
      ensures b <==> adapter.isListened
    {
      adapter.IsListening()
    }

    /** `shutdown()`: shuts the adapter down only when it is listening. */
    method Shutdown()
      modifies adapter
      ensures adapter.isListened == old(adapter.isListened)
      ensures adapter.closeCalls == old(adapter.closeCalls) + (if old(adapter.isListened) then 1 else 0)
    {
      if adapter.IsListening() {
        adapter.Shutdown();
      }
    }
  }

  /** A single notification is answered with an empty 204 reply, and its
      method and params are still passed to `methodManager.call`. */
  lemma NotificationIsSilent(methods: map<string, Method>, config: RouterConfig, body: Value)
    requires body.Obj? && IsNullish(Get(body, "id")) && Routable(methods, body)
    requires config.validator(body, config.paramType).Valid?
    ensures Callback(body, Route(methods, config, body)) == Sends(NoBody)
    ensures StatusFor(NoBody) == 204
    ensures Calls(methods, config, body) == [Dispatch(PropertyKey(Get(body, "method")), Get(body, "params"))]
  {
  }

  /** A malformed request object without an id gets the same empty reply
      as a notification: the invalid-request error the router builds is
      never sent. */
  lemma InvalidRequestWithoutIdIsSilent(methods: map<string, Method>, body: Value)
    requires body.Obj? && !("id" in body.fields) && Routable(methods, body)
    requires !WellFormed(body)
    ensures Route(methods, RouterConfig(ArrayParams, Validate), body).Answered?
    ensures Callback(body, Route(methods, RouterConfig(ArrayParams, Validate), body)) == Sends(NoBody)
    ensures Calls(methods, RouterConfig(ArrayParams, Validate), body) == []
  {
  }

  /** A request for a method nobody registered is answered with a
      method-not-found error carrying its id, over HTTP with status 404. */
  lemma UnknownMethodAnswered404(methods: map<string, Method>, config: RouterConfig, body: Value)
    requires body.Obj? && !IsNullish(Get(body, "id")) && Routable(methods, body)
    requires config.validator(body, config.paramType).Valid?
    requires PropertyKey(Get(body, "method")) !in methods
    ensures Callback(body, Route(methods, config, body))
            == Sends(OneResponse(ToResponseObj(MethodNotFoundException(Undefined, None), Get(body, "id"))))
    ensures StatusFor(OneResponse(ToResponseObj(MethodNotFoundException(Undefined, None), Get(body, "id")))) == 404
  {
  }

  /** A batch made only of notifications is answered with an empty array:
      over HTTP a 200 reply without a body. */
  lemma NotificationBatchGetsEmptyReply(methods: map<string, Method>, config: RouterConfig, body: Value)
    requires body.Arr? && body.items != [] && Routable(methods, body)
    requires forall i :: 0 <= i < |body.items| ==> IsNotification(config, body.items[i])
    ensures Callback(body, Route(methods, config, body)) == Sends(Many([]))
    ensures StatusFor(Many([])) == 200 && Normalize(Many([])).None?
  {
    NotificationBatchAnswersEmpty(methods, config, body);
  }

  /** Over HTTP, a POST whose body is not JSON gets no reply at all: the
      POST rule drops the parse error, the registered function runs with
      an undefined body and throws when it reads the id. */
  lemma MalformedPostGetsNoReply(methods: map<string, Method>, config: RouterConfig)
    requires Routable(methods, Undefined)
    ensures Execution([PostOnly], RequestInfo(Some("POST"), Undefined), Some(SyntaxError)) == RunResult([], None)
    ensures Callback(Undefined, Route(methods, config, Undefined)) == NothingSent
  {
    MalformedPostPassesPostRule(Undefined);
  }
}
