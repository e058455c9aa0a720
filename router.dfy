/** The router: turns a request body (one request object or a batch) into
    the response the server answers with, calling the registered handlers. */
module Router {
  import opened Json
  import opened Optional
  import opened Exceptions
  import opened Validator
  import opened MethodRegistry

  /** The validator a router is configured with; the default is
      `Validator.Validate`. */
  type ValidatorFn = (Value, ParamType) -> Validation

  datatype RouterConfig = RouterConfig(paramType: ParamType, validator: ValidatorFn)

  /** A reply: one response object, or the array answering a batch. */
  datatype Reply = Single(response: Response) | Batch(responses: seq<Response>)

  /** How `request(body)` ends: its promise resolves with a reply or
      rejects, or the call throws before returning a promise. */
  datatype Outcome = Answered(reply: Reply) | Rejects | Throws

  /** A call `methodManager.call(name, params)` the router made. The name
      need not be registered: the manager then throws method-not-found and
      no handler runs. */
  datatype Dispatch = Dispatch(name: string, params: Value)

  /** `generateErrorResponse(id, error)`: the error response for a failure.
      `error.toString()` is evaluated first, so a thrown `null` or
      `undefined` is not accepted. */
  function GenerateErrorResponse(id: Value, error: Thrown): (r: Response)
    requires !(error.Plain? && IsNullish(error.v))
    ensures r == ToResponseObj(Wrap(error), id)
    ensures r.Failure? && r.jsonrpc == Str("2.0")
    ensures error.Typed? ==> r.error.code == error.ex.code && r.error.message == error.ex.message
    ensures error.Plain? ==> r.error == ErrorObject(INTERNAL_ERROR_CODE, INTERNAL_ERROR_MESSAGE, Str(JsString(error.v)))
  {
    var err := if error.Typed? then error.ex else InternalErrorException(error.v, None);
    ToResponseObj(err, id)
  }

  /** An `Error("foo")` becomes an internal error whose data is its text,
      and a typed exception keeps its own code and data. */
  lemma GenerateErrorResponseExamples()
    ensures GenerateErrorResponse(Null, Plain(ErrorObj("Error", "foo", "")))
            == Failure(Null, Str("2.0"), ErrorObject(INTERNAL_ERROR_CODE, INTERNAL_ERROR_MESSAGE, Str("Error: foo")))
    ensures GenerateErrorResponse(Num(3), Typed(InternalErrorException(Str("data3"), None)))
            == Failure(Num(3), Str("2.0"), ErrorObject(INTERNAL_ERROR_CODE, INTERNAL_ERROR_MESSAGE, Str("data3")))
  {
  }

  predicate RoutableElement(methods: map<string, Method>, v: Value) {
    Resolvable(methods, PropertyKey(Get(v, "method")))
  }

  /** Every "method" lookup the body can cause finds a handler or nothing. */
  predicate Routable(methods: map<string, Method>, body: Value) {
    if body.Arr? then forall i :: 0 <= i < |body.items| ==> RoutableElement(methods, body.items[i])
    else RoutableElement(methods, body)
  }

  /** `processMethod(body)` for a validated request object: `Some(r)` when
      its promise resolves with `r`, `None` when it rejects (the handler
      failed with `null` or `undefined`, and `error.toString()` throws). */
  function Processed(methods: map<string, Method>, body: Value): (r: Option<Response>)
    requires RoutableElement(methods, body)
    ensures var s := Settle(Invoke(methods, PropertyKey(Get(body, "method")), Get(body, "params")));
            r.None? <==> s.Rejected? && s.reason.Plain? && IsNullish(s.reason.v)
    ensures r.Some? && r.value.Success? ==>
              r.value.id == Get(body, "id") && r.value.jsonrpc == Get(body, "jsonrpc")
              && !r.value.result.Undefined?
    ensures r.Some? && r.value.Failure? ==>
              r.value.id == (if Get(body, "id").Undefined? then Null else Get(body, "id"))
    ensures PropertyKey(Get(body, "method")) !in methods ==>
              r == Some(ToResponseObj(MethodNotFoundException(Undefined, None), Get(body, "id")))
    ensures var name := PropertyKey(Get(body, "method"));
            name in methods ==>
              var h := methods[name](SpreadArgs(Get(body, "params")));
              (h.Returned? && h.promise.Fulfilled? ==>
                 r == Some(Success(Get(body, "id"), Get(body, "jsonrpc"),
                                   if IsNullish(h.promise.value) then Null else h.promise.value)))
              && (h.ThrewSync? && !(h.thrown.Plain? && IsNullish(h.thrown.v)) ==>
                    r == Some(ToResponseObj(Wrap(h.thrown), Get(body, "id"))))
              && (h.Returned? && h.promise.Rejected? && !(h.promise.reason.Plain? && IsNullish(h.promise.reason.v)) ==>
                    r == Some(ToResponseObj(Wrap(h.promise.reason), Get(body, "id"))))
  {
    match Settle(Invoke(methods, PropertyKey(Get(body, "method")), Get(body, "params")))
    case Fulfilled(v) =>
      Some(Success(Get(body, "id"), Get(body, "jsonrpc"), if IsNullish(v) then Null else v))
    case Rejected(t) =>
      if t.Plain? && IsNullish(t.v) then None
      else Some(GenerateErrorResponse(Get(body, "id"), t))
  }

  /** What one batch element adds: `Crash` when the `forEach` throws on
      it, otherwise its pending responses (none for a valid notification)
      and the `methodManager.call`s it makes. The `forEach` throws when the
      validator throws, and also when the element is `null` or `undefined`
      and the validator returns: reading `.id` of it throws (at line 64 of
      the router for an accepted element, whose `processMethod` promise has
      already rejected on `.method` before reaching a handler, and at line
      76 for a refused one). */
  datatype ElementResult = Crash | Adds(entries: seq<Option<Response>>, calls: seq<Dispatch>)

  function Element(methods: map<string, Method>, config: RouterConfig, elem: Value): (r: ElementResult)
    requires RoutableElement(methods, elem)
    ensures r.Crash? <==> config.validator(elem, config.paramType).Crashed? || IsNullish(elem)
  {
    match config.validator(elem, config.paramType)
    case Crashed => Crash
    case Invalid(ex) =>
      if IsNullish(elem) then Crash
      else Adds([Some(GenerateErrorResponse(Get(elem, "id"), Typed(ex)))], [])
    case Valid =>
      if IsNullish(elem) then Crash
      else
        var call := Dispatch(PropertyKey(Get(elem, "method")), Get(elem, "params"));
        if IsNullish(Get(elem, "id")) then Adds([], [call])
        else Adds([Processed(methods, elem)], [call])
  }

  /** An element the `forEach` gets past is answered with the validator's
      error when refused; when accepted it makes one `methodManager.call`, and it
      is answered with the call's result exactly when it carries an id. */
  lemma ElementOutcome(methods: map<string, Method>, config: RouterConfig, elem: Value)
    requires RoutableElement(methods, elem) && !IsNullish(elem)
    ensures config.validator(elem, config.paramType).Invalid? ==>
              Element(methods, config, elem)
              == Adds([Some(ToResponseObj(config.validator(elem, config.paramType).ex, Get(elem, "id")))], [])
    ensures config.validator(elem, config.paramType).Valid? ==>
              var r := Element(methods, config, elem);
              r.Adds? && r.calls == [Dispatch(PropertyKey(Get(elem, "method")), Get(elem, "params"))]
              && (r.entries == [] <==> IsNullish(Get(elem, "id")))
              && (!IsNullish(Get(elem, "id")) ==> r.entries == [Processed(methods, elem)])
  {
  }

  /** The batch loop after some prefix of the elements: whether the
      `forEach` threw on an element, the pending responses collected so far
      and the `methodManager.call`s made. */
  datatype BatchState = BatchState(crashed: bool, entries: seq<Option<Response>>, calls: seq<Dispatch>)

  /** Some element of `items` makes the `forEach` throw. */
  predicate SomeCrash(methods: map<string, Method>, config: RouterConfig, items: seq<Value>)
    requires forall i :: 0 <= i < |items| ==> RoutableElement(methods, items[i])
  {
    exists i :: 0 <= i < |items| && Element(methods, config, items[i]).Crash?
  }

  function Fold(methods: map<string, Method>, config: RouterConfig, items: seq<Value>): (s: BatchState)
    requires forall i :: 0 <= i < |items| ==> RoutableElement(methods, items[i])
    ensures |s.entries| <= |items| && |s.calls| <= |items|
  {
    if items == [] then BatchState(false, [], [])
    else
      var prev := Fold(methods, config, items[..|items| - 1]);
      if prev.crashed then prev
      else match Element(methods, config, items[|items| - 1])
        case Crash => prev.(crashed := true)
        case Adds(e, c) => BatchState(false, prev.entries + e, prev.calls + c)
  }

  /** The batch loop throws exactly when some element makes the `forEach`
      throw. */
  lemma {:induction false} FoldCrashesIff(methods: map<string, Method>, config: RouterConfig, items: seq<Value>)
    requires forall i :: 0 <= i < |items| ==> RoutableElement(methods, items[i])
    ensures Fold(methods, config, items).crashed <==> SomeCrash(methods, config, items)
  {
    if items != [] {
      var n := |items| - 1;
      PrefixElements(items, n);
      FoldCrashesIff(methods, config, items[..n]);
      SomeCrashLast(methods, config, items);
    }
  }

  lemma SomeCrashLast(methods: map<string, Method>, config: RouterConfig, items: seq<Value>)
    requires forall i :: 0 <= i < |items| ==> RoutableElement(methods, items[i])
    requires items != []
    ensures var n := |items| - 1;
            (forall i :: 0 <= i < n ==> RoutableElement(methods, items[..n][i]))
            && (SomeCrash(methods, config, items)
                <==> SomeCrash(methods, config, items[..n]) || Element(methods, config, items[n]).Crash?)
  {
    var n := |items| - 1;
    var pre := items[..n];
    PrefixElements(items, n);
    if SomeCrash(methods, config, pre) {
      var i :| 0 <= i < |pre| && Element(methods, config, pre[i]).Crash?;
      assert Element(methods, config, items[i]).Crash?;
    }
    if SomeCrash(methods, config, items) && !Element(methods, config, items[n]).Crash? {
      var i :| 0 <= i < |items| && Element(methods, config, items[i]).Crash?;
      assert Element(methods, config, pre[i]).Crash?;
    }
  }

  /** `Promise.all`: rejects when one of the promises rejects, otherwise
      resolves with all the responses in order. */
  function PromiseAll(entries: seq<Option<Response>>): (r: Outcome)
    ensures r.Rejects? <==> exists i :: 0 <= i < |entries| && entries[i].None?
    ensures r.Answered? ==> r.reply.Batch? && |r.reply.responses| == |entries|
                            && forall i :: 0 <= i < |entries| ==> entries[i] == Some(r.reply.responses[i])
  {
    if exists i :: 0 <= i < |entries| && entries[i].None? then Rejects
    else Answered(Batch(seq(|entries|, i requires 0 <= i < |entries| => entries[i].value)))
  }

  const INVALID_BODY_RESPONSE: Response :=
    ToResponseObj(InvalidRequestException(Undefined, None), Null)

  /** `request(body)`. */
  function Route(methods: map<string, Method>, config: RouterConfig, body: Value): (r: Outcome)
    requires Routable(methods, body)
    ensures !Truthy(body) || body == Arr([]) ==> r == Answered(Single(INVALID_BODY_RESPONSE))
    ensures Truthy(body) && !body.Arr? ==>
              (r.Throws? <==> config.validator(body, config.paramType).Crashed?)
    ensures Truthy(body) && !body.Arr? && config.validator(body, config.paramType).Invalid? ==>
              r == Answered(Single(ToResponseObj(config.validator(body, config.paramType).ex, Get(body, "id"))))
    ensures Truthy(body) && !body.Arr? && config.validator(body, config.paramType).Valid? ==>
              (r.Rejects? <==> Processed(methods, body).None?)
              && (r.Answered? ==> r == Answered(Single(Processed(methods, body).value)))
    ensures body.Arr? && body.items != [] ==>
              (r.Throws? <==> exists i :: 0 <= i < |body.items| &&
                                (config.validator(body.items[i], config.paramType).Crashed? || IsNullish(body.items[i])))
    ensures body.Arr? && body.items != [] ==>
              (r.Throws? <==> Fold(methods, config, body.items).crashed)
              && (r.Answered? ==> r.reply.Batch?)
    ensures body.Arr? && body.items != [] && !Fold(methods, config, body.items).crashed ==>
              r == PromiseAll(Fold(methods, config, body.items).entries)
  {
    if Truthy(body) && body.Arr? && |body.items| > 0 then
      FoldCrashesIff(methods, config, body.items);
      var st := Fold(methods, config, body.items);
      if st.crashed then Throws else PromiseAll(st.entries)
    else if Truthy(body) && !body.Arr? then
      match config.validator(body, config.paramType)
      case Crashed => Throws
      case Invalid(ex) => Answered(Single(GenerateErrorResponse(Get(body, "id"), Typed(ex))))
      case Valid =>
        match Processed(methods, body)
        case Some(resp) => Answered(Single(resp))
        case None => Rejects
    else
      Answered(Single(GenerateErrorResponse(Null, Typed(InvalidRequestException(Undefined, None)))))
  }

  /** The `methodManager.call(name, params)` calls `request(body)` makes,
      in order, whether or not the name is registered. */
  function Calls(methods: map<string, Method>, config: RouterConfig, body: Value): (c: seq<Dispatch>)
    requires Routable(methods, body)
    ensures !body.Arr? && !(Truthy(body) && config.validator(body, config.paramType).Valid?) ==> c == []
    ensures !body.Arr? && Truthy(body) && config.validator(body, config.paramType).Valid? ==>
              c == [Dispatch(PropertyKey(Get(body, "method")), Get(body, "params"))]
  {
    if Truthy(body) && body.Arr? && |body.items| > 0 then Fold(methods, config, body.items).calls
    else if Truthy(body) && !body.Arr? && config.validator(body, config.paramType).Valid? then
      [Dispatch(PropertyKey(Get(body, "method")), Get(body, "params"))]
    else []
  }

  /** Once an element has made the validator throw, later elements change
      nothing: they are never looked at. */
  lemma {:induction false} FoldCrashed(methods: map<string, Method>, config: RouterConfig, a: seq<Value>, b: seq<Value>)
    requires forall i :: 0 <= i < |a| ==> RoutableElement(methods, a[i])
    requires forall i :: 0 <= i < |b| ==> RoutableElement(methods, b[i])
    requires Fold(methods, config, a).crashed
    ensures Fold(methods, config, a + b) == Fold(methods, config, a)
  {
    if b != [] {
      var b' := b[..|b| - 1];
      assert (a + b)[..|a + b| - 1] == a + b';
      FoldCrashed(methods, config, a, b');
    } else {
      assert a + b == a;
    }
  }

  /** Responses and `methodManager.call`s of a batch are those of its first part
      followed by those of its second part: the order of the requests is
      the order of the answers. */
  lemma {:induction false} FoldAppend(methods: map<string, Method>, config: RouterConfig, a: seq<Value>, b: seq<Value>)
    requires forall i :: 0 <= i < |a| ==> RoutableElement(methods, a[i])
    requires forall i :: 0 <= i < |b| ==> RoutableElement(methods, b[i])
    requires !Fold(methods, config, a + b).crashed
    ensures !Fold(methods, config, a).crashed && !Fold(methods, config, b).crashed
    ensures Fold(methods, config, a + b).entries == Fold(methods, config, a).entries + Fold(methods, config, b).entries
    ensures Fold(methods, config, a + b).calls == Fold(methods, config, a).calls + Fold(methods, config, b).calls
  {
    if b == [] {
      assert a + b == a;
    } else {
      var b' := b[..|b| - 1];
      var x := b[|b| - 1];
      DropLastOfConcat(a, b);
      FoldAppend(methods, config, a, b');
      var fa, fb', fab' := Fold(methods, config, a), Fold(methods, config, b'), Fold(methods, config, a + b');
      match Element(methods, config, x)
      case Crash =>
        assert false;
      case Adds(e, c) =>
        ConcatAssoc(fa.entries, fb'.entries, e);
        ConcatAssoc(fa.calls, fb'.calls, c);
    }
  }

  lemma FoldSingleton(methods: map<string, Method>, config: RouterConfig, x: Value)
    requires RoutableElement(methods, x)
    ensures Element(methods, config, x).Crash? ==> Fold(methods, config, [x]).crashed
    ensures Element(methods, config, x).Adds? ==>
              Fold(methods, config, [x]) == BatchState(false, Element(methods, config, x).entries, Element(methods, config, x).calls)
  {
    assert [x][..0] == [];
  }

  /** An element the validator refuses is always answered, at its own
      place: after the answers of the elements before it, with its own id
      (`null` when it has none) and the validator's error. */
  lemma InvalidElementAnswered(methods: map<string, Method>, config: RouterConfig, items: seq<Value>, k: nat)
    requires forall i :: 0 <= i < |items| ==> RoutableElement(methods, items[i])
    requires !Fold(methods, config, items).crashed
    requires k < |items| && config.validator(items[k], config.paramType).Invalid?
    ensures var n := |Fold(methods, config, items[..k]).entries|;
            n < |Fold(methods, config, items).entries|
            && Fold(methods, config, items).entries[n]
               == Some(ToResponseObj(config.validator(items[k], config.paramType).ex, Get(items[k], "id")))
  {
    EntriesAtOwnPlace(methods, config, items, k);
    ElementOutcome(methods, config, items[k]);
    var a, mine, b := Fold(methods, config, items[..k]).entries, Element(methods, config, items[k]).entries,
                      Fold(methods, config, items[k + 1..]).entries;
    SliceOfConcat(a, mine, b);
    assert (a + (mine + b))[|a| + 0] == mine[0];
  }

  /** In a batch the `forEach` gets through, the pending responses are
      those of the elements before an element, then its own, then those of
      the elements after it. */
  lemma EntriesAtOwnPlace(methods: map<string, Method>, config: RouterConfig, items: seq<Value>, k: nat)
    requires forall i :: 0 <= i < |items| ==> RoutableElement(methods, items[i])
    requires !Fold(methods, config, items).crashed && k < |items|
    ensures Element(methods, config, items[k]).Adds?
    ensures Fold(methods, config, items).entries
            == Fold(methods, config, items[..k]).entries
               + (Element(methods, config, items[k]).entries + Fold(methods, config, items[k + 1..]).entries)
  {
    SplitAt(items, k);
    FoldAround(methods, config, items[..k], items[k], items[k + 1..]);
  }

  /** The same, split around one element. */
  lemma FoldAround(methods: map<string, Method>, config: RouterConfig, pre: seq<Value>, x: Value, post: seq<Value>)
    requires forall i :: 0 <= i < |pre| ==> RoutableElement(methods, pre[i])
    requires RoutableElement(methods, x)
    requires forall i :: 0 <= i < |post| ==> RoutableElement(methods, post[i])
    requires !Fold(methods, config, pre + ([x] + post)).crashed
    ensures Element(methods, config, x).Adds?
    ensures Fold(methods, config, pre + ([x] + post)).entries
            == Fold(methods, config, pre).entries + (Element(methods, config, x).entries + Fold(methods, config, post).entries)
  {
    FoldAppend(methods, config, pre, [x] + post);
    FoldAppend(methods, config, [x], post);
    FoldSingleton(methods, config, x);
  }

  /** One more element of the batch loop. */
  lemma FoldStep(methods: map<string, Method>, config: RouterConfig, items: seq<Value>, i: nat)
    requires forall j :: 0 <= j < |items| ==> RoutableElement(methods, items[j])
    requires i < |items|
    ensures items[..i + 1] + items[i + 1..] == items
    ensures var prev := Fold(methods, config, items[..i]);
            Fold(methods, config, items[..i + 1])
            == if prev.crashed then prev
               else match Element(methods, config, items[i])
                 case Crash => prev.(crashed := true)
                 case Adds(e, c) => BatchState(false, prev.entries + e, prev.calls + c)
  {
    PrefixStep(items, i);
  }

  lemma PrefixStep<T>(s: seq<T>, i: nat)
    requires i < |s|
    ensures s[..i + 1][..i] == s[..i] && s[..i + 1][i] == s[i] && s[..i + 1] + s[i + 1..] == s
  {
  }

  lemma DropLastOfConcat<T>(a: seq<T>, b: seq<T>)
    requires b != []
    ensures (a + b)[..|a + b| - 1] == a + b[..|b| - 1] && (a + b)[|a + b| - 1] == b[|b| - 1]
  {
  }

  lemma ConcatAssoc<T>(a: seq<T>, b: seq<T>, c: seq<T>)
    ensures (a + b) + c == a + (b + c)
  {
  }

  lemma PrefixElements<T>(s: seq<T>, n: nat)
    requires n <= |s|
    ensures |s[..n]| == n && forall i :: 0 <= i < n ==> s[..n][i] == s[i]
  {
  }

  lemma SplitAt<T>(s: seq<T>, k: nat)
    requires k < |s|
    ensures s == s[..k] + ([s[k]] + s[k + 1..])
  {
  }

  lemma SliceOfConcat<T>(a: seq<T>, m: seq<T>, b: seq<T>)
    ensures |a| + |m| <= |a + (m + b)| && forall j :: 0 <= j < |m| ==> (a + (m + b))[|a| + j] == m[j]
  {
  }

  /** The elements that get an answer: those other than `null` or
      `undefined` that the validator refuses, and valid ones that carry an
      id. */
  predicate Responds(config: RouterConfig, x: Value) {
    var v := config.validator(x, config.paramType);
    !IsNullish(x) && (v.Invalid? || (v.Valid? && !IsNullish(Get(x, "id"))))
  }

  function CountResponding(config: RouterConfig, items: seq<Value>): nat {
    if items == [] then 0
    else CountResponding(config, items[..|items| - 1]) + (if Responds(config, items[|items| - 1]) then 1 else 0)
  }

  /** Notifications get no answer and every other element gets exactly
      one: a batch answers with one response per responding element. */
  lemma {:induction false} BatchAnswerCount(methods: map<string, Method>, config: RouterConfig, items: seq<Value>)
    requires forall i :: 0 <= i < |items| ==> RoutableElement(methods, items[i])
    requires !Fold(methods, config, items).crashed
    ensures |Fold(methods, config, items).entries| == CountResponding(config, items)
  {
    if items != [] {
      var pre := items[..|items| - 1];
      BatchAnswerCount(methods, config, pre);
    }
  }

  /** A notification: an element other than `null` or `undefined` that
      the validator accepts and whose id is `null` or missing. */
  predicate IsNotification(config: RouterConfig, x: Value) {
    !IsNullish(x) && config.validator(x, config.paramType).Valid? && IsNullish(Get(x, "id"))
  }

  /** A batch made only of notifications collects no response and passes
      every element's method and params to `methodManager.call`, in order. */
  lemma {:induction false} NotificationsFold(methods: map<string, Method>, config: RouterConfig, items: seq<Value>)
    requires forall i :: 0 <= i < |items| ==> RoutableElement(methods, items[i])
    requires forall i :: 0 <= i < |items| ==> IsNotification(config, items[i])
    ensures Fold(methods, config, items).entries == [] && !Fold(methods, config, items).crashed
    ensures |Fold(methods, config, items).calls| == |items|
    ensures forall i :: 0 <= i < |items| ==>
              Fold(methods, config, items).calls[i]
              == Dispatch(PropertyKey(Get(items[i], "method")), Get(items[i], "params"))
  {
    if items != [] {
      var pre := items[..|items| - 1];
      NotificationsFold(methods, config, pre);
    }
  }

  /** A batch of notifications is answered with an empty array, yet every
      element is passed to `methodManager.call`. */
  lemma NotificationBatchAnswersEmpty(methods: map<string, Method>, config: RouterConfig, body: Value)
    requires body.Arr? && body.items != [] && Routable(methods, body)
    requires forall i :: 0 <= i < |body.items| ==> IsNotification(config, body.items[i])
    ensures Route(methods, config, body) == Answered(Batch([]))
    ensures |Calls(methods, config, body)| == |body.items|
  {
    NotificationsFold(methods, config, body.items);
    assert PromiseAll([]) == Answered(Batch([]));
  }

  /** A `null` or `undefined` element anywhere in a batch makes
      `request` throw, whatever the validator says about it; `[null]`
      is one such batch. */
  lemma NullishElementThrows(methods: map<string, Method>, config: RouterConfig, body: Value, k: nat)
    requires body.Arr? && Routable(methods, body) && k < |body.items| && IsNullish(body.items[k])
    ensures Route(methods, config, body) == Throws
    ensures Routable(methods, Arr([Null])) && Route(methods, config, Arr([Null])) == Throws
  {
    assert Element(methods, config, body.items[k]).Crash?;
    assert Element(methods, config, Arr([Null]).items[0]).Crash?;
  }

  /** A request whose params are an object, routed with array params and
      the default validator, is answered with an invalid-params error
      carrying its id, and `methodManager.call` is not called. */
  lemma ObjectParamsRefused(methods: map<string, Method>, id: Value)
    requires "test" in methods
    ensures var body := Obj(map["id" := id, "jsonrpc" := Str("2.0"), "method" := Str("test"), "params" := Obj(map[])]);
            Routable(methods, body)
            && Route(methods, RouterConfig(ArrayParams, Validate), body)
               == Answered(Single(ToResponseObj(InvalidParamsException(Undefined, None), id)))
            && Calls(methods, RouterConfig(ArrayParams, Validate), body) == []
  {
    var body := Obj(map["id" := id, "jsonrpc" := Str("2.0"), "method" := Str("test"), "params" := Obj(map[])]);
    assert Get(body, "method") == Str("test");
    assert Get(body, "id") == id;
  }

  /** The reply to a batch that is answered: one response per element
      that responds, and an element the validator refuses answered at its
      own place, after the answers of the elements before it. */
  lemma BatchReply(methods: map<string, Method>, config: RouterConfig, body: Value, k: nat)
    requires body.Arr? && body.items != [] && Routable(methods, body)
    requires Route(methods, config, body).Answered?
    requires k < |body.items| && config.validator(body.items[k], config.paramType).Invalid?
    ensures var rs := Route(methods, config, body).reply.responses;
            |rs| == CountResponding(config, body.items)
            && |Fold(methods, config, body.items[..k]).entries| < |rs|
            && rs[|Fold(methods, config, body.items[..k]).entries|]
               == ToResponseObj(config.validator(body.items[k], config.paramType).ex, Get(body.items[k], "id"))
  {
    BatchAnswerCount(methods, config, body.items);
    InvalidElementAnswered(methods, config, body.items, k);
  }

  /** A handler returning `true` is answered with that result, and a
      method nobody registered with method-not-found, both with the
      request's id. */
  lemma ProcessedExamples(methods: map<string, Method>)
    requires "test" in methods && "foo" !in methods
    requires methods["test"]([Num(1), Num(2), Num(3)]) == Returned(Fulfilled(Bool(true)))
    ensures Processed(methods, Obj(map["id" := Num(9), "jsonrpc" := Str("2.0"), "method" := Str("test"),
                                       "params" := Arr([Num(1), Num(2), Num(3)])]))
            == Some(Success(Num(9), Str("2.0"), Bool(true)))
    ensures Processed(methods, Obj(map["id" := Num(10), "jsonrpc" := Str("2.0"), "method" := Str("foo"),
                                       "params" := Arr([])]))
            == Some(ToResponseObj(MethodNotFoundException(Undefined, None), Num(10)))
  {
    var b1 := Obj(map["id" := Num(9), "jsonrpc" := Str("2.0"), "method" := Str("test"),
                      "params" := Arr([Num(1), Num(2), Num(3)])]);
    assert Get(b1, "method") == Str("test");
    var b2 := Obj(map["id" := Num(10), "jsonrpc" := Str("2.0"), "method" := Str("foo"), "params" := Arr([])]);
    assert Get(b2, "method") == Str("foo");
  }

  /** A batch of a call that succeeds, a call with object params and a call
      whose handler throws `Error("error inline")` is answered with the
      three responses in request order. */
  lemma BatchExample(methods: map<string, Method>, stack: string)
    requires "test" in methods && "throwable" in methods
    requires methods["test"]([]) == Returned(Fulfilled(Bool(true)))
    requires methods["throwable"]([Str("error inline")]) == ThrewSync(Plain(ErrorObj("Error", "error inline", stack)))
    ensures var e0 := Obj(map["id" := Num(14), "jsonrpc" := Str("2.0"), "method" := Str("test"), "params" := Arr([])]);
            var e1 := Obj(map["id" := Num(15), "jsonrpc" := Str("2.0"), "method" := Str("foo"), "params" := Obj(map[])]);
            var e2 := Obj(map["id" := Num(16), "jsonrpc" := Str("2.0"), "method" := Str("throwable"),
                              "params" := Arr([Str("error inline")])]);
            Routable(methods, Arr([e0, e1, e2]))
            && Route(methods, RouterConfig(ArrayParams, Validate), Arr([e0, e1, e2]))
               == Answered(Batch([Success(Num(14), Str("2.0"), Bool(true)),
                                  ToResponseObj(InvalidParamsException(Undefined, None), Num(15)),
                                  ToResponseObj(InternalErrorException(ErrorObj("Error", "error inline", stack), None), Num(16))]))
  {
    var config := RouterConfig(ArrayParams, Validate);
    var e0 := Obj(map["id" := Num(14), "jsonrpc" := Str("2.0"), "method" := Str("test"), "params" := Arr([])]);
    var e1 := Obj(map["id" := Num(15), "jsonrpc" := Str("2.0"), "method" := Str("foo"), "params" := Obj(map[])]);
    var e2 := Obj(map["id" := Num(16), "jsonrpc" := Str("2.0"), "method" := Str("throwable"),
                      "params" := Arr([Str("error inline")])]);
    var r0 := Success(Num(14), Str("2.0"), Bool(true));
    var r1 := ToResponseObj(InvalidParamsException(Undefined, None), Num(15));
    var r2 := ToResponseObj(InternalErrorException(ErrorObj("Error", "error inline", stack), None), Num(16));
    BatchExampleFirst(methods);
    BatchExampleSecond(methods);
    BatchExampleThird(methods, stack);
    RouteOfThree(methods, config, e0, e1, e2, r0, r1, r2);
  }

  /** Three elements that each add one response collect the three, in
      order. */
  lemma FoldOfThree(methods: map<string, Method>, config: RouterConfig, e0: Value, e1: Value, e2: Value,
                    r0: Response, r1: Response, r2: Response)
    requires RoutableElement(methods, e0) && RoutableElement(methods, e1) && RoutableElement(methods, e2)
    requires Element(methods, config, e0).Adds? && Element(methods, config, e0).entries == [Some(r0)]
    requires Element(methods, config, e1).Adds? && Element(methods, config, e1).entries == [Some(r1)]
    requires Element(methods, config, e2).Adds? && Element(methods, config, e2).entries == [Some(r2)]
    ensures !Fold(methods, config, [e0, e1, e2]).crashed
    ensures Fold(methods, config, [e0, e1, e2]).entries == [Some(r0), Some(r1), Some(r2)]
  {
    var items := [e0, e1, e2];
    assert items[..2] == [e0, e1] && [e0, e1][..1] == [e0] && [e0][..0] == [];
    assert Fold(methods, config, [e0]).entries == [Some(r0)];
    assert Fold(methods, config, [e0, e1]).entries == [Some(r0), Some(r1)];
  }

  /** A batch of three elements that each add one response is answered
      with the three, in order. */
  lemma RouteOfThree(methods: map<string, Method>, config: RouterConfig, e0: Value, e1: Value, e2: Value,
                     r0: Response, r1: Response, r2: Response)
    requires RoutableElement(methods, e0) && RoutableElement(methods, e1) && RoutableElement(methods, e2)
    requires Element(methods, config, e0).Adds? && Element(methods, config, e0).entries == [Some(r0)]
    requires Element(methods, config, e1).Adds? && Element(methods, config, e1).entries == [Some(r1)]
    requires Element(methods, config, e2).Adds? && Element(methods, config, e2).entries == [Some(r2)]
    ensures Routable(methods, Arr([e0, e1, e2])) && Route(methods, config, Arr([e0, e1, e2])) == Answered(Batch([r0, r1, r2]))
  {
    FoldOfThree(methods, config, e0, e1, e2, r0, r1, r2);
    PromiseAllOfThree(r0, r1, r2);
    assert Arr([e0, e1, e2]).items == [e0, e1, e2];
  }

  lemma PromiseAllOfThree(r0: Response, r1: Response, r2: Response)
    ensures PromiseAll([Some(r0), Some(r1), Some(r2)]) == Answered(Batch([r0, r1, r2]))
  {
    assert PromiseAll([Some(r0), Some(r1), Some(r2)]).reply.responses == [r0, r1, r2];
  }

  /** The first element of the batch above: a call that succeeds. */
  lemma BatchExampleFirst(methods: map<string, Method>)
    requires "test" in methods
    requires methods["test"]([]) == Returned(Fulfilled(Bool(true)))
    ensures var e0 := Obj(map["id" := Num(14), "jsonrpc" := Str("2.0"), "method" := Str("test"), "params" := Arr([])]);
            RoutableElement(methods, e0)
            && Element(methods, RouterConfig(ArrayParams, Validate), e0)
               == Adds([Some(Success(Num(14), Str("2.0"), Bool(true)))], [Dispatch("test", Arr([]))])
  {
    var e0 := Obj(map["id" := Num(14), "jsonrpc" := Str("2.0"), "method" := Str("test"), "params" := Arr([])]);
    assert Get(e0, "method") == Str("test") && Get(e0, "id") == Num(14) && Get(e0, "params") == Arr([]);
  }

  /** The second element: object params, refused by the validator. */
  lemma BatchExampleSecond(methods: map<string, Method>)
    ensures var e1 := Obj(map["id" := Num(15), "jsonrpc" := Str("2.0"), "method" := Str("foo"), "params" := Obj(map[])]);
            RoutableElement(methods, e1)
            && Element(methods, RouterConfig(ArrayParams, Validate), e1)
               == Adds([Some(ToResponseObj(InvalidParamsException(Undefined, None), Num(15)))], [])
  {
    var e1 := Obj(map["id" := Num(15), "jsonrpc" := Str("2.0"), "method" := Str("foo"), "params" := Obj(map[])]);
    assert Get(e1, "method") == Str("foo") && Get(e1, "id") == Num(15) && Get(e1, "params") == Obj(map[]);
  }

  /** The third element: a handler that throws `Error("error inline")`. */
  lemma BatchExampleThird(methods: map<string, Method>, stack: string)
    requires "throwable" in methods
    requires methods["throwable"]([Str("error inline")]) == ThrewSync(Plain(ErrorObj("Error", "error inline", stack)))
    ensures var e2 := Obj(map["id" := Num(16), "jsonrpc" := Str("2.0"), "method" := Str("throwable"),
                              "params" := Arr([Str("error inline")])]);
            RoutableElement(methods, e2)
            && Element(methods, RouterConfig(ArrayParams, Validate), e2)
               == Adds([Some(ToResponseObj(InternalErrorException(ErrorObj("Error", "error inline", stack), None), Num(16)))],
                       [Dispatch("throwable", Arr([Str("error inline")]))])
  {
    var e2 := Obj(map["id" := Num(16), "jsonrpc" := Str("2.0"), "method" := Str("throwable"),
                      "params" := Arr([Str("error inline")])]);
    assert Get(e2, "method") == Str("throwable") && Get(e2, "id") == Num(16);
    assert Get(e2, "params") == Arr([Str("error inline")]);
  }

  class RouterManager {
    const methodManager: MethodManager
    const config: RouterConfig

    constructor(methodManager: MethodManager, config: RouterConfig)
      ensures this.methodManager == methodManager && this.config == config
    {
      this.methodManager := methodManager;
      this.config := config;
    }

    /** `processMethod(body)`: calls the handler and builds the success or
        error response. */
    method ProcessMethod(body: Value) returns (r: Option<Response>)
      requires RoutableElement(methodManager.methods, body)
      ensures r == Processed(methodManager.methods, body)
    {
      var inv, _ := methodManager.Call(PropertyKey(Get(body, "method")), Get(body, "params"));
      if inv.Returned? && inv.promise.Fulfilled? {
        var data := inv.promise.value;
        return Some(Success(Get(body, "id"), Get(body, "jsonrpc"), if IsNullish(data) then Null else data));
      }
      var error := if inv.ThrewSync? then inv.thrown else inv.promise.reason;
      if error.Plain? && IsNullish(error.v) {
        return None;
      }
      r := Some(GenerateErrorResponse(Get(body, "id"), error));
    }

    /** The `forEach` over a non-empty batch: validates each element in
        order, starts the calls of valid ones and collects the pending
        responses, until the `forEach` throws: on an element the validator
        throws on, or on a `null` or `undefined` element. */
    method CollectBatch(items: seq<Value>) returns (crashed: bool, responseList: seq<Option<Response>>, calls: seq<Dispatch>)
      requires forall i :: 0 <= i < |items| ==> RoutableElement(methodManager.methods, items[i])
      ensures BatchState(crashed, responseList, calls) == Fold(methodManager.methods, config, items)
    {
      responseList, calls := [], [];
      var i := 0;
      while i < |items|
        invariant 0 <= i <= |items|
        invariant Fold(methodManager.methods, config, items[..i]) == BatchState(false, responseList, calls)
      {
        var elem := items[i];
        FoldStep(methodManager.methods, config, items, i);
        var validation := config.validator(elem, config.paramType);
        if validation.Crashed? || IsNullish(elem) {
          FoldCrashed(methodManager.methods, config, items[..i + 1], items[i + 1..]);
          return true, responseList, calls;
        } else if validation.Valid? {
          var promise := ProcessMethod(elem);
          ElementOutcome(methodManager.methods, config, elem);
          calls := calls + [Dispatch(PropertyKey(Get(elem, "method")), Get(elem, "params"))];
          if !IsNullish(Get(elem, "id")) {
            responseList := responseList + [promise];
          }
        } else {
          responseList := responseList + [Some(GenerateErrorResponse(Get(elem, "id"), Typed(validation.ex)))];
        }
        i := i + 1;
      }
      assert items[..i] == items;
      crashed := false;
    }

    /** `request(body)`: the outcome and the `methodManager.call`s made. */
    method Request(body: Value) returns (out: Outcome, calls: seq<Dispatch>)
      requires Routable(methodManager.methods, body)
      ensures out == Route(methodManager.methods, config, body)
      ensures calls == Calls(methodManager.methods, config, body)
    {
      calls := [];
      if Truthy(body) {
        if body.Arr? {
          if |body.items| > 0 {
            var crashed, responseList;
            crashed, responseList, calls := CollectBatch(body.items);
            if crashed {
              return Throws, calls;
            }
            return PromiseAll(responseList), calls;
          }
        } else {
          var validation := config.validator(body, config.paramType);
          if validation.Valid? {
            var r := ProcessMethod(body);
            calls := [Dispatch(PropertyKey(Get(body, "method")), Get(body, "params"))];
            return if r.Some? then Answered(Single(r.value)) else Rejects, calls;
          } else if validation.Crashed? {
            return Throws, calls;
          }
          return Answered(Single(GenerateErrorResponse(Get(body, "id"), Typed(validation.ex)))), calls;
        }
      }
      out := Answered(Single(GenerateErrorResponse(Null, Typed(InvalidRequestException(Undefined, None)))));
    }
  }
}
