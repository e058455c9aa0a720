/** The middleware chain every adapter runs before handing a request to the
    server: an ordered list of functions, each of which may pass control
    (and an error) to the next one, stop, or throw. */
module Middlewares {
  import opened Json
  import opened Optional
  import opened Exceptions
  import opened Transport

  /** An error travelling along the chain: the `SyntaxError` of a body that
      is not JSON, one of the server's exceptions, or any other `Error`. */
  datatype MwError = SyntaxError | JrpcError(ex: JrpcException) | OtherError(name: string, message: string)

  /** How a middleware ends: it calls `next(error)` (`None` for `next()`),
      returns without calling `next`, or throws. */
  datatype Flow = Next(error: Option<MwError>) | Halt | Raise(thrown: MwError)

  /** What a middleware does: the replies it sends, then how it ends. */
  datatype Step = Step(sends: seq<SendBody>, flow: Flow)

  /** What a middleware sees of the request: its HTTP method, if any, and
      its decoded body. */
  datatype RequestInfo = RequestInfo(httpMethod: Option<string>, body: Value)

  type MiddlewareFn = (Option<MwError>, RequestInfo) -> Step

  /** The reply the terminal handler sends for an error other than a
      `SyntaxError`: the error itself. */
  function ErrorReply(e: MwError): SendBody
    requires !e.SyntaxError?
  {
    match e
    case JrpcError(ex) => OneException(ex)
    case OtherError(name, message) => OneError(name, message)
  }

  /** The handler `execute` appends after the registered middlewares. */
  function Terminal(error: Option<MwError>, req: RequestInfo): (s: Step)
    ensures error.None? ==> s == Step([], Next(None))
    ensures error == Some(SyntaxError) ==>
              s == Step([OneException(ParseErrorException(Undefined, None))],
                        Next(Some(JrpcError(ParseErrorException(Undefined, None)))))
    ensures error.Some? && error.value.JrpcError? ==>
              s == Step([OneException(error.value.ex)], Next(error))
    ensures error.Some? && error.value.OtherError? ==>
              s == Step([OneError(error.value.name, error.value.message)], Next(error))
  {
    match error
    case None => Step([], Next(None))
    case Some(SyntaxError) =>
      Step([OneException(ParseErrorException(Undefined, None))],
           Next(Some(JrpcError(ParseErrorException(Undefined, None)))))
    case Some(e) => Step([ErrorReply(e)], Next(error))
  }

  /** Where the chain stops: everything sent along the way, and the error
      recorded last. */
  datatype RunResult = RunResult(sent: seq<SendBody>, error: Option<MwError>)

  /** The chain from position `k` on, entered with `error`. */
  function Run(chain: seq<MiddlewareFn>, k: nat, error: Option<MwError>, req: RequestInfo): (r: RunResult)
    ensures k >= |chain| ==> r == RunResult([], error)
    ensures k < |chain| ==> chain[k](error, req).sends <= r.sent
    ensures k < |chain| && !chain[k](error, req).flow.Next? ==> r.sent == chain[k](error, req).sends
    ensures k < |chain| && chain[k](error, req).flow.Halt? ==> r.error == error
    ensures k < |chain| && chain[k](error, req).flow.Raise? ==> r.error == Some(chain[k](error, req).flow.thrown)
    decreases |chain| - k
  {
    if k >= |chain| then RunResult([], error)
    else
      var step := chain[k](error, req);
      match step.flow
      case Next(e) =>
        var rest := Run(chain, k + 1, e, req);
        RunResult(step.sends + rest.sent, rest.error)
      case Halt => RunResult(step.sends, error)
      case Raise(e) => RunResult(step.sends, Some(e))
  }

  /** What `execute` does with the registered middlewares `mws`. */
  function Execution(mws: seq<MiddlewareFn>, req: RequestInfo, baseError: Option<MwError>): (r: RunResult)
    ensures mws == [] ==> r == RunResult(Terminal(baseError, req).sends, Terminal(baseError, req).flow.error)
    ensures mws != [] ==> mws[0](baseError, req).sends <= r.sent
  {
    assert (mws + [Terminal])[|mws|] == Terminal;
    Run(mws + [Terminal], 0, baseError, req)
  }

  /** A middleware that does nothing but pass its error on. */
  ghost predicate PassesThrough(f: MiddlewareFn, req: RequestInfo) {
    forall e: Option<MwError> :: f(e, req) == Step([], Next(e))
  }

  lemma {:induction false} PassThroughPrefix(chain: seq<MiddlewareFn>, k: nat, n: nat, error: Option<MwError>, req: RequestInfo)
    requires k <= n <= |chain|
    requires forall i :: k <= i < n ==> PassesThrough(chain[i], req)
    ensures Run(chain, k, error, req) == Run(chain, n, error, req)
    decreases n - k
  {
    if k < n {
      assert chain[k](error, req) == Step([], Next(error));
      PassThroughPrefix(chain, k + 1, n, error, req);
      assert Run(chain, k, error, req).sent == [] + Run(chain, k + 1, error, req).sent;
    }
  }

  /** Through middlewares that only pass errors on, an error reaches the
      terminal handler: a `SyntaxError` is answered with a parse error,
      any other error is sent as it is, and `execute` reports failure; with
      no error nothing is sent and `execute` reports success. */
  lemma ErrorReachesTerminal(mws: seq<MiddlewareFn>, req: RequestInfo, baseError: Option<MwError>)
    requires forall i :: 0 <= i < |mws| ==> PassesThrough(mws[i], req)
    ensures baseError.None? ==> Execution(mws, req, baseError) == RunResult([], None)
    ensures baseError == Some(SyntaxError) ==>
              Execution(mws, req, baseError)
              == RunResult([OneException(ParseErrorException(Undefined, None))],
                           Some(JrpcError(ParseErrorException(Undefined, None))))
    ensures baseError.Some? && !baseError.value.SyntaxError? ==>
              Execution(mws, req, baseError) == RunResult([ErrorReply(baseError.value)], baseError)
  {
    var chain := mws + [Terminal];
    PassThroughPrefix(chain, 0, |mws|, baseError, req);
    assert chain[|mws|] == Terminal;
    var step := Terminal(baseError, req);
    assert Run(chain, |mws|, baseError, req).sent == step.sends + [];
  }

  /** A middleware that stops the chain without calling `next` or throwing
      still lets `execute` report success when no error was pending, even
      though later middlewares never ran. */
  lemma HaltWithoutErrorSucceeds(mws: seq<MiddlewareFn>, req: RequestInfo)
    requires |mws| > 0 && mws[0](None, req).flow.Halt?
    ensures Execution(mws, req, None) == RunResult(mws[0](None, req).sends, None)
  {
    assert (mws + [Terminal])[0] == mws[0];
  }

  /** A middleware that throws, reached through middlewares that only pass
      errors on, ends the chain with its own replies and the thrown error
      recorded, so `execute` reports failure whatever was pending. */
  lemma RaiseMakesExecuteFail(mws: seq<MiddlewareFn>, req: RequestInfo, baseError: Option<MwError>, i: nat)
    requires i < |mws|
    requires forall j :: 0 <= j < i ==> PassesThrough(mws[j], req)
    requires mws[i](baseError, req).flow.Raise?
    ensures Execution(mws, req, baseError)
            == RunResult(mws[i](baseError, req).sends, Some(mws[i](baseError, req).flow.thrown))
    ensures !Execution(mws, req, baseError).error.None?
  {
    var chain := mws + [Terminal];
    assert forall j :: 0 <= j < i ==> chain[j] == mws[j];
    PassThroughPrefix(chain, 0, i, baseError, req);
    assert chain[i] == mws[i];
  }

  class Middleware {
    /** The registered middlewares, in order. */
    var middlewares: seq<MiddlewareFn>

    constructor()
      ensures middlewares == []
    {
      middlewares := [];
    }

    /** `clear()`. */
    method Clear()
      modifies this
      ensures middlewares == []
    {
      middlewares := [];
    }

    /** `addFirst(fn)`: `fn` runs before every registered middleware. */
    method AddFirst(fn: MiddlewareFn)
      modifies this
      ensures middlewares == [fn] + old(middlewares)
    {
      middlewares := [fn] + middlewares;
    }

    /** `add(fn)`: `fn` runs after every registered middleware. */
    method Add(fn: MiddlewareFn)
      modifies this
      ensures middlewares == old(middlewares) + [fn]
    {
      middlewares := middlewares + [fn];
    }

    /** `execute(req, res, baseError)`: runs a snapshot of the list, then the
        terminal handler, one function at a time as long as each calls
        `next`; reports whether no error was recorded where it stopped.
        The list itself is left as it is. */
    method Execute(req: RequestInfo, baseError: Option<MwError>) returns (sent: seq<SendBody>, executedAll: bool)
      ensures sent == Execution(middlewares, req, baseError).sent
      ensures executedAll <==> Execution(middlewares, req, baseError).error.None?
    {
      var chain := middlewares + [Terminal];
      var index := 0;
      var err := baseError;
      var stopped := false;
      sent := [];
      while index < |chain| && !stopped
        invariant 0 <= index <= |chain|
        invariant !stopped ==>
                    Execution(middlewares, req, baseError)
                    == RunResult(sent + Run(chain, index, err, req).sent, Run(chain, index, err, req).error)
        invariant stopped ==> Execution(middlewares, req, baseError) == RunResult(sent, err)
        decreases |chain| - index, if stopped then 0 else 1
      {
        var fn := chain[index];
        index := index + 1;
        var step := fn(err, req);
        match step.flow
        case Next(e) =>
          assert sent + Run(chain, index - 1, err, req).sent == (sent + step.sends) + Run(chain, index, e, req).sent;
          err := e;
          sent := sent + step.sends;
        case Halt =>
          sent := sent + step.sends;
          stopped := true;
        case Raise(e) =>
          sent := sent + step.sends;
          err := Some(e);
          stopped := true;
      }
      if !stopped {
        assert sent + [] == sent;
      }
      executedAll := err.None?;
    }
  }
}
