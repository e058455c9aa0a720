/** The transport-independent part of an adapter: its middleware chain, the
    function the server registers, and the gate between the two. */
module Adapters {
  import opened Optional
  import opened Transport
  import opened Middlewares

  /** Whether `newRequest` called the registered function. `MissingHandler`
      is the TypeError of calling it when none was registered. */
  datatype HandlerCall<H> = NotCalled | Called(handler: H) | MissingHandler

  /** The handler a request reaches once the chain has ended the way it
      did. */
  function Gate<H>(chainResult: RunResult, registerFn: Option<H>): (c: HandlerCall<H>)
    ensures chainResult.error.Some? ==> c.NotCalled?
    ensures chainResult.error.None? && registerFn.Some? ==> c == Called(registerFn.value)
    ensures chainResult.error.None? && registerFn.None? ==> c.MissingHandler?
  {
    if chainResult.error.Some? then NotCalled
    else if registerFn.Some? then Called(registerFn.value)
    else MissingHandler
  }

  class Adapter<H> {
    /** The adapter's middleware chain. */
    const middleware: Middleware
    /** The function the server registered; rejections from it are
        swallowed by `newRequest`. */
    var registerFn: Option<H>

    constructor()
      ensures fresh(middleware) && middleware.middlewares == [] && registerFn.None?
    {
      middleware := new Middleware();
      registerFn := None;
    }

    /** `use(fn)`: appends a middleware and returns the adapter. */
    method Use(fn: MiddlewareFn) returns (self: Adapter<H>)
      modifies middleware
      ensures self == this
      ensures middleware.middlewares == old(middleware.middlewares) + [fn]
    {
      middleware.Add(fn);
      return this;
    }

    /** `register(fn)`: replaces the registered function. */
    method Register(fn: H) returns (self: Adapter<H>)
      modifies this
      ensures self == this && registerFn == Some(fn)
    {
      registerFn := Some(fn);
      return this;
    }

    /** `newRequest(req, res, error)`: runs the chain, then the registered
        function only when the chain reported success. */
    method NewRequest(req: RequestInfo, baseError: Option<MwError>) returns (sent: seq<SendBody>, call: HandlerCall<H>)
      ensures sent == Execution(middleware.middlewares, req, baseError).sent
      ensures call == Gate(Execution(middleware.middlewares, req, baseError), registerFn)
    {
      var executedAllMiddlewares;
      sent, executedAllMiddlewares := middleware.Execute(req, baseError);
      if executedAllMiddlewares {
        call := if registerFn.Some? then Called(registerFn.value) else MissingHandler;
      } else {
        call := NotCalled;
      }
    }
  }
}
