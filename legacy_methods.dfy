/** The method registry of the older API. Its `exists` holds for every name,
    so `call` never reports an unknown method itself. */
module LegacyMethods {
  import opened Json
  import opened Optional
  import opened LegacyErrors
  import opened MethodRegistry

  /** What calling a registered function does: it returns a value (or a
      promise that fulfils with it), returns a promise that rejects, or
      throws. Handlers are taken to fail with `Error` objects. */
  datatype LegacyInvocation = ReturnsValue(value: Value) | ReturnsRejected(reason: LegacyError) | ThrowsError(error: LegacyError)

  type LegacyCallback = seq<Value> -> LegacyInvocation

  /** How `call` ends: the promise it returns fulfils or rejects, or it
      throws before returning one. */
  datatype CallOutcome = Fulfills(value: Value) | RejectsWith(reason: LegacyError) | Throws(error: LegacyError)

  /** `s.indexOf(x)`. */
  function IndexOf(s: seq<string>, x: string): (i: int)
    ensures -1 <= i < |s|
    ensures i == -1 <==> x !in s
    ensures i >= 0 ==> s[i] == x && x !in s[..i]
  {
    if s == [] then -1
    else if s[0] == x then 0
    else
      var j := IndexOf(s[1..], x);
      assert s[1..][..if j >= 0 then j else 0] == s[1..if j >= 0 then j + 1 else 1];
      if j == -1 then -1 else j + 1
  }

  /** The internal error a synchronous failure other than an `RpcError`
      is turned into: the call's name and arguments as data, the failure
      as parent. */
  function WrappedFailure(name: string, args: seq<Value>, e: LegacyError): (w: LegacyError)
    ensures w.RpcError? && w.code == RpcErrorCode(INTERNAL_ERROR) && w.message == RpcErrorMessage(INTERNAL_ERROR)
    ensures w.httpStatusCode == 500
    ensures w.parent == Some(e)
    ensures w.data == Obj(map["method" := Str(name), "params" := Arr(args)])
  {
    FromJson(RpcErrorJson(Some(RpcErrorCode(INTERNAL_ERROR)), Some(RpcErrorMessage(INTERNAL_ERROR)),
                          Obj(map["method" := Str(name), "params" := Arr(args)]), Some(e)))
  }

  /** The TypeError of calling `undefined`. */
  const NOT_A_FUNCTION_MESSAGE: string := "fn is not a function"

  class Methods {
    /** The registered functions. */
    var methods: map<string, LegacyCallback>
    /** Their names, in insertion order. */
    var order: seq<string>

    ghost predicate Valid()
      reads this
    {
      ListsKeys(order, methods)
    }

    constructor()
      ensures Valid() && methods == map[] && order == []
    {
      methods := map[];
      order := [];
    }

    /** `add(method, fn)`: stores or replaces the function and returns the
        registry. The key "__proto__" would set the prototype instead. */
    method Add(name: string, fn: LegacyCallback) returns (self: Methods)
      requires Valid()
      requires name != "__proto__"
      modifies this
      ensures Valid() && self == this
      ensures methods == old(methods)[name := fn]
      ensures order == if name in old(methods) then old(order) else old(order) + [name]
    {
      if name !in methods {
        order := order + [name];
      }
      methods := methods[name := fn];
      return this;
    }

    /** `names()`: every registered name once. */
    function Names(): (r: seq<string>)
      reads this
      requires Valid()
      ensures Distinct(r)
      ensures forall n :: n in r <==> n in methods
      ensures |r| == |methods|
    {
      DistinctCardinality(order, methods.Keys);
      order
    }

    /** `exists(method)`: `indexOf` is never below -1, so every name
        "exists", registered or not. */
    function Exists(name: string): (b: bool)
      reads this
      requires Valid()
      ensures b
    {
      IndexOf(Names(), name) >= -1
    }

    /** `call(method, ...args)`. It never throws: the not-found branch,
        which would throw synchronously, is dead. An unregistered name makes the call of `undefined` throw a
        TypeError (with the engine's stack text `stack`), which is wrapped
        like any other synchronous failure; an `RpcError` thrown
        synchronously and any rejection pass through as they are. */
    method Call(name: string, args: seq<Value>, stack: string) returns (r: CallOutcome)
      requires Valid()
      requires name in methods || name !in PrototypeNames
      ensures !r.Throws?
      ensures name !in methods ==>
                r == RejectsWith(WrappedFailure(name, args, PlainError(NOT_A_FUNCTION_MESSAGE, stack)))
      ensures name in methods && methods[name](args).ReturnsValue? ==>
                r == Fulfills(methods[name](args).value)
      ensures name in methods && methods[name](args).ReturnsRejected? ==>
                r == RejectsWith(methods[name](args).reason)
      ensures name in methods && methods[name](args).ThrowsError? && methods[name](args).error.RpcError? ==>
                r == RejectsWith(methods[name](args).error)
      ensures name in methods && methods[name](args).ThrowsError? && !methods[name](args).error.RpcError? ==>
                r == RejectsWith(WrappedFailure(name, args, methods[name](args).error))
    {
      if !Exists(name) {
        r := Throws(FromJson(RpcErrorJson(Some(RpcErrorCode(METHOD_NOT_FOUND)), Some(RpcErrorMessage(METHOD_NOT_FOUND)), Undefined, None)));
        return;
      }
      var outcome: LegacyInvocation;
      if name in methods {
        outcome := methods[name](args);
      } else {
        outcome := ThrowsError(PlainError(NOT_A_FUNCTION_MESSAGE, stack));
      }
      match outcome
      case ReturnsValue(v) =>
        r := Fulfills(v);
      case ReturnsRejected(e) =>
        r := RejectsWith(e);
      case ThrowsError(e) =>
        r := RejectsWith(if e.RpcError? then e else WrappedFailure(name, args, e));
    }
  }
}
