/** The method registry: named handlers, looked up by the router and called
    with the request's params. */
module MethodRegistry {
  import opened Json
  import opened Optional
  import opened Exceptions

  /** How a promise ends. */
  datatype Settled = Fulfilled(value: Value) | Rejected(reason: Thrown)

  /** What calling a handler does: it returns (a value or a promise, which
      then settles) or throws before returning. */
  datatype Invocation = Returned(promise: Settled) | ThrewSync(thrown: Thrown)

  /** A registered handler, called with its positional arguments. */
  type Method = seq<Value> -> Invocation

  /** Names every plain JavaScript object inherits from `Object.prototype`.
      A lookup of one of them in the handler table finds a built-in function
      unless a handler of that name is registered; those lookups are not
      modelled. */
  const PrototypeNames: set<string> :=
    {"constructor", "hasOwnProperty", "isPrototypeOf", "propertyIsEnumerable",
     "toLocaleString", "toString", "valueOf", "__proto__", "__defineGetter__",
     "__defineSetter__", "__lookupGetter__", "__lookupSetter__"}

  /** A lookup of `key` in the handler table finds a registered handler or
      nothing, never an inherited built-in. */
  predicate Resolvable(methods: map<string, Method>, key: string) {
    key in methods || key !in PrototypeNames
  }

  /** The property key a request's "method" value is looked up under:
      JavaScript converts it with `String(v)`. */
  function PropertyKey(v: Value): string {
    JsString(v)
  }

  /** The arguments a handler receives: the elements of an array params,
      otherwise the params value itself as the only argument. */
  function SpreadArgs(params: Value): (args: seq<Value>)
    ensures params.Arr? ==> args == params.items
    ensures !params.Arr? ==> args == [params]
  {
    if params.Arr? then params.items else [params]
  }

  /** What calling `name` with `params` does against the table `methods`. */
  function Invoke(methods: map<string, Method>, name: string, params: Value): (r: Invocation)
    requires Resolvable(methods, name)
    ensures name !in methods ==> r == ThrewSync(Typed(MethodNotFoundException(Undefined, None)))
    ensures name in methods && params.Arr? ==> r == methods[name](params.items)
    ensures name in methods && !params.Arr? ==> r == methods[name]([params])
  {
    if name !in methods then ThrewSync(Typed(MethodNotFoundException(Undefined, None)))
    else methods[name](SpreadArgs(params))
  }

  /** What `await` on a call sees inside a `try`: a synchronous throw and a
      rejection both arrive as the thrown value, unchanged. */
  function Settle(inv: Invocation): (s: Settled)
    ensures inv.ThrewSync? ==> s == Rejected(inv.thrown)
    ensures inv.Returned? ==> s == inv.promise
  {
    match inv
    case Returned(p) => p
    case ThrewSync(t) => Rejected(t)
  }

  /** The error a non-protocol failure is reported as: a JRPC exception
      stays as it is, anything else becomes an internal error carrying the
      original value as its data. */
  function Wrap(t: Thrown): (e: JrpcException)
    ensures t.Typed? ==> e == t.ex
    ensures t.Plain? ==> e.code == INTERNAL_ERROR_CODE && e.message == INTERNAL_ERROR_MESSAGE && e.data == t.v
  {
    match t
    case Typed(ex) => ex
    case Plain(v) => InternalErrorException(v, None)
  }

  /** The side chain `call` attaches to a returned promise: when that
      promise rejects, the chain rethrows the wrapped error and nobody
      handles it. */
  function Detached(inv: Invocation): (u: Option<JrpcException>)
    ensures u.Some? <==> inv.Returned? && inv.promise.Rejected?
    ensures u.Some? ==> u.value == Wrap(inv.promise.reason)
  {
    if inv.Returned? && inv.promise.Rejected? then Some(Wrap(inv.promise.reason)) else None
  }

  predicate Distinct(s: seq<string>) {
    forall i, j :: 0 <= i < j < |s| ==> s[i] != s[j]
  }

  /** `order` lists the own keys of `table`, each once: what `Object.keys`
      returns for a handler table. */
  ghost predicate ListsKeys<V>(order: seq<string>, table: map<string, V>) {
    Distinct(order) && forall n :: n in order <==> n in table
  }

  /** `s` with every occurrence of `x` removed, order kept. */
  function Without(s: seq<string>, x: string): (r: seq<string>)
    ensures forall n :: n in r <==> n in s && n != x
    ensures |r| <= |s|
    ensures Distinct(s) ==> Distinct(r)
    ensures x !in s ==> r == s
  {
    if s == [] then []
    else
      var rest := Without(s[1..], x);
      if s[0] == x then rest
      else
        assert Distinct(s) ==> s[0] !in s[1..];
        [s[0]] + rest
  }

  /** Registering a handler makes it the one every later call of that name
      reaches, with the params spread as arguments. */
  lemma InvokeAfterAdd(methods: map<string, Method>, name: string, fn: Method, params: Value)
    ensures Invoke(methods[name := fn], name, params) == fn(SpreadArgs(params))
  {
  }

  /** Removing a handler makes every later call of that name fail with
      "method not found", thrown before any promise exists. */
  lemma InvokeAfterRemove(methods: map<string, Method>, name: string, params: Value)
    requires name !in PrototypeNames
    ensures Invoke(methods - {name}, name, params) == ThrewSync(Typed(MethodNotFoundException(Undefined, None)))
  {
  }

  class MethodManager {
    /** The handler table. */
    var methods: map<string, Method>
    /** Its own keys, in insertion order, as `Object.keys` lists them. */
    var order: seq<string>

    ghost predicate Valid()
      reads this
    {
      ListsKeys(order, methods)
    }

    constructor()
      ensures Valid()
      ensures methods == map[] && order == []
    {
      methods := map[];
      order := [];
    }

    /** `add(name, fn)`: registers or replaces a handler. The key
        "__proto__" would set the table's prototype instead. */
    method Add(name: string, fn: Method)
      requires Valid()
      requires name != "__proto__"
      modifies this
      ensures Valid()
      ensures methods == old(methods)[name := fn]
      ensures order == if name in old(methods) then old(order) else old(order) + [name]
    {
      if name !in methods {
        order := order + [name];
      }
      methods := methods[name := fn];
    }

    /** `exist(name)`: a handler is registered under `name`. */
    function Exist(name: string): (b: bool)
      reads this
      requires Resolvable(methods, name)
      ensures b <==> name in methods
    {
      name in methods
    }

    /** `remove(name)`: unregisters a handler; nothing happens when there
        is none. */
    method Remove(name: string)
      requires Valid()
      requires Resolvable(methods, name)
      modifies this
      ensures Valid()
      ensures methods == old(methods) - {name}
      ensures order == Without(old(order), name)
      ensures name !in old(methods) ==> methods == old(methods) && order == old(order)
    {
      if Exist(name) {
        methods := methods - {name};
        order := Without(order, name);
      }
    }

    /** `names()`: every registered name exactly once. */
    function Names(): (r: seq<string>)
      reads this
      requires Valid()
      ensures Distinct(r)
      ensures forall n :: n in r <==> n in methods
      ensures |r| == |methods|
    {
      DistinctCardinality(order, methods.Keys);
      order
    }

    /** `call(name, params)`: calls the handler with the params spread as
        arguments, or throws "method not found" before calling anything.
        The second result is the error the unhandled side chain rethrows. */
    method Call(name: string, params: Value) returns (inv: Invocation, unhandled: Option<JrpcException>)
      requires Resolvable(methods, name)
      ensures inv == Invoke(methods, name, params)
      ensures unhandled == Detached(inv)
    {
      if !Exist(name) {
        return ThrewSync(Typed(MethodNotFoundException(Undefined, None))), None;
      }
      var fn := methods[name];
      if params.Arr? {
        inv := fn(params.items);
      } else {
        inv := fn([params]);
      }
      unhandled := None;
      if inv.Returned? {
        match inv.promise
        case Rejected(e) =>
          var err := if e.Typed? then e.ex else InternalErrorException(e.v, None);
          unhandled := Some(err);
        case Fulfilled(_) =>
      }
    }
  }

  /** A duplicate-free sequence has as many elements as the set it lists. */
  lemma {:induction false} DistinctCardinality(s: seq<string>, keys: set<string>)
    requires Distinct(s)
    requires forall n :: n in s <==> n in keys
    ensures |s| == |keys|
  {
    if s != [] {
      var rest := s[1..];
      assert Distinct(rest);
      assert s[0] !in rest;
      forall n ensures n in rest <==> n in keys - {s[0]} {
        if n in rest {
          var k :| 0 <= k < |rest| && rest[k] == n;
          assert s[k + 1] == n;
        }
        if n in s && n != s[0] {
          var k :| 0 <= k < |s| && s[k] == n;
          assert rest[k - 1] == n;
        }
      }
      DistinctCardinality(rest, keys - {s[0]});
    } else {
      assert forall n :: n !in keys;
      assert keys == {};
    }
  }
}
