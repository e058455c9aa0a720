/** JavaScript values as they reach the JSON-RPC server, and the few
    built-in conversions the server applies to them (truthiness, property
    reads, `String(v)`). */
module Json {

  /** A decoded JSON value, plus the two non-JSON values the server meets:
      `undefined` (a missing property, a body that failed to parse) and an
      `Error` instance (what user methods throw), with its name, message and
      stack text. Numbers are integers. */
  datatype Value =
    | Undefined
    | Null
    | Bool(b: bool)
    | Num(n: int)
    | Str(s: string)
    | Arr(items: seq<Value>)
    | Obj(fields: map<string, Value>)
    | ErrorObj(name: string, message: string, stack: string)

  /** `v === undefined || v === null`, the test behind `??` and `?.`. */
  predicate IsNullish(v: Value) {
    v.Undefined? || v.Null?
  }

  /** JavaScript truthiness, as used by `if (v)` and `||`. */
  predicate Truthy(v: Value) {
    match v
    case Undefined => false
    case Null => false
    case Bool(b) => b
    case Num(n) => n != 0
    case Str(s) => s != ""
    case _ => true
  }

  /** `typeof v === "object"`: null, arrays, plain objects and errors. */
  predicate TypeofObject(v: Value) {
    v.Null? || v.Arr? || v.Obj? || v.ErrorObj?
  }

  /** `Object.keys(v).indexOf(key) > -1` for a value that is not nullish:
      only plain objects have the named own keys the server asks about. */
  predicate HasKey(v: Value, key: string) {
    v.Obj? && key in v.fields
  }

  /** The property read `v[key]` on a value that is not nullish: an own
      property of an object, and `undefined` for everything else. */
  function Get(v: Value, key: string): (r: Value)
    ensures HasKey(v, key) ==> r == v.fields[key]
    ensures !HasKey(v, key) ==> r == Undefined
  {
    if v.Obj? && key in v.fields then v.fields[key] else Undefined
  }

  function DigitChar(d: nat): (c: char)
    requires d < 10
    ensures '0' <= c <= '9'
  {
    "0123456789"[d]
  }

  function DigitValue(c: char): nat
    requires '0' <= c <= '9'
  {
    (c as int - '0' as int) as nat
  }

  predicate AllDigits(s: string) {
    forall i :: 0 <= i < |s| ==> '0' <= s[i] <= '9'
  }

  /** Decimal rendering of a natural number, most significant digit first. */
  function NatToString(n: nat): (s: string)
    ensures |s| >= 1 && AllDigits(s)
  {
    if n < 10 then [DigitChar(n)] else NatToString(n / 10) + [DigitChar(n % 10)]
  }

  /** The value a string of decimal digits denotes. */
  function DigitsValue(s: string): nat
    requires AllDigits(s)
  {
    if s == [] then 0 else DigitsValue(s[..|s| - 1]) * 10 + DigitValue(s[|s| - 1])
  }

  /** Reading back the decimal rendering gives the number: the rendering
      used in error texts ("Code -32601") loses nothing. */
  lemma {:induction false} NatToStringRoundTrip(n: nat)
    ensures DigitsValue(NatToString(n)) == n
  {
    if n >= 10 {
      var p := NatToString(n / 10);
      var s := p + [DigitChar(n % 10)];
      assert s[..|s| - 1] == p;
      NatToStringRoundTrip(n / 10);
    }
  }

  /** `String(n)` for an integer. */
  function IntToString(i: int): (s: string)
    ensures |s| >= 1
    ensures i < 0 <==> s[0] == '-'
  {
    if i < 0 then "-" + NatToString(-i) else NatToString(i)
  }

  lemma NatToStringInjective(a: nat, b: nat)
    requires NatToString(a) == NatToString(b)
    ensures a == b
  {
    NatToStringRoundTrip(a);
    NatToStringRoundTrip(b);
  }

  /** `String(i)` determines `i`. */
  lemma {:induction false} IntToStringInjective(i: int, j: int)
    requires IntToString(i) == IntToString(j)
    ensures i == j
  {
    var s := IntToString(i);
    if i < 0 && j < 0 {
      assert s == "-" + NatToString(-i) == "-" + NatToString(-j);
      assert NatToString(-i) == s[1..] == NatToString(-j);
      NatToStringInjective(-i, -j);
    } else if i >= 0 && j >= 0 {
      NatToStringInjective(i, j);
    }
  }

  /** `parts.join(sep)`. */
  function Join(parts: seq<string>, sep: string): string {
    if parts == [] then ""
    else if |parts| == 1 then parts[0]
    else Join(parts[..|parts| - 1], sep) + sep + parts[|parts| - 1]
  }

  /** `String(v)`, which is also what `v.toString()` yields for a value that
      is not nullish. Array elements that are nullish print as "", as in
      `Array.prototype.join`; an Error prints as `Error.prototype.toString`. */
  function JsString(v: Value): string
    decreases v
  {
    match v
    case Undefined => "undefined"
    case Null => "null"
    case Bool(b) => if b then "true" else "false"
    case Num(n) => IntToString(n)
    case Str(s) => s
    case Arr(items) =>
      Join(seq(|items|, i requires 0 <= i < |items| =>
                 if IsNullish(items[i]) then "" else JsString(items[i])), ",")
    case Obj(_) => "[object Object]"
    case ErrorObj(name, message, _) =>
      if name == "" then message
      else if message == "" then name
      else name + ": " + message
  }

  /** `v?.toString()`: undefined for a nullish value, its string otherwise. */
  function OptionalToString(v: Value): (r: Value)
    ensures r.Undefined? <==> IsNullish(v)
    ensures !IsNullish(v) ==> r == Str(JsString(v))
  {
    if IsNullish(v) then Undefined else Str(JsString(v))
  }
}
