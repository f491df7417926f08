/** JavaScript values as the edge functions and the client see them: parsed JSON,
    JavaScript truthiness, the `||` operator and property reads with and without
    optional chaining. A property read yields `Option<Value>`, where `None` stands
    for `undefined`; `undefined` never occurs inside a parsed JSON value. */
module Js {

  datatype Option<+T> = None | Some(value: T)

  /** A computation that either yields a value or throws an error carrying a message. */
  datatype Result<+T, +E> = Success(value: T) | Failure(error: E)

  /** A parsed JSON value. Object key order plays no part anywhere in the model. */
  datatype Value =
    | Null
    | Bool(b: bool)
    | Num(n: real)
    | Str(s: string)
    | Arr(items: seq<Value>)
    | Obj(fields: map<string, Value>)

  /** JavaScript truthiness of a possibly-undefined value: `undefined`, `null`,
      `false`, `0` and `""` are falsy; every array and object, empty or not, is truthy. */
  predicate Truthy(v: Option<Value>)
  {
    match v
    case None => false
    case Some(x) =>
      match x
      case Null => false
      case Bool(b) => b
      case Num(n) => n != 0.0
      case Str(s) => s != ""
      case Arr(_) => true
      case Obj(_) => true
  }

  /** `a || b`: the left operand when it is truthy, the right one otherwise. */
  function Or(a: Option<Value>, b: Option<Value>): (r: Option<Value>)
    ensures Truthy(r) <==> Truthy(a) || Truthy(b)
    ensures Truthy(a) ==> r == a
  {
    if Truthy(a) then a else b
  }

  /** `v?.key` (and `v.key` on a value that is neither null nor undefined):
      the field of an object, `undefined` for everything else. Built-in
      properties of strings and arrays (such as `length`) are never read by the
      modelled code and are not modelled. */
  function Get(v: Option<Value>, key: string): (r: Option<Value>)
    ensures r.Some? <==> v.Some? && v.value.Obj? && key in v.value.fields
  {
    match v
    case Some(Obj(fields)) => if key in fields then Some(fields[key]) else None
    case _ => None
  }

  /** A string-typed JavaScript value that may be absent is truthy exactly when it is
      present and non-empty. */
  predicate Present(s: Option<string>)
  {
    s.Some? && s.value != ""
  }

  /** The HTTP response an edge function returns: a status and a JSON body. */
  datatype HttpResponse = HttpResponse(status: nat, body: Value)

  /** `{error: message}` with status 500: what both edge functions return for any thrown error. */
  function ErrorResponse(message: string): (r: HttpResponse)
    ensures r.status == 500 && Get(Some(r.body), "error") == Some(Str(message))
  {
    HttpResponse(500, Obj(map["error" := Str(message)]))
  }

  /** The `TypeError` the runtime throws on reading `property` off `null`. */
  function NullRead(property: string): string
  {
    "Cannot read properties of null (reading '" + property + "')"
  }

  /** The `TypeError` the runtime throws on `const { property, ... } = await ...` when the
      awaited value is `null`. */
  function DestructureNull(property: string): string
  {
    "Cannot destructure property '" + property + "' of '(intermediate value)' as it is null."
  }

  function DigitChar(d: nat): (c: char)
    requires d < 10
    ensures '0' <= c <= '9'
  {
    ('0' as int + d) as char
  }

  /** The decimal text JavaScript's template literals give a non-negative integer. */
  function NatToString(n: nat): (s: string)
    ensures |s| >= 1
    ensures forall i :: 0 <= i < |s| ==> '0' <= s[i] <= '9'
  {
    if n < 10 then [DigitChar(n)] else NatToString(n / 10) + [DigitChar(n % 10)]
  }

  /** The number a text of decimal digits denotes, read most significant digit first. */
  function DigitsValue(s: string): int
  {
    if |s| == 0 then 0 else 10 * DigitsValue(s[..|s| - 1]) + (s[|s| - 1] as int - '0' as int)
  }

  /** The decimal text of `n` denotes `n`. */
  lemma {:induction false} NatToStringValue(n: nat)
    ensures DigitsValue(NatToString(n)) == n
  {
    if n >= 10 {
      NatToStringValue(n / 10);
      var s := NatToString(n);
      assert s[..|s| - 1] == NatToString(n / 10);
    }
  }
}
