/**
 * Parsed JSON values and the few pieces of JavaScript semantics the service
 * applies to them: truthiness, property reads, iteration by `for...of` and
 * spread, string conversion in template literals, and the errors the engine
 * raises when a read or an iteration is not possible.
 */
module Js {
  import opened Wrappers
  import opened JsText

  /** A value `JSON.parse` can return. Numbers are integers in this model. */
  datatype Json =
    | JNull
    | JBool(b: bool)
    | JNum(n: int)
    | JStr(s: string)
    | JArr(items: seq<Json>)
    | JObj(fields: map<string, Json>)

  /** `JSON.parse`, which the model leaves abstract: a value, or the SyntaxError's message. */
  type Parser = string -> Result<Json, string>

  /** A JavaScript `Error` object: its `name` and its `message`. */
  datatype ErrorValue = ErrorValue(name: string, message: string)

  /** Anything a `throw` can carry: an `Error`, or some other value. */
  datatype Thrown = Raised(error: ErrorValue) | RaisedNonError

  /** `new Error(message)`. */
  function Error(message: string): ErrorValue {
    ErrorValue("Error", message)
  }

  /** The engine's TypeError for reading a property of `null`. */
  function NullRead(key: string): ErrorValue {
    ErrorValue("TypeError", "Cannot read properties of null (reading '" + key + "')")
  }

  /** The engine's TypeError for iterating a value that is not iterable. */
  function NotIterable(what: string): ErrorValue {
    ErrorValue("TypeError", what + " is not iterable")
  }

  /** JavaScript truthiness of a parsed value. */
  predicate Truthy(v: Json) {
    match v
    case JNull => false
    case JBool(b) => b
    case JNum(n) => n != 0
    case JStr(s) => s != ""
    case JArr(_) => true
    case JObj(_) => true
  }

  /** Truthiness of a property that may be `undefined` (None). */
  predicate Present(v: Option<Json>) {
    v.Some? && Truthy(v.value)
  }

  /**
   * `v.key` on a value that is not `null`: an own field of an object, and
   * `undefined` otherwise (none of the keys the service reads exists on
   * primitives or arrays).
   */
  function Prop(v: Json, key: string): (r: Option<Json>)
    requires v != JNull
    ensures r.Some? <==> v.JObj? && key in v.fields
  {
    match v
    case JObj(m) => if key in m then Some(m[key]) else None
    case _ => None
  }

  /** `v.key` on any value: reading a property of `null` raises a TypeError. */
  function Read(v: Json, key: string): (r: Result<Option<Json>, ErrorValue>)
    ensures r.Failure? <==> v == JNull
  {
    if v == JNull then Failure(NullRead(key)) else Success(Prop(v, key))
  }

  /**
   * What `for...of` and spread see: the elements of an array, the characters
   * of a string (each a one-character string); None when not iterable.
   */
  function Iterate(v: Json): (r: Option<seq<Json>>)
    ensures v.JArr? ==> r == Some(v.items)
    ensures v.JStr? ==> r.Some? && |r.value| == |v.s|
    ensures (v.JNull? || v.JBool? || v.JNum? || v.JObj?) ==> r.None?
  {
    match v
    case JArr(xs) => Some(xs)
    case JStr(s) => Some(seq(|s|, i requires 0 <= i < |s| => JStr([s[i]])))
    case _ => None
  }

  /** `v.length === 0` on a value that is not `null`. */
  predicate LengthIsZero(v: Json) {
    match v
    case JArr(xs) => xs == []
    case JStr(s) => s == ""
    case JObj(m) => "length" in m && m["length"] == JNum(0)
    case _ => false
  }

  /** `String(v)`, as a template literal `${v}` renders a value. */
  function ToStr(v: Json): string
    decreases v, 1
  {
    match v
    case JNull => "null"
    case JBool(b) => if b then "true" else "false"
    case JNum(n) => IntToString(n)
    case JStr(s) => s
    case JArr(xs) => JoinElements(xs, 0)
    case JObj(_) => "[object Object]"
  }

  /** `Array.prototype.join(",")` from index i on, as `String` applies it: `null` elements become "". */
  function JoinElements(xs: seq<Json>, i: nat): string
    requires i <= |xs|
    decreases JArr(xs), 0, |xs| - i
  {
    if i == |xs| then ""
    else
      var head := if xs[i] == JNull then "" else ToStr(xs[i]);
      if i + 1 == |xs| then head else head + "," + JoinElements(xs, i + 1)
  }
}
