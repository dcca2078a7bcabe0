/**
 The slice of JavaScript value semantics the handlers depend on: parsed JSON
 values, truthiness, property reads, `String(v)` in template literals, thrown
 values and `Error.prototype.toString`.
 */
module Js {
  import Text

  datatype Option<T> = None | Some(value: T)

  /**
   A value produced by `JSON.parse`. Numbers are integers here: fractional
   numbers never influence the modelled control flow.
   */
  datatype Json =
    | JNull
    | JBool(b: bool)
    | JNum(n: int)
    | JStr(s: string)
    | JArr(items: seq<Json>)
    | JObj(fields: map<string, Json>)

  /** JavaScript truthiness of a property read; `None` stands for `undefined`. */
  predicate Truthy(v: Option<Json>)
  {
    match v
    case None => false
    case Some(JNull) => false
    case Some(JBool(b)) => b
    case Some(JNum(n)) => n != 0
    case Some(JStr(s)) => s != ""
    case Some(_) => true
  }

  /**
   `v.key` on a value that is neither `null` nor `undefined`. Built-in
   properties of primitives and arrays (such as `length`) are not modelled.
   */
  function Field(v: Json, key: string): (r: Option<Json>)
    ensures r.Some? ==> v.JObj? && key in v.fields && r.value == v.fields[key]
  {
    if v.JObj? && key in v.fields then Some(v.fields[key]) else None
  }

  /** `v?.key`: optional chaining also yields `undefined` on an `undefined` receiver. */
  function Chain(v: Option<Json>, key: string): (r: Option<Json>)
    ensures v.None? ==> r.None?
  {
    match v
    case None => None
    case Some(j) => Field(j, key)
  }

  /** A thrown value: an `Error` (with its `name`) or any other value. */
  datatype Thrown =
    | ErrorObj(name: string, message: string)
    | NonError(truthy: bool, shown: string)

  /** `new Error(message)`. */
  function Fail(message: string): (t: Thrown)
    ensures t.ErrorObj? && t.message == message
  {
    ErrorObj("Error", message)
  }

  /** The `TypeError` V8 raises when a property of `null` is read. */
  function NullRead(key: string): Thrown
  {
    ErrorObj("TypeError", "Cannot read properties of null (reading '" + key + "')")
  }

  /** The `TypeError` V8 raises when a property of `undefined` is read. */
  function UndefinedRead(key: string): Thrown
  {
    ErrorObj("TypeError", "Cannot read properties of undefined (reading '" + key + "')")
  }

  /** The `TypeError` V8 raises when an object pattern destructures `undefined`; `key` is the pattern's first property. */
  function DestructureUndefined(key: string, source: string): Thrown
  {
    ErrorObj("TypeError", "Cannot destructure property '" + key + "' of '" + source + "' as it is undefined.")
  }

  /** `String(t)`, as interpolated by `${error}`: `Error.prototype.toString` for errors. */
  function ShowThrown(t: Thrown): (r: string)
    ensures t.ErrorObj? && t.name != "" && t.message != "" ==> r == t.name + ": " + t.message
    ensures t.ErrorObj? && t.name == "" ==> r == t.message
    ensures t.ErrorObj? && t.message == "" ==> r == t.name
    ensures t.NonError? ==> r == t.shown
  {
    match t
    case ErrorObj(name, msg) =>
      if name == "" then msg else if msg == "" then name else name + ": " + msg
    case NonError(_, shown) => shown
  }

  /** The outcome of a call that may throw. */
  datatype Result<T> = Ok(value: T) | Err(thrown: Thrown)

  /**
   `String(v)` for a property read: `"undefined"` for a missing value, the
   text of a string, the decimal of a number, `"[object Object]"` for objects,
   and the comma-joined elements for arrays.
   */
  function Show(v: Option<Json>): string
  {
    match v
    case None => "undefined"
    case Some(j) => ShowJson(j)
  }

  function ShowJson(j: Json): (r: string)
    ensures j.JStr? ==> r == j.s
    decreases j, 1, 0
  {
    match j
    case JNull => "null"
    case JBool(b) => if b then "true" else "false"
    case JNum(n) => Text.Decimal(n)
    case JStr(s) => s
    case JArr(items) => ShowItems(j, 0)
    case JObj(_) => "[object Object]"
  }

  /** `Array.prototype.join(",")` from index `from` on: `null` elements render as empty. */
  function ShowItems(a: Json, from: nat): string
    requires a.JArr? && from <= |a.items|
    decreases a, 0, |a.items| - from
  {
    if from == |a.items| then ""
    else
      var e := a.items[from];
      var first := if e.JNull? then "" else ShowJson(e);
      if from + 1 == |a.items| then first else first + "," + ShowItems(a, from + 1)
  }
}
