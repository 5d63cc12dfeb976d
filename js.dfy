/** The slice of JavaScript's value model that the storefront's logic depends on:
    optional values (`undefined`), JSON data as sent and stored, and truthiness. */
module Js {

  /** `None` stands for `undefined` (a missing property or argument). */
  datatype Option<+T> = None | Some(value: T)

  /** A JSON value: what a request body, a stored document, a form object or a toast
      record holds. Objects are maps from property name to value. */
  datatype Json =
    | JNull
    | JBool(b: bool)
    | JNum(n: real)
    | JStr(s: string)
    | JArr(items: seq<Json>)
    | JObj(fields: map<string, Json>)

  /** JavaScript truthiness of a property read: `undefined`, `null`, `false`, `0` and
      the empty string are falsy; every other value (arrays and objects included) is truthy. */
  predicate Truthy(v: Option<Json>)
  {
    match v
    case None => false
    case Some(JNull) => false
    case Some(JBool(b)) => b
    case Some(JNum(n)) => n != 0.0
    case Some(JStr(s)) => s != ""
    case Some(_) => true
  }

  /** `obj[key]`: the property's value, or `undefined` when it is absent. */
  function Get(obj: map<string, Json>, key: string): Option<Json>
  {
    if key in obj then Some(obj[key]) else None
  }

  /** The string held at `obj[key]`, with "" for a missing or non-string property. */
  function StringField(obj: map<string, Json>, key: string): string
  {
    if key in obj && obj[key].JStr? then obj[key].s else ""
  }

  /** `s || fallback` for a string that may be `undefined`: the empty string is falsy. */
  function StrOr(s: Option<string>, fallback: string): string
  {
    if s.Some? && s.value != "" then s.value else fallback
  }

  /** `${s}` in a template literal: `undefined` renders as the text "undefined". */
  function Interpolate(s: Option<string>): string
  {
    match s
    case None => "undefined"
    case Some(t) => t
  }

  /** The JSON array of the given strings. */
  function StrArray(ss: seq<string>): (a: Json)
    ensures a.JArr? && |a.items| == |ss|
    ensures forall i :: 0 <= i < |ss| ==> a.items[i] == JStr(ss[i])
  {
    JArr(seq(|ss|, i requires 0 <= i < |ss| => JStr(ss[i])))
  }
}
