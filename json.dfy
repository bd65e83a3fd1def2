/**
 * Parsed JSON values. Objects are finite maps from keys to values; the order
 * in which `JSON.stringify` writes keys is not part of the model. Numbers are
 * integers, which is all the configuration files here hold.
 */
module Json {
  import opened Wrappers
  import Text

  datatype Json =
    | JNull
    | JBool(b: bool)
    | JNum(n: int)
    | JStr(s: string)
    | JArr(items: seq<Json>)
    | JObj(fields: map<string, Json>)

  /** JavaScript truthiness of a parsed value. */
  predicate Truthy(v: Json)
  {
    match v
    case JNull => false
    case JBool(b) => b
    case JNum(n) => n != 0
    case JStr(s) => s != ""
    case JArr(_) => true
    case JObj(_) => true
  }

  /** `obj[key]` with `undefined` as `None`; every non-object yields `None`. */
  function Get(v: Json, key: string): Option<Json>
  {
    if v.JObj? && key in v.fields then Some(v.fields[key]) else None
  }

  /** The object's fields, or no fields for a non-object. */
  function FieldsOf(v: Json): map<string, Json>
  {
    if v.JObj? then v.fields else map[]
  }

  /** `obj[key]` is truthy. */
  predicate HasTruthy(v: Json, key: string)
  {
    Get(v, key).Some? && Truthy(Get(v, key).value)
  }

  /** `obj[key] = value` on an object. */
  function Set(v: Json, key: string, value: Json): (r: Json)
    requires v.JObj?
    ensures r.JObj? && r.fields == v.fields[key := value]
  {
    JObj(v.fields[key := value])
  }

  /** `if (!obj[key]) obj[key] = {}`: the child object to update, created when falsy. */
  function ChildOrEmpty(v: Json, key: string): Json
  {
    if HasTruthy(v, key) then Get(v, key).value else JObj(map[])
  }

  /**
   * A value as `Array.prototype.join` renders an element: `null` as the
   * empty string, anything else as `String(v)`; arrays render as the empty
   * string here.
   */
  function Rendered(v: Json): string
  {
    match v
    case JNull => ""
    case JBool(b) => if b then "true" else "false"
    case JNum(n) => Text.IntToString(n)
    case JStr(s) => s
    case JArr(_) => ""
    case JObj(_) => "[object Object]"
  }
}
