/**
 * A decoded JSON document, as Python's `json` module hands it to the
 * normaliser, together with the few Python operations the normaliser
 * applies to it: `dict.get` with a default, truthiness and `in`.
 */
module JsonValue {

  import opened Wrappers

  /** Every JSON value. Numbers never influence the normaliser other than
      through truthiness, so they are kept as integers. Objects are maps:
      with duplicate keys Python keeps the last value, which a map can hold. */
  datatype Json =
    | JNull
    | JBool(b: bool)
    | JNum(n: int)
    | JStr(s: string)
    | JArr(elems: seq<Json>)
    | JObj(fields: map<string, Json>)

  const EmptyObject: Json := JObj(map[])

  /** Python's `d.get(key, default)` on a dict. */
  function Get(fields: map<string, Json>, key: string, default: Json): Json
  {
    if key in fields then fields[key] else default
  }

  /** The value stored under `key` when `v` is an object that has that key. */
  function Field(v: Json, key: string): Option<Json>
  {
    if v.JObj? && key in v.fields then Some(v.fields[key]) else None
  }

  /** Python's truth value of a decoded JSON value (`if x:`). */
  predicate Truthy(v: Json)
  {
    match v
    case JNull => false
    case JBool(b) => b
    case JNum(n) => n != 0
    case JStr(s) => s != ""
    case JArr(xs) => xs != []
    case JObj(m) => m != map[]
  }

  /** Python's `needle in haystack` on two strings: a substring test. */
  predicate ContainsSubstring(haystack: string, needle: string)
    decreases |haystack|
  {
    && |needle| <= |haystack|
    && (haystack[..|needle|] == needle || ContainsSubstring(haystack[1..], needle))
  }
}
