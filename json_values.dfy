/**
 * Decoded JSON values as the Python code sees them after `json.load` or
 * `r.json()`, with the few dictionary and number operations the core applies.
 */
module JsonValues {
  import opened Wrappers

  datatype Json =
    | JNull
    | JBool(b: bool)
    | JNum(n: real)
    | JStr(s: string)
    | JArr(items: seq<Json>)
    | JObj(fields: map<string, Json>)

  /** `d.get(key, default)` on a dict; None when `d` is not a dict (the call would raise AttributeError). */
  function Get(d: Json, key: string, default: Json): (r: Option<Json>)
    ensures r.Some? <==> d.JObj?
    ensures d.JObj? && key in d.fields ==> r == Some(d.fields[key])
    ensures d.JObj? && key !in d.fields ==> r == Some(default)
  {
    if !d.JObj? then None
    else if key in d.fields then Some(d.fields[key])
    else Some(default)
  }

  /**
   * The value as a Python number for arithmetic and comparison: a JSON number,
   * or a boolean as 0/1. None, strings, lists and dicts raise TypeError there.
   */
  function AsNumber(j: Json): (r: Option<real>)
    ensures r.Some? <==> j.JNum? || j.JBool?
    ensures j.JNum? ==> r == Some(j.n)
  {
    match j
    case JNum(n) => Some(n)
    case JBool(b) => Some(if b then 1.0 else 0.0)
    case _ => None
  }
}
