/**
 * Decoded JSON values, as Python's `json` module hands them to the handlers, and
 * the few dict, list and string operations the handlers apply to them. Where Python
 * raises (a `.get` on something that is not a dict, a missing key), the operation
 * returns None, so that every caller has to handle the exception path.
 */
module Json {
  import opened Wrappers

  datatype Value =
    | Null
    | Bool(b: bool)
    | Num(n: real)
    | Str(s: string)
    | Arr(items: seq<Value>)
    | Obj(fields: map<string, Value>)

  /** Python truthiness of a decoded value. */
  predicate Truthy(v: Value) {
    match v
    case Null => false
    case Bool(b) => b
    case Num(n) => n != 0.0
    case Str(s) => s != ""
    case Arr(items) => items != []
    case Obj(fields) => fields != map[]
  }

  /** `v.get(key, default)`; only a dict has `get`, anything else raises. */
  function Get(v: Value, key: string, default: Value): (r: Option<Value>)
    ensures r.Some? <==> v.Obj?
  {
    match v
    case Obj(fields) => Some(if key in fields then fields[key] else default)
    case _ => None
  }

  /** `v[key]` with a string key; a dict without the key and every non-dict raise. */
  function Index(v: Value, key: string): (r: Option<Value>)
    ensures r.Some? <==> v.Obj? && key in v.fields
  {
    if v.Obj? && key in v.fields then Some(v.fields[key]) else None
  }

  /**
   * `key in v`: key membership for a dict, element membership for a list, substring
   * for a string; a number, a boolean or None raises.
   */
  function Contains(v: Value, key: string): (r: Option<bool>)
    ensures v.Obj? ==> r == Some(key in v.fields)
    ensures r.None? <==> v.Null? || v.Bool? || v.Num?
  {
    match v
    case Obj(fields) => Some(key in fields)
    case Arr(items) => Some(Str(key) in items)
    case Str(s) => Some(IsSubstring(key, s))
    case _ => None
  }

  predicate IsSubstring(key: string, s: string)
    decreases |s|
  {
    key <= s || (s != [] && IsSubstring(key, s[1..]))
  }
}
