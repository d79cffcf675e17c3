/**
 * JSON values as the scripts see them after `json.loads`, with the Python
 * operations they apply: truthiness, `dict.get` with a default, and the
 * `x or y` fallback between two lookups.
 */
module Json {
  import opened Options

  /** A decoded JSON value. Numbers are modelled as integers. */
  datatype Json =
    | Null
    | Bool(b: bool)
    | Num(n: int)
    | Str(s: string)
    | Arr(items: seq<Json>)
    | Obj(fields: map<string, Json>)

  /** Python truthiness: `None`, `False`, `0`, `''`, `[]` and `{}` are false. */
  predicate Truthy(v: Json) {
    match v
    case Null => false
    case Bool(b) => b
    case Num(n) => n != 0
    case Str(s) => s != ""
    case Arr(items) => items != []
    case Obj(fields) => fields != map[]
  }

  /** `d.get(key, default)` on a dictionary. */
  function GetOr(fields: map<string, Json>, key: string, default: Json): Json {
    if key in fields then fields[key] else default
  }

  /** `d.get(key)`: a missing key reads as `None`. */
  function Get(fields: map<string, Json>, key: string): Json {
    GetOr(fields, key, Null)
  }

  /** `x or y` */
  function Or(x: Json, y: Json): Json {
    if Truthy(x) then x else y
  }

  /** The values Python can put in a set (`list` and `dict` are unhashable). */
  predicate Hashable(v: Json) {
    !v.Arr? && !v.Obj?
  }

  /** `str(b)` for a Python bool. */
  function BoolText(b: bool): string {
    if b then "True" else "False"
  }
}
