/** The loosely typed dictionaries the Python code passes around (chunk metadata,
    source metadata, request bodies), as JSON-like values. */
module Values {

  datatype Value =
    | Null
    | Bool(b: bool)
    | Int(i: int)
    | Real(r: real)
    | Str(s: string)
    | List(items: seq<Value>)
    | Dict(entries: map<string, Value>)

  type Metadata = map<string, Value>

  /** `d.get(key, default)`. */
  function Get(d: Metadata, key: string, default: Value): (r: Value)
    ensures key in d ==> r == d[key]
    ensures key !in d ==> r == default
  {
    if key in d then d[key] else default
  }

  /** Python truthiness of a value: `None`, `False`, `0`, `0.0`, `""`, `[]` and `{}` are false. */
  predicate Truthy(v: Value) {
    match v
    case Null => false
    case Bool(b) => b
    case Int(i) => i != 0
    case Real(r) => r != 0.0
    case Str(s) => s != ""
    case List(items) => items != []
    case Dict(entries) => entries != map[]
  }
}
