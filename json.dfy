/**
 * JSON-shaped values as the backend sees them after parsing: the server
 * records of the configuration file, LLM configuration dictionaries and the
 * content of model messages. Python dictionaries become maps (their key
 * order is not modelled); floating-point numbers are not modelled.
 */
module Json {
  import opened Wrappers

  datatype Json =
    | Null
    | Bool(b: bool)
    | Num(n: int)
    | Str(s: string)
    | Arr(items: seq<Json>)
    | Obj(fields: map<string, Json>)

  /** A JSON object, i.e. a Python dict with string keys. */
  type Record = map<string, Json>

  /** Python's truth value of a JSON value (`bool(v)`). */
  predicate Truthy(v: Json) {
    match v
    case Null => false
    case Bool(b) => b
    case Num(n) => n != 0
    case Str(s) => s != ""
    case Arr(items) => items != []
    case Obj(fields) => fields != map[]
  }

  /** The value stored under a key, or Null when the key is absent. */
  function GetOrNull(r: Record, key: string): Json {
    if key in r then r[key] else Null
  }

  /** The key holds exactly the given string; an absent key never matches. */
  predicate HasText(r: Record, key: string, value: string) {
    key in r && r[key] == Str(value)
  }

  /** Python's truth value of an optional string (`None` and `""` are false). */
  predicate Given(o: Option<string>) {
    o.Some? && o.value != ""
  }
}
