/** A decoded JSON document (RFC 8259) as Python's `json.loads` hands it
    over: objects become dicts, arrays lists, numbers int or float. The
    decoder itself is not modelled; code that decodes takes it as a
    function from text to an optional value. */
module Json {

  datatype Value =
    | Null
    | Bool(b: bool)
      // A finite number. The NaN, Infinity and -Infinity that json.loads
      // also accepts (all truthy in Python) are not modelled.
    | Number(n: real)
    | String(s: string)
    | Array(items: seq<Value>)
    | Object(fields: map<string, Value>)

  /** Python truthiness of the decoded value: `None`, `False`, zero, the
      empty string, the empty list and the empty dict are false. */
  predicate Truthy(v: Value) {
    match v
    case Null => false
    case Bool(b) => b
    case Number(n) => n != 0.0
    case String(s) => s != ""
    case Array(items) => items != []
    case Object(fields) => fields != map[]
  }

  /** `d.get(key, default)` on a decoded dict. */
  function Get(fields: map<string, Value>, key: string, default: Value): Value {
    if key in fields then fields[key] else default
  }
}
