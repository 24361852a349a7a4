/** The values a parsed `config.toml` can hold, as `tomllib` hands them to
    the plugin, and Python's truthiness of each. */
module Toml {

  datatype Value =
    | Bool(b: bool)
    | Int(i: int)
    | Float(r: real)
    | Str(s: string)
      /** Offset or local date-time, date or time: a `datetime`, `date` or `time` object. */
    | DateTime(text: string)
    | Array(items: seq<Value>)
    | Table(entries: map<string, Value>)

  /** A whole document is its top-level table. */
  type Document = map<string, Value>

  /** `bool(v)` for the Python object `tomllib` builds from `v`: false,
      zero, the empty string, the empty list and the empty dict are falsy;
      date and time objects are always truthy. */
  predicate Truthy(v: Value)
    ensures !Truthy(v) <==> v in {Bool(false), Int(0), Float(0.0), Str(""), Array([]), Table(map[])}
  {
    match v
    case Bool(b) => b
    case Int(i) => i != 0
    case Float(r) => r != 0.0
    case Str(s) => s != ""
    case DateTime(_) => true
    case Array(items) => items != []
    case Table(entries) => entries != map[]
  }
}
