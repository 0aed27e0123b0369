/**
  Python values as the demos see them: optional attributes, error results, and
  the JSON-shaped dictionaries that tools return and that session state holds.
 */
module Values {

  /** An attribute or argument that may be `None`. */
  datatype Option<+T> = None | Some(value: T)

  /** The outcome of an operation that may raise. */
  datatype Result<+T> = Ok(value: T) | Err(error: string)

  /** A JSON-shaped Python value (floats are not modelled). */
  datatype Value =
    | Null
    | Bool(b: bool)
    | Int(i: int)
    | Str(s: string)
    | Arr(items: seq<Value>)
    | Obj(entries: map<string, Value>)

  /** A Python `dict[str, Any]`. */
  type Dict = map<string, Value>

  /** Python truthiness: `None`, `False`, `0`, `""`, `[]` and `{}` are false. */
  predicate Truthy(v: Value) {
    match v
    case Null => false
    case Bool(b) => b
    case Int(i) => i != 0
    case Str(s) => s != ""
    case Arr(items) => |items| > 0
    case Obj(entries) => |entries| > 0
  }

  /** Truthiness of an optional string: neither `None` nor `""`. */
  predicate NonEmpty(o: Option<string>) {
    o.Some? && o.value != ""
  }
}
