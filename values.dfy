/**
 * The Python values the service keeps in its dicts and returns as JSON:
 * None, booleans, ints and strings; their truthiness, and how an f-string
 * renders them.
 */
module Values {
  import opened Strings

  datatype Value = Null | Bool(b: bool) | Int(i: int) | Str(s: string)

  /** A Python dict with string keys, such as `student_info` or a response body. */
  type Dict = map<string, Value>

  /** `bool(v)`: None, False, 0 and "" are falsy. */
  predicate Truthy(v: Value) {
    match v
    case Null => false
    case Bool(b) => b
    case Int(i) => i != 0
    case Str(s) => s != ""
  }

  /** `f"{v}"`, that is `str(v)`. */
  function Format(v: Value): string {
    match v
    case Null => "None"
    case Bool(b) => if b then "True" else "False"
    case Int(i) => Decimal(i)
    case Str(s) => s
  }

  /** `d.get(key, default)` */
  function Get(d: Dict, key: string, default: Value): Value {
    if key in d then d[key] else default
  }
}
