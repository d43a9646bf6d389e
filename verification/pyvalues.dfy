/** Python values as the backend client hands them over: decoded JSON, i.e.
    `None`, booleans, integers, strings, lists and dicts with string keys,
    together with the three Python operations the repository applies to them
    (subscripting by an integer, subscripting by a key, assigning a key) and
    the exceptions those operations raise.
 */
module PyValues {
  import opened Wrappers

  /** One decoded JSON value. Floating-point numbers are not modelled. */
  datatype Value =
    | Null
    | Bool(b: bool)
    | Int(i: int)
    | Str(s: string)
    | List(items: seq<Value>)
    | Dict(fields: map<string, Value>)

  /** A row of a backend response: a dict from column name to value. */
  type Row = map<string, Value>

  /** The built-in exceptions subscripting can raise. */
  datatype PyError = KeyError | IndexError | TypeError

  /** Python truthiness, `bool(v)`: `None`, `False`, `0` and empty containers are falsy. */
  predicate Truthy(v: Value) {
    match v
    case Null => false
    case Bool(b) => b
    case Int(i) => i != 0
    case Str(s) => |s| > 0
    case List(items) => |items| > 0
    case Dict(fields) => |fields| > 0
  }

  /** `v[i]` for a non-negative integer `i`. A dict decoded from JSON has only
      string keys, so an integer subscript on it is always a `KeyError`. */
  function Index(v: Value, i: nat): Result<Value, PyError> {
    match v
    case List(items) => if i < |items| then Success(items[i]) else Failure(IndexError)
    case Str(s) => if i < |s| then Success(Str([s[i]])) else Failure(IndexError)
    case Dict(_) => Failure(KeyError)
    case _ => Failure(TypeError)
  }

  /** `v[key]` for a string key: only a dict accepts it. */
  function Lookup(v: Value, key: string): Result<Value, PyError> {
    match v
    case Dict(fields) => if key in fields then Success(fields[key]) else Failure(KeyError)
    case _ => Failure(TypeError)
  }

  /** `v[key] = x` for a string key, giving the updated value: only a dict
      supports item assignment by a string key. */
  function Store(v: Value, key: string, x: Value): Result<Value, PyError> {
    match v
    case Dict(fields) => Success(Dict(fields[key := x]))
    case _ => Failure(TypeError)
  }

  /** `row[key]` on a response row. */
  function Get(row: Row, key: string): Result<Value, PyError> {
    if key in row then Success(row[key]) else Failure(KeyError)
  }
}
