/** Values the session core handles: optional query parameters, the JSON-shaped
    dictionaries that the token endpoint, Microsoft Graph and the session cookie
    carry, and Python's notion of truthiness, on which every check of the
    handlers turns (`if error:`, `if not code:`, `a or b`). */
module Values {

  datatype Option<+T> = None | Some(value: T)

  /** The exception classes the core raises for its own reasons. */
  datatype Exception = ValueError | RuntimeError

  /** A call that returns a value or raises one of the exceptions above. */
  datatype Result<+T> = Ok(value: T) | Err(error: Exception)

  /** A JSON value of the kind `json.loads` produces (floats left out). */
  datatype Json =
    | Null
    | Bool(b: bool)
    | Int(i: int)
    | Str(s: string)
    | List(items: seq<Json>)
    | Dict(entries: map<string, Json>)

  /** Python's `bool(v)` for a JSON value. */
  predicate Truthy(v: Json) {
    match v
    case Null => false
    case Bool(b) => b
    case Int(i) => i != 0
    case Str(s) => s != ""
    case List(items) => items != []
    case Dict(entries) => entries != map[]
  }

  /** Python's `bool(x)` for an optional string parameter (`str = None`). */
  predicate Given(x: Option<string>) {
    x.Some? && x.value != ""
  }

  /** `d.get(k)`: the entry, or None when the key is absent. */
  function Get(d: map<string, Json>, k: string): (v: Json)
    ensures k !in d ==> v == Null
  {
    if k in d then d[k] else Null
  }

  /** `a or b` on JSON values: the first operand when truthy, else the second. */
  function Or(a: Json, b: Json): (r: Json)
    ensures Truthy(r) <==> Truthy(a) || Truthy(b)
  {
    if Truthy(a) then a else b
  }

  /** `a or b` on optional strings. */
  function OrElse(a: Option<string>, b: Option<string>): (r: Option<string>)
    ensures Given(r) <==> Given(a) || Given(b)
  {
    if Given(a) then a else b
  }
}
