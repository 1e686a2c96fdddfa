/** Python values as the booking layer handles them: the decoded JSON that flows
    between the language model, the handlers and Cal.com, Python truthiness
    (which drives every `x or default` in the code), and the Option/Result
    wrappers that stand for `None` and for a raised exception. */
module Values {

  datatype Option<+T> = None | Some(value: T)

  datatype Result<+T, +E> = Success(value: T) | Failure(error: E)

  /** A value as `json.loads` returns it: None, bool, int, float, str, list or dict.
      A float is carried as a `real`; no rounding is modelled. */
  datatype Json =
    | JNull
    | JBool(b: bool)
    | JInt(i: int)
    | JFloat(f: real)
    | JStr(s: string)
    | JArr(items: seq<Json>)
    | JObj(fields: map<string, Json>)

  /** Python truthiness: None, False, 0, 0.0, "" and empty containers are falsy. */
  predicate Truthy(v: Json) {
    match v
    case JNull => false
    case JBool(b) => b
    case JInt(i) => i != 0
    case JFloat(f) => f != 0.0
    case JStr(s) => s != ""
    case JArr(items) => items != []
    case JObj(fields) => fields != map[]
  }

  /** Python's `a or b`. */
  function Or(a: Json, b: Json): Json {
    if Truthy(a) then a else b
  }

  /** `d.get(key)` on a dict: the value, or None when the key is absent. */
  function Lookup(fields: map<string, Json>, key: string): Json {
    if key in fields then fields[key] else JNull
  }

  /** The literal `{}`. */
  const EmptyObject: Json := JObj(map[])

  /** Truthiness of an `Optional[str]`. */
  predicate Present(o: Option<string>) {
    o.Some? && o.value != ""
  }

  /** Python's `a or b` on two `Optional[str]` values. */
  function OrElse(a: Option<string>, b: Option<string>): Option<string> {
    if Present(a) then a else b
  }
}
