/** Values shared by the components: the JSON-like values the simulation
    service returns, the state snapshot, and the things a failing call can
    throw. */
module Values {

  datatype Option<+T> = None | Some(value: T)

  /** A JSON value as the browser holds it after decoding a response. */
  datatype Value =
    | Null
    | Bool(b: bool)
    | Num(n: real)
    | Str(s: string)
    | Arr(items: seq<Value>)
    | Obj(fields: map<string, Value>)

  /** An opaque simulation state: field name to value. */
  type Snapshot = map<string, Value>

  /** What `typeof v` calls 'string', 'number' or 'boolean', or `null`. */
  predicate IsScalar(v: Value)
  {
    v.Null? || v.Bool? || v.Num? || v.Str?
  }

  /** What a rejected call can throw: an `Error` object, or any other value
      together with its `String(...)` form and its JavaScript truthiness. */
  datatype Thrown =
    | ErrorObject(message: string)
    | ThrownValue(text: string, truthy: bool)

  /** `err instanceof Error ? err.message : String(err)` */
  function Message(e: Thrown): string
  {
    match e
    case ErrorObject(msg) => msg
    case ThrownValue(text, _) => text
  }

  /** `if (e)`: an `Error` object is always truthy. */
  predicate Truthy(e: Thrown)
  {
    e.ErrorObject? || e.truthy
  }

  /** `if (s)` on a `string | null` cell: only a non-empty string is truthy. */
  predicate Present(s: Option<string>)
  {
    s.Some? && s.value != ""
  }

  /** The outcome of one `getState` call: the decoded `state` field (absent
      when the response carries none), or what the call threw. */
  datatype Fetch =
    | Fetched(state: Option<Snapshot>)
    | FetchFailed(err: Thrown)
}
