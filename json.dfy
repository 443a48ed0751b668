/**
 * The shape of a job record as a provider's decoded JSON gives it: a
 * dictionary from keys to values, where a value is a string, a nested
 * record, or `null`. A key that is missing is simply not in the map.
 */
module Json {

  datatype Value = Str(s: string) | Rec(fields: map<string, Value>) | Null

  type Job = map<string, Value>

  /** Python's `job.get(key)`: `None` when the key is missing. */
  function Get(job: Job, key: string): Value {
    if key in job then job[key] else Null
  }

  /** Python's `job.get(key, default)`. */
  function GetOr(job: Job, key: string, default: Value): Value {
    if key in job then job[key] else default
  }

  /** Python truthiness: a non-empty string or a non-empty record. */
  predicate Truthy(v: Value) {
    match v
    case Str(s) => s != ""
    case Rec(fields) => |fields| > 0
    case Null => false
  }

  /** Python's `a or b`: `a` when it is truthy, else `b`; so it is truthy exactly when one of them is. */
  function Or(a: Value, b: Value): (r: Value)
    ensures Truthy(a) ==> r == a
    ensures !Truthy(a) ==> r == b
    ensures Truthy(r) <==> Truthy(a) || Truthy(b)
  {
    if Truthy(a) then a else b
  }

  /** The text an f-string gives a value: `None` for null; a nested record reads as empty text. */
  function Render(v: Value): string {
    match v
    case Str(s) => s
    case Null => "None"
    case Rec(_) => ""
  }
}
