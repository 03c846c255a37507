/** Shared vocabulary of the triage model: optional values, results carrying the
    Python exception a step would raise, and the dynamic values that travel
    through the system's dictionaries and JSON records. */
module Common {

  datatype Option<+T> = None | Some(value: T)

  /** The Python exception kinds the modelled code can raise. */
  datatype Error =
    | IndexError                         // a list index past the end
    | KeyError(key: string)              // a missing dictionary key
    | ValueError(message: string)        // raised explicitly, or by numpy/sklearn
    | AttributeError                     // e.g. `.lower()` on a value that is not a str
    | UnboundLocalError(name: string)    // a local read before any assignment
    | FileNotFoundError(message: string) // raised explicitly by the service start-up

  datatype Result<+T> = Ok(value: T) | Err(error: Error)

  /** A Python value as it appears in the dictionaries the code passes around. */
  datatype Value =
    | Str(s: string)
    | Num(x: real)
    | Bool(b: bool)
    | Null
    | List(items: seq<Value>)
    | Dict(entries: map<string, Value>)

  /** Python truthiness (`if not v`). */
  predicate Truthy(v: Value)
  {
    match v
    case Str(s) => s != ""
    case Num(x) => x != 0.0
    case Bool(b) => b
    case Null => false
    case List(items) => items != []
    case Dict(entries) => entries != map[]
  }

  /** The text an f-string shows for a value; only strings, booleans and None
      are rendered exactly. */
  function Display(v: Value): string
  {
    match v
    case Str(s) => s
    case Bool(b) => if b then "True" else "False"
    case Null => "None"
    case _ => ""
  }

  /** `dict.get(key, default)`. */
  function Get(m: map<string, Value>, key: string, default: Value): Value
  {
    if key in m then m[key] else default
  }
}
