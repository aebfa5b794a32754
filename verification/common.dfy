/**
 * Values shared by every part of the model: an optional value, a result that
 * is either a value or an error, and the few Python values the settings of
 * the gate can take, with Python's truthiness.
 */
module Common {

  datatype Option<T> = None | Some(value: T) {
    function GetOr(default: T): T {
      match this
      case Some(v) => v
      case None => default
    }
  }

  datatype Result<T, E> = Success(value: T) | Failure(error: E)

  /** A Django setting's value, as far as the gate looks at it. */
  datatype PyValue = PyBool(b: bool) | PyNone | PyInt(i: int) | PyStr(s: string)

  /** Python's `bool(v)`. */
  predicate Truthy(v: PyValue) {
    match v
    case PyBool(b) => b
    case PyNone => false
    case PyInt(i) => i != 0
    case PyStr(s) => s != ""
  }

  /** A request header as both generations log it: `request.META.get(key, 'unknown')`. */
  function MetaOrUnknown(meta: map<string, string>, key: string): (v: string)
    ensures key in meta ==> v == meta[key]
    ensures key !in meta ==> v == "unknown"
  {
    if key in meta then meta[key] else "unknown"
  }
}
