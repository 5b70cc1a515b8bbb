/** Values shared by every part of the model: optional values, the Python
    exceptions the scoring and routing code can raise, and the three ways a
    key of a Python dictionary can look to `d.get(key, default)`. */
module Common {

  datatype Option<+T> = None | Some(value: T)

  /** The Python exceptions the modelled code raises (and never catches). */
  datatype Fault =
    | TypeError         // float(None), iterating over None
    | ZeroDivision      // a Python float divided by 0.0
    | ValueError        // int("x"), datetime.time(25, 0), bad preference_type
    | KeyError          // d[key] on a dictionary without that key
    | AttributeError    // module.name for a name the module does not bind

  datatype Result<+T> = Ok(value: T) | Err(fault: Fault)
  {
    predicate IsFailure()
    {
      Err?
    }

    function PropagateFailure<U>(): Result<U>
      requires Err?
    {
      Err(fault)
    }

    function Extract(): T
      requires Ok?
    {
      value
    }
  }

  /** What a route hands back: its value, an `HTTPException` with its
      status code, or an exception nothing catches. */
  datatype Response<+T> = Success(value: T) | HttpError(status: int) | Crash(fault: Fault)

  /** One key of a dictionary (a database row or a request body): the key
      may be missing, present with value None, or present with a value. */
  datatype Slot<+T> = Absent | Null | Present(value: T)

  /** `d.get(key)` followed by an `is not None` test. */
  function Get<T>(s: Slot<T>): Option<T>
  {
    if s.Present? then Some(s.value) else None
  }

  /** `d.get(key, default)`: the default only replaces a missing key. */
  function GetOr<T>(s: Slot<T>, default: T): Option<T>
  {
    match s
    case Absent => Some(default)
    case Null => None
    case Present(v) => Some(v)
  }

  /** `float(d.get(key, default))`: a key holding None raises TypeError. */
  function FloatOr(s: Slot<real>, default: real): Result<real>
  {
    match s
    case Absent => Ok(default)
    case Null => Err(TypeError)
    case Present(v) => Ok(v)
  }
}
