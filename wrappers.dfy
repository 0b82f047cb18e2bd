/** Option, the failures the Python code can raise, and a Result over them. */
module Wrappers {

  datatype Option<+T> = None | Some(value: T) {
    function GetOr(default: T): T {
      match this
      case Some(v) => v
      case None => default
    }
  }

  /** The exception a Python operation raises, by kind. */
  datatype Fault =
    | AttributeError   // `.get`/`.pop` on something that is not a dict
    | TypeError        // iterating a non-iterable, hashing an unhashable key
    | KeyError         // `dict.pop(k)` with no default on a missing key
    | ValueError       // an explicit `raise ValueError(...)`
    | ValidationError(loc: string)  // a pydantic model rejected its input at field `loc`
    | HttpStatusError(status: int)  // `httpx.Response.raise_for_status()`
    | OverflowError    // `int()` of an infinite float

  datatype Result<+T> = Ok(value: T) | Err(fault: Fault) {
    predicate IsFailure() { Err? }
    function PropagateFailure<U>(): Result<U>
      requires Err?
    {
      Err(fault)
    }
    function Extract(): T
      requires Ok?
    {
      value
    }
  }
}
