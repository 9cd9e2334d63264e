/** Optional values, Python exceptions and computations that may raise one. */
module Outcomes {

  /** A value that may be absent (Python's `None`). */
  datatype Option<+T> = None | Some(value: T)

  /** The exceptions the pipeline can raise. `TypeError` and `AttributeError`
      come from applying an operation (named by `op`) to a JSON value of the
      wrong type; `External` is anything raised by code outside the model
      (the HTTP client, JSON decoding, the file system, the messaging API). */
  datatype Exc =
    | TypeError(op: string)
    | AttributeError(op: string)
    | External(name: string, message: string)

  /** The result of a Python computation: a value, or the exception it raised. */
  datatype Result<+T> = Ok(value: T) | Raised(exc: Exc)

  /** Sequential evaluation of two boolean conditions that are both always
      evaluated: the first exception wins, otherwise the disjunction. */
  function Or(x: Result<bool>, y: Result<bool>): (r: Result<bool>)
    ensures r.Raised? <==> x.Raised? || y.Raised?
    ensures x.Raised? ==> r == x
    ensures r == Ok(true) <==> (x == Ok(true) || y == Ok(true)) && x.Ok? && y.Ok?
  {
    if x.Raised? then x
    else if y.Raised? then y
    else Ok(x.value || y.value)
  }
}
