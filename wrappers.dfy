/** Option, nullish and Result values shared by every module of the model. */
module Wrappers {

  /** A value that is present (`Some`) or `undefined` (`None`). */
  datatype Option<+T> = None | Some(value: T)

  /** A JavaScript value that may be `undefined`, `null` or defined. */
  datatype Nullish<+T> = Undefined | Null | Defined(value: T)

  /** `x ?? undefined`: both `null` and `undefined` become absent. */
  function CoalesceToUndefined<T>(x: Nullish<T>): (r: Option<T>)
    ensures r.Some? <==> x.Defined?
    ensures r.Some? ==> r.value == x.value
  {
    match x
    case Defined(v) => Some(v)
    case _ => None
  }

  /** The success-or-failure value handed to the envelope; failures carry a message. */
  datatype Result<+T> = Success(value: T) | Failure(error: string)
}
