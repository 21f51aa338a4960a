/** Failure-compatible wrappers: the `Option` of a nullable value and the
    `Result` of an operation that can panic. */
module Wrappers {

  datatype Option<+T> = None | Some(value: T)

  datatype Result<+R, +E> = Success(value: R) | Failure(error: E)

  /** Why a call aborts instead of returning. */
  datatype Panic = UnwrapOnNone

  /** `Option::unwrap`: the value when there is one, a panic otherwise. */
  function Unwrap<T>(o: Option<T>): (r: Result<T, Panic>)
    ensures r.Success? <==> o.Some?
    ensures r.Success? ==> r.value == o.value
    ensures r.Failure? ==> r.error == UnwrapOnNone
  {
    match o
    case Some(v) => Success(v)
    case None => Failure(UnwrapOnNone)
  }
}
