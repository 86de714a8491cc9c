/** Small value types shared by the model: the source's nullable references and its exceptions. */
module Wrappers {

  /** A reference that may be null: `None` stands for C#'s `null`. */
  datatype Option<+T> = None | Some(value: T)

  /** The outcome of an operation that either returns a value or throws. */
  datatype Result<+R, +E> = Success(value: R) | Failure(error: E)

  /** The objects an optional reference points to: none, or exactly one. */
  function Objects<T>(o: Option<T>): set<T>
  {
    if o.Some? then {o.value} else {}
  }
}
