/** Small failure-carrying datatypes shared by the rest of the model. */
module Wrappers {

  /** A value that may be absent. */
  datatype Option<+T> = None | Some(value: T)

  /** Either a computed value or the error the source would raise. */
  datatype Result<+R, +E> = Success(value: R) | Failure(error: E)

  /** One entry of a Python dictionary read with `.get`: the key may be
      missing, present with the value `None`, or present with a value.
      The distinction matters because `d.get(k, default)` only falls back
      to `default` when the key is missing. */
  datatype Field<+T> = Missing | Null | Given(value: T)
}
