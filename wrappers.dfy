/** Optional values and the exceptions the editor code can raise. */
module Wrappers {

  /** `None` stands for a C# `null` (for a Unity object: a missing asset). */
  datatype Option<+T> = None | Some(value: T)

  /** The exceptions the modelled code throws, by .NET type. */
  datatype Error =
    | NullReference        // NullReferenceException
    | IndexOutOfRange      // IndexOutOfRangeException (explicit throws, array indexing)
    | ArgumentOutOfRange   // ArgumentOutOfRangeException (List<T> indexer, Insert, RemoveAt)

  /** The value a call returns, or the exception it throws. */
  datatype Result<+T> = Ok(value: T) | Raised(error: Error)

  /** Completion of a call that returns nothing. */
  datatype Outcome = Done | Failed(error: Error)
}
