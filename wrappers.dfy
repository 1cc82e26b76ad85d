/** Optional values and results with an error, as the command line passes them around:
    Python's `None` becomes `None`; `Failure` carries an error text, such as that
    of a decoding error or the message a run exits with. */
module Wrappers {

  datatype Option<T> = None | Some(value: T)

  datatype Result<T, E> = Success(value: T) | Failure(error: E)
}
