/** Failure-carrying values shared by the modules of this model, and the
    Python exceptions that the modelled lines of engine/utils.py can raise. */
module Wrappers {

  datatype Option<+T> = None | Some(value: T)

  datatype Result<+T, +E> = Success(value: T) | Failure(error: E)

  /** The exceptions raised by the modelled code paths. */
  datatype PyException =
    | KeyError(key: string)      // a dictionary lookup of a missing key
    | IndexError(index: int)     // a list index past the end
    | ZeroDivisionError          // a float division by 0.0
}
