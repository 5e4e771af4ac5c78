/** Option and Result, the absence and failure values of the model. */
module Wrappers {

  /** `None` stands for Python's `None` returned by a lookup that found nothing. */
  datatype Option<+T> = None | Some(value: T)

  /** `Failure` stands for an exception that propagates out of an operation. */
  datatype Result<+T> = Success(value: T) | Failure(error: string)
}
