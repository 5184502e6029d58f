/** Option and Result, and the one exception shape the core throws: a JavaScript `Error`
    is modelled by its `message`, which is all that the handlers ever inspect. */
module Wrappers {

  datatype Option<+T> = None | Some(value: T)

  datatype Result<+R, +E> = Success(value: R) | Failure(error: E)

  /** `new Error(message)` */
  datatype Exception = Exception(message: string)
}
