/** Option and Result values, and the failures the modelled code throws. */
module Wrappers {

  datatype Option<T> = None | Some(value: T)

  datatype Result<T, E> = Ok(value: T) | Err(error: E)
}

module Errors {

  /** What a rejected promise or a thrown exception carries in the modelled code. */
  datatype Failure =
    | Error(message: string)        // `new Error(message)` thrown by the code itself
    | UndefinedSimilarityText       // the TypeError raised by reading a property of `undefined`
}
