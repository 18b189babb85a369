/** Option, Result and Outcome: the values the model returns where the
    script would return None, raise an exception or fall through. */
module Wrappers {

  datatype Option<+T> = None | Some(value: T)

  /** A computation that either produces a value or raises an exception. */
  datatype Result<+T, +E> = Success(value: T) | Failure(error: E)

  /** A statement that either completes or raises an exception. */
  datatype Outcome<+E> = Pass | Fail(error: E)
}

/** The exceptions the modelled code can raise. */
module Exceptions {

  datatype Error =
    | IndexError                            // `xs[1]` on a list with fewer than two items
    | KeyError(key: string)                 // a missing dictionary key
    | NoSectionError(section: string)       // ConfigParser.set on an unknown section
    | FedoraCreateReviewError(message: string)
}
