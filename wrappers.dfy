/** Failure-carrying values shared by every module of the model. */
module Wrappers {

  datatype Option<+T> = None | Some(value: T)

  datatype Result<+T, +E> = Ok(value: T) | Fail(error: E)

  /** An error as the repository's errors package builds it: a root message,
      or a context message wrapped around a cause (errors.Wrap / Wrapf). */
  datatype Error = Message(text: string) | Wrapped(context: string, cause: Error)
}
