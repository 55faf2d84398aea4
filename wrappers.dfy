/** Failure-carrying wrappers shared by the agent model. */
module Wrappers {

  /** A value that may be absent. */
  datatype Option<+T> = None | Some(value: T)

  /** The outcome of a step that may throw a C++ exception: the value it
      produced, or the text `what()` of the exception it threw. */
  datatype Try<+T> = Ok(value: T) | Throw(what: string)
}
