/** Optional values and fallible results shared by every module of the model. */
module Wrappers {
  /** A value that may be absent: C# `null`, a failed dictionary lookup. */
  datatype Option<T> = None | Some(value: T)

  /** The exceptions the services raise on purpose, plus the one a model call can throw. */
  datatype Error =
    | NotFound(what: string)     // InvalidOperationException("... not found")
    | ModelCallFailed            // an exception escaping the chat call of the model backend

  /** The outcome of an operation that may throw. */
  datatype Result<T> = Ok(value: T) | Err(error: Error)
}
