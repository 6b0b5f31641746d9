/** Optional values and outcomes shared by the agent modules. */
module Wrappers {

  /** A value that may be absent: Python's `None` or a missing dictionary key. */
  datatype Option<+T> = None | Some(value: T) {

    /** The value, or `default` when absent (Python's `d.get(key, default)`). */
    function GetOr(default: T): T {
      match this
      case Some(v) => v
      case None => default
    }
  }

  /** The outcome of a call into a service outside the model (an HTTP or LLM call):
      the text it returned, or the message of the exception it raised. */
  datatype Result<+R> = Success(value: R) | Failure(error: string)
}
