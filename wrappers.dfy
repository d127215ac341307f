/** Small value wrappers shared by the rest of the model. */
module Wrappers {

  /** A value that may be absent (JavaScript `null` / `undefined`). */
  datatype Option<+T> = None | Some(value: T)

  /**
   * The outcome of one call to the remote data service: either the resolved
   * value or a rejection carrying the HTTP status of the response (0 when the
   * request failed without a response).
   */
  datatype Reply<+T> = Success(value: T) | Failure(status: int)
}
