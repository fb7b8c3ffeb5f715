/** Optional values and the outcome of a REST operation. */
module Wrappers {

  datatype Option<T> = None | Some(value: T)
  {
    predicate IsSome() { this.Some? }
  }

  /**
   * The outcome of a resource operation: either a value, or the fault that
   * `_critical(message, code)` raises in the REST layer (an HTTP status code
   * and the message shown to the client).
   */
  datatype Outcome<T> = Done(value: T) | Fault(code: int, message: string)
  {
    predicate IsFault() { this.Fault? }
  }

  /** HTTP status codes the resources choose between. */
  const OK: int := 200
  const CREATED: int := 201
  const NO_CONTENT: int := 204
  const BAD_REQUEST: int := 400
  const NOT_FOUND: int := 404
  const METHOD_NOT_ALLOWED: int := 405
  const UNPROCESSABLE: int := 422
  /** What the API server answers for an exception that is not an API error. */
  const INTERNAL_ERROR: int := 500
}
