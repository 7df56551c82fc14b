/**
 * The exceptions the promise core raises or passes around (prompy/errors.py,
 * plus the built-in exceptions the core's code paths can raise).
 * An exception raised `from` another keeps that one as its cause.
 */
module Errors {

  type PromiseId = nat

  datatype Error =
      /** UnhandledPromiseError("Unhandled promise exception: <id>") from cause */
    | Unhandled(promise: PromiseId, cause: Error)
      /** PromiseRejectionError("Promise <id> was rejected") from cause */
    | Rejection(promise: PromiseId, cause: Error)
      /** UrlCallError, the web call error */
    | UrlCall(message: string)
      /** a plain `Exception(message)` */
    | Exception(message: string)
      /** an exception raised by user code (a starter, a callback, a wrapped function) */
    | UserError(name: string)
    | KeyError(key: nat)
    | TypeError(message: string)
    | ValueError(message: string)
    | AttributeError(attribute: string)
    | IndexError
    | AssertionError(message: string)
    | NotImplementedError

  /** PromiseError is the base class of the library's own errors. */
  predicate IsPromiseError(e: Error) {
    e.Unhandled? || e.Rejection? || e.UrlCall?
  }
}
