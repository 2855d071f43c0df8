/** Wrappers that turn any failure of a service call into an `Error` whose
    message names the action (src/utils/errorHandler.ts). An async call is
    modelled by the outcome its promise settles with. */
module ErrorHandler {
  import opened Prelude
  import opened Js
  import opened ErrorUtil

  datatype Outcome<+R> = Resolved(value: R) | Rejected(reason: JsValue)

  function FailurePrefix(actionName: string): string
  {
    "Failed to " + actionName + ": "
  }

  /** `withErrorHandling(fn, actionName)(...args)` */
  function WithErrorHandling<A, R>(fn: A -> Outcome<R>, actionName: string, args: A): (r: Outcome<R>)
    ensures fn(args).Resolved? <==> r.Resolved?
    ensures fn(args).Resolved? ==> r == fn(args)
    ensures r.Rejected? ==> r.reason.ErrorInstance? && StartsWith(r.reason.message, FailurePrefix(actionName))
    ensures r.Rejected? ==>
      r.reason.message == FailurePrefix(actionName) + GetErrorMessage(fn(args).reason, "Unknown error")
  {
    match fn(args)
    case Resolved(v) => Resolved(v)
    case Rejected(e) => Rejected(ErrorInstance(FailurePrefix(actionName) + GetErrorMessage(e, "Unknown error")))
  }

  /** The `@handleErrors(actionName)` decorator applied to a method, called on
      `self` with `args`. */
  function HandleErrors<S, A, R>(wrapped: (S, A) -> Outcome<R>, actionName: string, self: S, args: A): (r: Outcome<R>)
    ensures wrapped(self, args).Resolved? ==> r == wrapped(self, args)
    ensures wrapped(self, args).Rejected? ==>
      r == Rejected(ErrorInstance(FailurePrefix(actionName) + GetErrorMessage(wrapped(self, args).reason, "Unknown error")))
  {
    match wrapped(self, args)
    case Resolved(v) => Resolved(v)
    case Rejected(e) => Rejected(ErrorInstance(FailurePrefix(actionName) + GetErrorMessage(e, "Unknown error")))
  }

  /** The decorator behaves as the wrapper around the method bound to `self`. */
  lemma DecoratorAgreesWithWrapper<S, A, R>(wrapped: (S, A) -> Outcome<R>, actionName: string, self: S, args: A)
    ensures HandleErrors(wrapped, actionName, self, args)
         == WithErrorHandling((a: A) => wrapped(self, a), actionName, args)
  {
  }

  /** A rejection that carries no message is reported as "Unknown error". */
  lemma UnknownErrorFallback<A, R>(fn: A -> Outcome<R>, actionName: string, args: A)
    requires fn(args).Rejected? && !CarriesMessage(fn(args).reason)
    ensures WithErrorHandling(fn, actionName, args)
         == Rejected(ErrorInstance("Failed to " + actionName + ": Unknown error"))
  {
  }
}
