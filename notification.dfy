/**
 * Notification, the accumulating handler, reduced to the shape the core uses: an append-only
 * list of errors. Its source is not part of this model.
 */
module Notifications {
  import opened Validation

  datatype Notification = Notification(errors: seq<Error>)

  /** `Notification.create()`: no errors yet. */
  function Create(): (n: Notification)
    ensures n.errors == []
  {
    Notification([])
  }

  /** `Notification.create(aThrowable)`: one error holding the throwable's message. */
  function FromFailure(message: string): (n: Notification)
    ensures n.errors == [Error(message)]
  {
    Notification([Error(message)])
  }

  /** `append(anError)`: records the error after the earlier ones and returns normally. */
  function Append(n: Notification, e: Error): (r: Notification)
    ensures r.errors == n.errors + [e]
  {
    Notification(n.errors + [e])
  }
}

/** The reporting policy a validator is run under: fail fast, or accumulate into a notification. */
module ValidationHandlers {
  import opened Wrappers
  import opened Validation
  import opened DomainExceptions
  import opened Notifications
  import ThrowsValidationHandler
  import ValidationHandler

  datatype Handler = Throwing | Accumulating(notification: Notification)

  /** `getErrors()` of either handler. */
  function Errors(h: Handler): seq<Error> {
    match h
    case Throwing => ThrowsValidationHandler.GetErrors()
    case Accumulating(n) => n.errors
  }

  /** `append(anError)` dispatched on the handler: the throwing one raises with exactly that error,
      the accumulating one returns with that error added at the end. */
  function Append(h: Handler, e: Error): (r: Result<Handler, Failure>)
    ensures r.Failure? <==> h.Throwing?
    ensures r.Failure? ==> r.error.IsDomainException() && r.error.Errors() == [e]
    ensures r.Success? ==> r.value.Accumulating? && Errors(r.value) == Errors(h) + [e]
  {
    match h
    case Throwing => Failure(ThrowsValidationHandler.Append(e))
    case Accumulating(n) => Success(Accumulating(Notifications.Append(n, e)))
  }

  /** `hasError()` and `firtsError()` depend on the error list alone. */
  lemma DefaultsDependOnErrorsOnly(h: Handler, h': Handler)
    requires Errors(h) == Errors(h')
    ensures ValidationHandler.HasError(Some(Errors(h))) == ValidationHandler.HasError(Some(Errors(h')))
    ensures ValidationHandler.FirstError(Some(Errors(h))) == ValidationHandler.FirstError(Some(Errors(h')))
  {
  }
}
