/** ThrowsValidationHandler: the fail-fast strategy. It holds no state and raises on every append. */
module ThrowsValidationHandler {
  import opened Wrappers
  import opened Validation
  import opened DomainExceptions
  import ValidationHandler

  /** `append(anError)` never returns normally: it raises a DomainException carrying exactly `anError`. */
  function Append(e: Error): (f: Failure)
    ensures f.IsDomainException() && f.Errors() == [e]
  {
    Domain([e])
  }

  /** `append(aHandler)` raises a DomainException carrying the other handler's errors, unchanged. */
  function AppendHandler(otherErrors: seq<Error>): (f: Failure)
    ensures f.IsDomainException() && f.Errors() == otherErrors
  {
    Domain(otherErrors)
  }

  /** `validate(aValidation)`: the operation's value when it succeeds; when it raises, a DomainException
      with one error holding the raised exception's message. */
  function Validate<T>(op: Result<T, string>): (r: Result<T, Failure>)
    ensures op.Success? <==> r.Success?
    ensures op.Success? ==> r.value == op.value
    ensures op.Failure? ==> r.error.IsDomainException() && r.error.Errors() == [Error(op.error)]
  {
    match op
    case Success(v) => Success(v)
    case Failure(message) => Failure(Domain([Error(message)]))
  }

  /** `getErrors()`: always the empty list. */
  function GetErrors(): (r: seq<Error>)
    ensures |r| == 0 && !ValidationHandler.HasError(Some(r))
  {
    []
  }

  /** Hence `hasError()` is always false and `firtsError()` always null. */
  lemma NeverHasErrors()
    ensures !ValidationHandler.HasError(Some(GetErrors()))
    ensures ValidationHandler.FirstError(Some(GetErrors())) == Success(None)
  {
  }
}
