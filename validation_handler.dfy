/** The default methods of the ValidationHandler interface, over the handler's `getErrors()`. */
module ValidationHandler {
  import opened Wrappers
  import opened Validation
  import opened DomainExceptions

  /** `hasError()`: the error list (which `getErrors()` may return as null) is non-null and non-empty. */
  function HasError(errors: Option<seq<Error>>): (r: bool)
    ensures r <==> errors.Some? && errors.value != []
  {
    errors.Some? && |errors.value| != 0
  }

  /** `firtsError()`: null for an empty list, element 0 otherwise; a null list raises in `isEmpty()`. */
  function FirstError(errors: Option<seq<Error>>): (r: Result<Option<Error>, Failure>)
    ensures errors.None? <==> r == Failure(NullPointer(None))
    ensures r == Success(None) <==> errors == Some([])
    ensures r.Success? && r.value.Some? <==> errors.Some? && errors.value != []
    ensures r.Success? && r.value.Some? ==> r.value.value == errors.value[0]
  {
    match errors
    case None => Failure(NullPointer(None))
    case Some(es) => if |es| == 0 then Success(None) else Success(Some(es[0]))
  }

  /** A non-null first error means the handler has an error, and conversely. */
  lemma FirstErrorAgreesWithHasError(errors: Option<seq<Error>>)
    requires errors.Some?
    ensures FirstError(errors).value.Some? <==> HasError(errors)
  {
  }
}
