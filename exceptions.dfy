/**
 * The exceptions the core raises: DomainException and its subclasses NotFoundException and
 * NotificationException, the NullPointerException of a null check, and any other failure
 * (a gateway's IllegalStateException, say), of which only the message matters.
 */
module DomainExceptions {
  import opened Wrappers
  import opened Validation

  datatype Failure =
    | Domain(errors: seq<Error>)                   // DomainException.with(...)
    | NotFound(message: string, errors: seq<Error>) // NotFoundException
    | Invalid(message: string, errors: seq<Error>)  // NotificationException
    | NullPointer(detail: Option<string>)           // requireNonNull (with its message) or a null dereference
    | Unexpected(message: string)                   // any other exception
  {
    /** Whether a `catch (DomainException e)` catches it. */
    predicate IsDomainException() {
      Domain? || NotFound? || Invalid?
    }

    /** DomainException.getErrors(). */
    function Errors(): seq<Error>
      requires IsDomainException()
    {
      errors
    }
  }

  /** The aggregate classes whose simple name a NotFoundException reports. */
  datatype Aggregate = CategoryAggregate | GenreAggregate

  /** Class.getSimpleName() of the aggregate class. */
  function SimpleName(a: Aggregate): string {
    match a
    case CategoryAggregate => "Category"
    case GenreAggregate => "Genre"
  }

  /** NotFoundException.with(anAggregate, anIdentifier), given the identifier's value. */
  function NotFoundWith(a: Aggregate, id: string): (f: Failure)
    ensures f.NotFound? && f.IsDomainException() && f.Errors() == []
    ensures |f.message| == |SimpleName(a)| + |id| + 19
    ensures f.message[..|SimpleName(a)|] == SimpleName(a)
  {
    NotFound(SimpleName(a) + " with id " + id + " not found", [])
  }

  /** The message names the aggregate and the id: two not-found failures with the same message
      are about the same aggregate class and the same id. */
  lemma {:induction false} NotFoundMessageDeterminesId(a: Aggregate, id: string, b: Aggregate, id': string)
    requires NotFoundWith(a, id).message == NotFoundWith(b, id').message
    ensures a == b && id == id'
  {
    var m := NotFoundWith(a, id).message;
    assert m[0] == SimpleName(a)[0] && m[0] == SimpleName(b)[0];
    var p := |SimpleName(a) + " with id "|;
    assert m[p..|m| - 10] == id;
    assert m[p..|m| - 10] == id';
  }

  /** The code's message is "... not found"; the application tests expect "... was not found". */
  lemma NotFoundMessageDiffersFromTests(a: Aggregate, id: string)
    ensures NotFoundWith(a, id).message != SimpleName(a) + " with id " + id + " was not found"
  {
    var m := NotFoundWith(a, id).message;
    var t := SimpleName(a) + " with id " + id + " was not found";
    assert |t| == |m| + 4;
  }
}
