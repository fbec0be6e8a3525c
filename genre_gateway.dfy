/**
 * The genre persistence port, as an in-memory store of genres by identifier, shaped like the
 * category one: a prepared page for `findAll`, operations that can be told to raise, and a log of
 * every call. Only the operations the genre use cases call are modelled.
 */
module GenreGateways {
  import opened Wrappers
  import opened DomainExceptions
  import opened GenreIds
  import opened Genres
  import opened Paging

  /** The operations of `GenreGateway` that the modelled use cases call. */
  datatype Operation = FindAllOp | FindByIdOp | DeleteByIdOp

  /** One call received, with its argument. */
  datatype Call =
    | FindAllCall(query: SearchQuery)
    | FindByIdCall(id: GenreId)
    | DeleteByIdCall(id: GenreId)

  class GenreGateway {
    /** The persisted genres; every one was a Genre object, so every one has a valid name. */
    var store: map<GenreId, GenreState>
    /** The operations that raise, with the message of the exception they raise. */
    var faults: map<Operation, string>
    /** The page `findAll` answers with; searching and sorting belong to the database. */
    var listing: Pagination<GenreState>
    /** Every call received, oldest first. */
    var calls: seq<Call>

    /** Every genre is stored under its own identifier, and only genres that could exist are stored. */
    ghost predicate Valid()
      reads this
    {
      forall id | id in store :: store[id].id == id && store[id].HasValidName()
    }

    constructor (store: map<GenreId, GenreState>, faults: map<Operation, string>, listing: Pagination<GenreState>)
      requires forall id | id in store :: store[id].id == id && store[id].HasValidName()
      ensures Valid()
      ensures this.store == store && this.faults == faults && this.listing == listing && calls == []
    {
      this.store := store;
      this.faults := faults;
      this.listing := listing;
      calls := [];
    }

    /** `findById(anId)`: a new Genre holding the stored fields, empty when the id is not stored,
        or a raised failure. */
    method FindById(id: GenreId) returns (r: Result<Option<Genre>, Failure>)
      requires Valid()
      modifies this
      ensures Valid()
      ensures calls == old(calls) + [FindByIdCall(id)]
      ensures store == old(store) && faults == old(faults) && listing == old(listing)
      ensures FindByIdOp in faults <==> r.Failure?
      ensures FindByIdOp in faults ==> r.error == Unexpected(faults[FindByIdOp])
      ensures r.Success? ==> (r.value.Some? <==> id in store)
      ensures r.Success? && r.value.Some? ==> fresh(r.value.value) && r.value.value.State() == store[id] && r.value.value.Valid()
    {
      calls := calls + [FindByIdCall(id)];
      if FindByIdOp in faults {
        return Failure(Unexpected(faults[FindByIdOp]));
      }
      if id !in store {
        return Success(None);
      }
      var g := new Genre.Assign(store[id]);
      return Success(Some(g));
    }

    /** `deleteById(anId)`: removes the id if it is stored; an absent id is not an error. */
    method DeleteById(id: GenreId) returns (r: Result<(), Failure>)
      requires Valid()
      modifies this
      ensures Valid()
      ensures calls == old(calls) + [DeleteByIdCall(id)]
      ensures faults == old(faults) && listing == old(listing)
      ensures DeleteByIdOp in faults ==> r == Failure(Unexpected(faults[DeleteByIdOp])) && store == old(store)
      ensures DeleteByIdOp !in faults ==> r == Success(()) && store == old(store) - {id}
    {
      calls := calls + [DeleteByIdCall(id)];
      if DeleteByIdOp in faults {
        return Failure(Unexpected(faults[DeleteByIdOp]));
      }
      store := store - {id};
      return Success(());
    }

    /** `findAll(aQuery)`: the prepared page, or a raised failure. */
    method FindAll(q: SearchQuery) returns (r: Result<Pagination<GenreState>, Failure>)
      requires Valid()
      modifies this
      ensures Valid()
      ensures calls == old(calls) + [FindAllCall(q)]
      ensures store == old(store) && faults == old(faults) && listing == old(listing)
      ensures FindAllOp in faults ==> r == Failure(Unexpected(faults[FindAllOp]))
      ensures FindAllOp !in faults ==> r == Success(listing)
    {
      calls := calls + [FindAllCall(q)];
      if FindAllOp in faults {
        return Failure(Unexpected(faults[FindAllOp]));
      }
      return Success(listing);
    }
  }
}
