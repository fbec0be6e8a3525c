/**
 * The category persistence port, as an in-memory store. It keeps the categories by identifier,
 * answers `findAll` with a prepared page, can be told to raise on any of its operations, and
 * records every call made on it, so that "never called" and "called once with x" can be stated.
 */
module CategoryGateways {
  import opened Wrappers
  import opened DomainExceptions
  import opened CategoryIds
  import opened Categories
  import opened Paging

  /** The operations of `CategoryGateway`. */
  datatype Operation = CreateOp | UpdateOp | FindAllOp | FindByIdOp | DeleteByIdOp

  /** One call received, with its argument (a category as its fields at the time of the call). */
  datatype Call =
    | CreateCall(category: CategoryState)
    | UpdateCall(category: CategoryState)
    | FindAllCall(query: SearchQuery)
    | FindByIdCall(id: CategoryId)
    | DeleteByIdCall(id: CategoryId)

  /** How many calls of one operation a log holds. */
  function Count(calls: seq<Call>, op: Operation): (n: nat)
    ensures n <= |calls|
  {
    if calls == [] then 0
    else Count(calls[..|calls| - 1], op) + if OperationOf(calls[|calls| - 1]) == op then 1 else 0
  }

  function OperationOf(c: Call): Operation {
    match c
    case CreateCall(_) => CreateOp
    case UpdateCall(_) => UpdateOp
    case FindAllCall(_) => FindAllOp
    case FindByIdCall(_) => FindByIdOp
    case DeleteByIdCall(_) => DeleteByIdOp
  }

  /** Appending calls adds their counts. */
  lemma {:induction false} CountAppend(calls: seq<Call>, more: seq<Call>, op: Operation)
    ensures Count(calls + more, op) == Count(calls, op) + Count(more, op)
    decreases |more|
  {
    if more == [] {
      assert calls + more == calls;
    } else {
      var last := |more| - 1;
      assert (calls + more)[..|calls + more| - 1] == calls + more[..last];
      CountAppend(calls, more[..last], op);
    }
  }

  class CategoryGateway {
    /** The persisted categories. */
    var store: map<CategoryId, CategoryState>
    /** The operations that raise, with the message of the exception they raise. */
    var faults: map<Operation, string>
    /** The page `findAll` answers with; searching and sorting belong to the database. */
    var listing: Pagination<CategoryState>
    /** Every call received, oldest first. */
    var calls: seq<Call>

    /** Every category is stored under its own identifier. */
    ghost predicate Valid()
      reads this
    {
      forall id | id in store :: store[id].id == id
    }

    constructor (store: map<CategoryId, CategoryState>, faults: map<Operation, string>, listing: Pagination<CategoryState>)
      requires forall id | id in store :: store[id].id == id
      ensures Valid()
      ensures this.store == store && this.faults == faults && this.listing == listing && calls == []
    {
      this.store := store;
      this.faults := faults;
      this.listing := listing;
      calls := [];
    }

    /** `create(aCategory)`: stores the category and returns it, or raises. */
    method Create(c: Category) returns (r: Result<Category, string>)
      requires Valid()
      modifies this
      ensures Valid()
      ensures calls == old(calls) + [CreateCall(c.State())]
      ensures faults == old(faults) && listing == old(listing)
      ensures CreateOp in faults ==> r == Failure(faults[CreateOp]) && store == old(store)
      ensures CreateOp !in faults ==> r == Success(c) && store == old(store)[c.id := c.State()]
    {
      calls := calls + [CreateCall(c.State())];
      if CreateOp in faults {
        return Failure(faults[CreateOp]);
      }
      store := store[c.id := c.State()];
      return Success(c);
    }

    /** `update(aCategory)`: stores the category over any earlier one with its id, or raises. */
    method Update(c: Category) returns (r: Result<Category, string>)
      requires Valid()
      modifies this
      ensures Valid()
      ensures calls == old(calls) + [UpdateCall(c.State())]
      ensures faults == old(faults) && listing == old(listing)
      ensures UpdateOp in faults ==> r == Failure(faults[UpdateOp]) && store == old(store)
      ensures UpdateOp !in faults ==> r == Success(c) && store == old(store)[c.id := c.State()]
    {
      calls := calls + [UpdateCall(c.State())];
      if UpdateOp in faults {
        return Failure(faults[UpdateOp]);
      }
      store := store[c.id := c.State()];
      return Success(c);
    }

    /** `findById(anId)`: a new object holding the stored fields, empty when the id is not stored,
        or a raised failure. */
    method FindById(id: CategoryId) returns (r: Result<Option<Category>, Failure>)
      requires Valid()
      modifies this
      ensures Valid()
      ensures calls == old(calls) + [FindByIdCall(id)]
      ensures store == old(store) && faults == old(faults) && listing == old(listing)
      ensures FindByIdOp in faults <==> r.Failure?
      ensures FindByIdOp in faults ==> r.error == Unexpected(faults[FindByIdOp])
      ensures r.Success? ==> (r.value.Some? <==> id in store)
      ensures r.Success? && r.value.Some? ==> fresh(r.value.value) && r.value.value.State() == store[id]
    {
      calls := calls + [FindByIdCall(id)];
      if FindByIdOp in faults {
        return Failure(Unexpected(faults[FindByIdOp]));
      }
      if id !in store {
        return Success(None);
      }
      var c := new Category(store[id]);
      return Success(Some(c));
    }

    /** `deleteById(anId)`: removes the id if it is stored; an absent id is not an error. */
    method DeleteById(id: CategoryId) returns (r: Result<(), Failure>)
      requires Valid()
      modifies this
      ensures Valid()
      ensures calls == old(calls) + [DeleteByIdCall(id)]
      ensures faults == old(faults) && listing == old(listing)
      ensures DeleteByIdOp in faults ==> r == Failure(Unexpected(faults[DeleteByIdOp])) && store == old(store)
      ensures DeleteByIdOp !in faults ==> r == Success(()) && store == old(store) - {id}
    {
      calls := calls + [DeleteByIdCall(id)];
      if DeleteByIdOp in faults {
        return Failure(Unexpected(faults[DeleteByIdOp]));
      }
      store := store - {id};
      return Success(());
    }

    /** `findAll(aQuery)`: the prepared page, or a raised failure. */
    method FindAll(q: SearchQuery) returns (r: Result<Pagination<CategoryState>, Failure>)
      requires Valid()
      modifies this
      ensures Valid()
      ensures calls == old(calls) + [FindAllCall(q)]
      ensures store == old(store) && faults == old(faults) && listing == old(listing)
      ensures FindAllOp in faults ==> r == Failure(Unexpected(faults[FindAllOp]))
      ensures FindAllOp !in faults ==> r == Success(listing)
    {
      calls := calls + [FindAllCall(q)];
      if FindAllOp in faults {
        return Failure(Unexpected(faults[FindAllOp]));
      }
      return Success(listing);
    }
  }

  /** Removing an id from the store drops exactly that id: a stored id is gone, an absent id leaves
      the store as it was, and every other entry is kept. */
  lemma DeleteFromStore(store: map<CategoryId, CategoryState>, id: CategoryId)
    ensures id !in store - {id}
    ensures id !in store ==> store - {id} == store
    ensures forall other | other in store && other != id :: other in store - {id} && (store - {id})[other] == store[other]
  {
  }
}
