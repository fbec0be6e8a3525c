/**
 * The category use cases: create and update validate before they persist and turn a failing
 * gateway call into a one-error notification; update, get, delete and list otherwise let the
 * gateway's failures through, and update and get raise NotFound for an unknown id.
 */
module CategoryUseCases {
  import opened Wrappers
  import opened Validation
  import opened DomainExceptions
  import opened Notifications
  import opened ValidationHandlers
  import opened CategoryIds
  import opened Categories
  import opened CategoryGateways
  import opened Identifiers
  import opened Clocks
  import opened Paging
  import ValidationHandler
  import CategoryValidator

  datatype CreateCategoryCommand = CreateCategoryCommand(name: Option<string>, description: Option<string>, isActive: bool)
  datatype CreateCategoryOutput = CreateCategoryOutput(id: CategoryId)
  datatype UpdateCategoryCommand = UpdateCategoryCommand(id: Option<string>, name: Option<string>, description: Option<string>, isActive: bool)
  datatype UpdateCategoryOutput = UpdateCategoryOutput(id: CategoryId)

  /** What get-by-id answers; its source is not part of this model, so it carries every field. */
  datatype CategoryOutput = CategoryOutput(
    id: CategoryId, name: Option<string>, description: Option<string>, isActive: bool,
    createdAt: nat, updatedAt: nat, deletedAt: Option<nat>)

  /** One item of a category listing: no update time. */
  datatype CategoryListOutput = CategoryListOutput(
    id: CategoryId, name: Option<string>, description: Option<string>, isActive: bool,
    createdAt: nat, deletedAt: Option<nat>)

  /** `CategoryOutput.from(aCategory)`. */
  function OutputFrom(c: CategoryState): CategoryOutput {
    CategoryOutput(c.id, c.name, c.description, c.active, c.createdAt, c.updatedAt, c.deletedAt)
  }

  /** `CategoryListOutput.from(aCategory)`. */
  function ListOutputFrom(c: CategoryState): (o: CategoryListOutput)
    ensures o.id == c.id && o.name == c.name && o.description == c.description && o.isActive == c.active
    ensures o.createdAt == c.createdAt && o.deletedAt == c.deletedAt
    ensures c.IsConsistent() ==> (o.isActive <==> o.deletedAt.None?)
  {
    CategoryListOutput(c.id, c.name, c.description, c.active, c.createdAt, c.deletedAt)
  }

  /** A list item shows the category's id, name, description, flag and two of its timestamps;
      a consistent category gives an item that is active exactly when it has no deletion time;
      two categories that differ only in their update time give the same item. */
  lemma ListOutputProjects(c: CategoryState, t: nat)
    ensures var o := ListOutputFrom(c);
      o.id == c.id && o.name == c.name && o.description == c.description && o.isActive == c.active
      && o.createdAt == c.createdAt && o.deletedAt == c.deletedAt
    ensures c.IsConsistent() ==> (ListOutputFrom(c).isActive <==> ListOutputFrom(c).deletedAt.None?)
    ensures ListOutputFrom(c.(updatedAt := t)) == ListOutputFrom(c)
  {
  }

  /** `Try(gateway call).toEither().bimap(Notification::create, Output::from)`: a raised failure
      becomes a notification holding one error with its message, a returned value its output. */
  function Guarded<T, O>(attempt: Result<T, string>, from: T -> O): (r: Either<Notification, O>)
    ensures r.Left? <==> attempt.Failure?
    ensures r.Left? ==> r.left.errors == [Error(attempt.error)]
    ensures r.Right? ==> r.right == from(attempt.value)
  {
    match attempt
    case Failure(message) => Left(FromFailure(message))
    case Success(v) => Right(from(v))
  }

  /** What create and update answer for an aggregate whose name is `name`, given the message of the
      gateway's failure if it raises: the validation error alone when the name is refused (the
      gateway is not reached), else the failure's message alone, else the aggregate's id. */
  function PersistOutcome<O>(name: Option<string>, fault: Option<string>, output: O): (r: Either<Notification, O>)
    ensures r.Left? <==> !CategoryValidator.IsValidName(name) || fault.Some?
    ensures r.Left? ==> |r.left.errors| == 1
    ensures !CategoryValidator.IsValidName(name) ==> r.left.errors[0] == CategoryValidator.NameError(name).value
    ensures CategoryValidator.IsValidName(name) && fault.Some? ==> r.left.errors[0].message == fault.value
    ensures r.Right? ==> r.right == output
  {
    match CategoryValidator.NameError(name)
    case Some(e) => Left(Notifications.Append(Notifications.Create(), e))
    case None => Guarded(if fault.Some? then Failure(fault.value) else Success(output), (o: O) => o)
  }

  /** The fault a gateway configured with `faults` raises on `op`, if any. */
  function FaultOf(faults: map<Operation, string>, op: Operation): Option<string> {
    if op in faults then Some(faults[op]) else None
  }

  /** The outcome is a failure exactly when nothing was persisted, whatever the reason. */
  lemma {:induction false} PersistOutcomeSucceedsOnlyWhenPersisted<O>(name: Option<string>, fault: Option<string>, output: O)
    ensures PersistOutcome(name, fault, output).Right? <==> CategoryValidator.IsValidName(name) && fault.None?
    ensures PersistOutcome(name, fault, output).Left? ==> ValidationHandler.HasError(Some(PersistOutcome(name, fault, output).left.errors))
  {
  }

  class CreateCategoryUseCase {
    const gateway: CategoryGateway

    constructor (aGateway: CategoryGateway)
      ensures gateway == aGateway
    {
      gateway := aGateway;
    }

    /** `execute(aCommand)`: a new category from the command, validated into a fresh notification;
        the gateway's `create` is called once with it when (and only when) its name is valid, and
        the answer is the outcome of that. Nothing raises out of this use case. */
    method Execute(aCommand: CreateCategoryCommand, uuid: Uuid, clock: Clock)
      returns (r: Either<Notification, CreateCategoryOutput>)
      requires gateway.Valid()
      modifies gateway, clock
      ensures gateway.Valid()
      ensures old(clock.time) <= clock.time
      ensures gateway.faults == old(gateway.faults) && gateway.listing == old(gateway.listing)
      ensures var c := NewState(FromUuid(uuid), aCommand.name, aCommand.description, aCommand.isActive, clock.time);
        && r == PersistOutcome(aCommand.name, FaultOf(gateway.faults, CreateOp), CreateCategoryOutput(c.id))
        && gateway.calls == old(gateway.calls) + (if CategoryValidator.IsValidName(aCommand.name) then [CreateCall(c)] else [])
        && gateway.store == if CategoryValidator.IsValidName(aCommand.name) && CreateOp !in gateway.faults
                            then old(gateway.store)[c.id := c] else old(gateway.store)
    {
      var notification := Notifications.Create();
      var aCategory := Category.NewCategory(aCommand.name, aCommand.description, aCommand.isActive, uuid, clock);
      var validated := aCategory.Validate(Accumulating(notification));
      notification := validated.value.notification;
      if ValidationHandler.HasError(Some(notification.errors)) {
        return Left(notification);
      }
      r := Create(aCategory);
    }

    /** `create(aCategory)`: one guarded call of the gateway. */
    method Create(aCategory: Category) returns (r: Either<Notification, CreateCategoryOutput>)
      requires gateway.Valid()
      modifies gateway
      ensures gateway.Valid()
      ensures gateway.faults == old(gateway.faults) && gateway.listing == old(gateway.listing)
      ensures gateway.calls == old(gateway.calls) + [CreateCall(aCategory.State())]
      ensures CreateOp in gateway.faults ==> r == Left(FromFailure(gateway.faults[CreateOp])) && gateway.store == old(gateway.store)
      ensures CreateOp !in gateway.faults ==> r == Right(CreateCategoryOutput(aCategory.id))
      ensures CreateOp !in gateway.faults ==> gateway.store == old(gateway.store)[aCategory.id := aCategory.State()]
    {
      var attempt := gateway.Create(aCategory);
      r := Guarded(attempt, (c: Category) => CreateCategoryOutput(c.id));
    }
  }

  /** `notFound(anId)`: the NotFoundException naming Category and the id. */
  function NotFoundFor(id: CategoryId): (f: Failure)
    ensures f.IsDomainException() && f.Errors() == []
    ensures f == NotFoundWith(CategoryAggregate, id.value)
  {
    NotFoundWith(CategoryAggregate, id.value)
  }

  class UpdateCategoryUseCase {
    const gateway: CategoryGateway

    constructor (aGateway: CategoryGateway)
      ensures gateway == aGateway
    {
      gateway := aGateway;
    }

    /** `execute(aCommand)`: finds the category once by the command's id and raises NotFound when
        it is absent; otherwise updates the loaded object in place, validates it into a fresh
        notification, and calls the gateway's `update` with it once when (and only when) its name is
        valid. A null id and a failing `findById` raise; a failing `update` becomes a notification.
        `updated` is the category after the in-place update, when one was loaded. */
    method Execute(aCommand: UpdateCategoryCommand, clock: Clock)
      returns (r: Result<Either<Notification, UpdateCategoryOutput>, Failure>, ghost updated: CategoryState)
      requires gateway.Valid()
      modifies gateway, clock
      ensures gateway.Valid()
      ensures old(clock.time) <= clock.time
      ensures gateway.faults == old(gateway.faults) && gateway.listing == old(gateway.listing)
      ensures aCommand.id.None? ==> r == Failure(NullPointer(Some(IdNullMessage)))
                                    && gateway.calls == old(gateway.calls) && gateway.store == old(gateway.store)
      ensures aCommand.id.Some? && FindByIdOp in gateway.faults ==>
                r == Failure(Unexpected(gateway.faults[FindByIdOp]))
                && gateway.calls == old(gateway.calls) + [FindByIdCall(CategoryId(aCommand.id.value))]
                && gateway.store == old(gateway.store)
      ensures aCommand.id.Some? && FindByIdOp !in gateway.faults && CategoryId(aCommand.id.value) !in old(gateway.store) ==>
                r == Failure(NotFoundFor(CategoryId(aCommand.id.value)))
                && gateway.calls == old(gateway.calls) + [FindByIdCall(CategoryId(aCommand.id.value))]
                && gateway.store == old(gateway.store)
      ensures aCommand.id.Some? && FindByIdOp !in gateway.faults && CategoryId(aCommand.id.value) in old(gateway.store) ==>
                var id := CategoryId(aCommand.id.value);
                var valid := CategoryValidator.IsValidName(aCommand.name);
                && IsUpdateOf(updated, old(gateway.store)[id], aCommand.name, aCommand.description, aCommand.isActive,
                              old(clock.time), clock.time)
                && updated.id == id
                && r == Success(PersistOutcome(aCommand.name, FaultOf(gateway.faults, UpdateOp), UpdateCategoryOutput(id)))
                && gateway.calls == old(gateway.calls) + [FindByIdCall(id)] + (if valid then [UpdateCall(updated)] else [])
                && gateway.store == if valid && UpdateOp !in gateway.faults then old(gateway.store)[id := updated]
                                    else old(gateway.store)
    {
      updated := CategoryState(CategoryId(""), None, None, false, 0, 0, None);
      var notification := Notifications.Create();
      var parsed := CategoryIds.From(aCommand.id);
      if parsed.Failure? {
        return Failure(parsed.error), updated;
      }
      var anId := parsed.value;
      var found := gateway.FindById(anId);
      if found.Failure? {
        return Failure(found.error), updated;
      }
      if found.value.None? {
        return Failure(NotFoundFor(anId)), updated;
      }
      var aCategory := found.value.value;
      var _ := aCategory.Update(aCommand.name, aCommand.description, aCommand.isActive, clock);
      updated := aCategory.State();
      var validated := aCategory.Validate(Accumulating(notification));
      notification := validated.value.notification;
      if ValidationHandler.HasError(Some(notification.errors)) {
        return Success(Left(notification)), updated;
      }
      var outcome := Update(aCategory);
      return Success(outcome), updated;
    }

    /** `update(aCategory)`: one guarded call of the gateway. */
    method Update(aCategory: Category) returns (r: Either<Notification, UpdateCategoryOutput>)
      requires gateway.Valid()
      modifies gateway
      ensures gateway.Valid()
      ensures gateway.faults == old(gateway.faults) && gateway.listing == old(gateway.listing)
      ensures gateway.calls == old(gateway.calls) + [UpdateCall(aCategory.State())]
      ensures UpdateOp in gateway.faults ==> r == Left(FromFailure(gateway.faults[UpdateOp])) && gateway.store == old(gateway.store)
      ensures UpdateOp !in gateway.faults ==> r == Right(UpdateCategoryOutput(aCategory.id))
      ensures UpdateOp !in gateway.faults ==> gateway.store == old(gateway.store)[aCategory.id := aCategory.State()]
    {
      var attempt := gateway.Update(aCategory);
      r := Guarded(attempt, (c: Category) => UpdateCategoryOutput(c.id));
    }
  }

  /** An update that persisted stored the command's fields, with a deletion time exactly when the
      command asked for an inactive category; the gateway's `update` was called at most once. */
  lemma UpdatePersistsCommand(updated: CategoryState, loaded: CategoryState, aCommand: UpdateCategoryCommand, t0: nat, t1: nat,
                              before: seq<Call>, after: seq<Call>)
    requires IsUpdateOf(updated, loaded, aCommand.name, aCommand.description, aCommand.isActive, t0, t1)
    requires after == before + [FindByIdCall(loaded.id)] + (if CategoryValidator.IsValidName(aCommand.name) then [UpdateCall(updated)] else [])
    ensures updated.name == aCommand.name && updated.description == aCommand.description
    ensures updated.active == aCommand.isActive && (updated.deletedAt.None? <==> aCommand.isActive)
    ensures Count(after, FindByIdOp) == Count(before, FindByIdOp) + 1
    ensures Count(after, UpdateOp) == Count(before, UpdateOp) + (if CategoryValidator.IsValidName(aCommand.name) then 1 else 0)
  {
    UpdateSetsFields(updated, loaded, aCommand.name, aCommand.description, aCommand.isActive, t0, t1);
    var added := [FindByIdCall(loaded.id)] + (if CategoryValidator.IsValidName(aCommand.name) then [UpdateCall(updated)] else []);
    assert after == before + added;
    CountAppend(before, added, FindByIdOp);
    CountAppend(before, added, UpdateOp);
    if CategoryValidator.IsValidName(aCommand.name) {
      assert added[..1] == [FindByIdCall(loaded.id)];
      assert [FindByIdCall(loaded.id)][..0] == [];
    } else {
      assert added[..0] == [];
    }
  }

  class GetCategoryByIdUseCase {
    const gateway: CategoryGateway

    constructor (aGateway: CategoryGateway)
      ensures gateway == aGateway
    {
      gateway := aGateway;
    }

    /** `execute(anId)`: one read of the gateway; the stored category's fields, or NotFound naming
        Category and the id; a null id and a failing gateway raise. Nothing is written. */
    method Execute(anId: Option<string>) returns (r: Result<CategoryOutput, Failure>)
      requires gateway.Valid()
      modifies gateway
      ensures gateway.Valid()
      ensures gateway.store == old(gateway.store) && gateway.faults == old(gateway.faults) && gateway.listing == old(gateway.listing)
      ensures anId.None? ==> r == Failure(NullPointer(Some(IdNullMessage))) && gateway.calls == old(gateway.calls)
      ensures anId.Some? ==> gateway.calls == old(gateway.calls) + [FindByIdCall(CategoryId(anId.value))]
      ensures anId.Some? && FindByIdOp in gateway.faults ==> r == Failure(Unexpected(gateway.faults[FindByIdOp]))
      ensures anId.Some? && FindByIdOp !in gateway.faults ==>
                r == if CategoryId(anId.value) in gateway.store then Success(OutputFrom(gateway.store[CategoryId(anId.value)]))
                     else Failure(NotFoundFor(CategoryId(anId.value)))
    {
      var parsed := CategoryIds.From(anId);
      if parsed.Failure? {
        return Failure(parsed.error);
      }
      var found := gateway.FindById(parsed.value);
      if found.Failure? {
        return Failure(found.error);
      }
      match found.value
      case Some(c) => return Success(OutputFrom(c.State()));
      case None => return Failure(NotFoundFor(parsed.value));
    }
  }

  class DeleteCategoryUseCase {
    const gateway: CategoryGateway

    constructor (aGateway: CategoryGateway)
      ensures gateway == aGateway
    {
      gateway := aGateway;
    }

    /** `execute(anId)`: one unconditional `deleteById`, with no lookup first; an unknown id is
        not an error, and the gateway's failures raise. */
    method Execute(anId: Option<string>) returns (r: Result<(), Failure>)
      requires gateway.Valid()
      modifies gateway
      ensures gateway.Valid()
      ensures gateway.faults == old(gateway.faults) && gateway.listing == old(gateway.listing)
      ensures anId.None? ==> r == Failure(NullPointer(Some(IdNullMessage)))
                             && gateway.calls == old(gateway.calls) && gateway.store == old(gateway.store)
      ensures anId.Some? ==> gateway.calls == old(gateway.calls) + [DeleteByIdCall(CategoryId(anId.value))]
      ensures anId.Some? && DeleteByIdOp in gateway.faults ==>
                r == Failure(Unexpected(gateway.faults[DeleteByIdOp])) && gateway.store == old(gateway.store)
      ensures anId.Some? && DeleteByIdOp !in gateway.faults ==>
                r == Success(()) && gateway.store == old(gateway.store) - {CategoryId(anId.value)}
    {
      var parsed := CategoryIds.From(anId);
      if parsed.Failure? {
        return Failure(parsed.error);
      }
      r := gateway.DeleteById(parsed.value);
    }
  }

  class ListCategoryUseCase {
    const gateway: CategoryGateway

    constructor (aGateway: CategoryGateway)
      ensures gateway == aGateway
    {
      gateway := aGateway;
    }

    /** `execute(aQuery)`: one `findAll` with the query, each category of the page projected to a
        list item; the gateway's failures raise. */
    method Execute(aQuery: SearchQuery) returns (r: Result<Pagination<CategoryListOutput>, Failure>)
      requires gateway.Valid()
      modifies gateway
      ensures gateway.Valid()
      ensures gateway.store == old(gateway.store) && gateway.faults == old(gateway.faults) && gateway.listing == old(gateway.listing)
      ensures gateway.calls == old(gateway.calls) + [FindAllCall(aQuery)]
      ensures FindAllOp in gateway.faults ==> r == Failure(Unexpected(gateway.faults[FindAllOp]))
      ensures FindAllOp !in gateway.faults ==> r.Success? && r.value == Map(gateway.listing, ListOutputFrom)
      ensures FindAllOp !in gateway.faults ==>
                r.value.currentPage == gateway.listing.currentPage && r.value.perPage == gateway.listing.perPage
                && r.value.total == gateway.listing.total && |r.value.items| == |gateway.listing.items|
                && forall i | 0 <= i < |r.value.items| :: r.value.items[i] == ListOutputFrom(gateway.listing.items[i])
    {
      var page := gateway.FindAll(aQuery);
      if page.Failure? {
        return Failure(page.error);
      }
      return Success(Map(page.value, ListOutputFrom));
    }
  }
}
