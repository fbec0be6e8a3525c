/**
 * Category, the aggregate root of the category context: a mutable object whose identity and
 * creation time never change, and whose `active` flag travels with its deletion time.
 */
module Categories {
  import opened Wrappers
  import opened DomainExceptions
  import opened CategoryIds
  import opened Identifiers
  import opened Clocks
  import opened ValidationHandlers
  import CategoryValidator

  const CreatedAtNullMessage: string := "'createdAt' cannot be null"
  const UpdatedAtNullMessage: string := "'updatedAt' cannot be null"

  /** The fields of a category at one moment. Name and description may be null. */
  datatype CategoryState = CategoryState(
    id: CategoryId,
    name: Option<string>,
    description: Option<string>,
    active: bool,
    createdAt: nat,
    updatedAt: nat,
    deletedAt: Option<nat>)
  {
    /** The aggregate's design rule: active exactly when no deletion time is recorded. */
    predicate IsConsistent() {
      active <==> deletedAt.None?
    }
  }

  /** The state `newCategory` builds from one clock reading `now`. */
  function NewState(id: CategoryId, name: Option<string>, description: Option<string>, isActive: bool, now: nat): (s: CategoryState)
    ensures s.IsConsistent()
    ensures s.id == id && s.name == name && s.description == description && s.active == isActive
    ensures s.createdAt == now && s.updatedAt == now
    ensures s.deletedAt.Some? ==> s.deletedAt.value == now
  {
    CategoryState(id, name, description, isActive, now, now, if isActive then None else Some(now))
  }

  /** `deactivate()` run while the clock went from t0 to t1: inactive, touched at t1, and a deletion
      time kept if there was one, else taken from the clock. */
  predicate IsDeactivationOf(s': CategoryState, s: CategoryState, t0: nat, t1: nat) {
    && s'.id == s.id && s'.name == s.name && s'.description == s.description
    && s'.createdAt == s.createdAt
    && !s'.active
    && s'.updatedAt == t1
    && if s.deletedAt.Some? then s'.deletedAt == s.deletedAt
       else s'.deletedAt.Some? && t0 <= s'.deletedAt.value <= t1
  }

  /** `activate()` run while the clock went from t0 to t1: active, touched at t1, no deletion time. */
  predicate IsActivationOf(s': CategoryState, s: CategoryState, t0: nat, t1: nat) {
    s' == s.(active := true, updatedAt := t1, deletedAt := None) && t0 <= t1
  }

  /** `update(aName, aDescription, isActive)`: the new name and description, then activate or
      deactivate; the last reading of the clock is the update time. */
  predicate IsUpdateOf(s': CategoryState, s: CategoryState, aName: Option<string>, aDescription: Option<string>,
                       isActive: bool, t0: nat, t1: nat) {
    var renamed := s.(name := aName, description := aDescription);
    if isActive then IsActivationOf(s', renamed, t0, t1) else IsDeactivationOf(s', renamed, t0, t1)
  }

  /** Every transition leaves the aggregate consistent, whatever state it started in, and never
      changes its identity or its creation time. */
  lemma TransitionsRestoreConsistency(s': CategoryState, s: CategoryState, t0: nat, t1: nat)
    requires IsDeactivationOf(s', s, t0, t1) || IsActivationOf(s', s, t0, t1)
    ensures s'.IsConsistent()
    ensures s'.id == s.id && s'.createdAt == s.createdAt
  {
  }

  /** An update sets exactly the given name, description and flag, and leaves a consistent state. */
  lemma UpdateSetsFields(s': CategoryState, s: CategoryState, aName: Option<string>, aDescription: Option<string>,
                         isActive: bool, t0: nat, t1: nat)
    requires IsUpdateOf(s', s, aName, aDescription, isActive, t0, t1)
    ensures s'.IsConsistent()
    ensures s'.id == s.id && s'.createdAt == s.createdAt && s'.updatedAt == t1
    ensures s'.name == aName && s'.description == aDescription && s'.active == isActive
  {
  }

  /** Deactivating twice keeps the first deletion time: the second call only moves the update time. */
  lemma DeactivateTwiceKeepsDeletion(s2: CategoryState, s1: CategoryState, s: CategoryState, t0: nat, t1: nat, t2: nat)
    requires IsDeactivationOf(s1, s, t0, t1) && IsDeactivationOf(s2, s1, t1, t2)
    ensures s2 == s1.(updatedAt := t2)
    ensures s.deletedAt.None? ==> t0 <= s2.deletedAt.value <= t1
  {
  }

  class Category {
    const id: CategoryId
    var name: Option<string>
    var description: Option<string>
    var active: bool
    const createdAt: nat
    var updatedAt: nat
    var deletedAt: Option<nat>

    /** The current fields as a value. */
    function State(): CategoryState
      reads this
    {
      CategoryState(id, name, description, active, createdAt, updatedAt, deletedAt)
    }

    /** The private all-fields constructor, past its null checks on the two timestamps. */
    constructor (s: CategoryState)
      ensures State() == s
    {
      id := s.id;
      name := s.name;
      description := s.description;
      active := s.active;
      createdAt := s.createdAt;
      updatedAt := s.updatedAt;
      deletedAt := s.deletedAt;
    }

    /** `Category.with(...)`: the fields as given, no validation and no consistency check; a null
        creation or update time is refused, the creation time first. */
    static method With(anId: CategoryId, aName: Option<string>, aDescription: Option<string>, isActive: bool,
                       aCreatedAt: Option<nat>, aUpdatedAt: Option<nat>, aDeletedAt: Option<nat>)
      returns (r: Result<Category, Failure>)
      ensures r.Success? <==> aCreatedAt.Some? && aUpdatedAt.Some?
      ensures aCreatedAt.None? ==> r == Failure(NullPointer(Some(CreatedAtNullMessage)))
      ensures aCreatedAt.Some? && aUpdatedAt.None? ==> r == Failure(NullPointer(Some(UpdatedAtNullMessage)))
      ensures r.Success? ==> fresh(r.value)
      ensures r.Success? ==>
                r.value.State() == CategoryState(anId, aName, aDescription, isActive, aCreatedAt.value, aUpdatedAt.value, aDeletedAt)
    {
      if aCreatedAt.None? {
        return Failure(NullPointer(Some(CreatedAtNullMessage)));
      }
      if aUpdatedAt.None? {
        return Failure(NullPointer(Some(UpdatedAtNullMessage)));
      }
      var c := new Category(CategoryState(anId, aName, aDescription, isActive, aCreatedAt.value, aUpdatedAt.value, aDeletedAt));
      return Success(c);
    }

    /** `Category.newCategory(...)`: the identifier of the next random UUID, one clock reading for
        both timestamps, and that reading as deletion time when created inactive. */
    static method NewCategory(aName: Option<string>, aDescription: Option<string>, isActive: bool, uuid: Uuid, clock: Clock)
      returns (c: Category)
      modifies clock
      ensures fresh(c)
      ensures old(clock.time) <= clock.time
      ensures c.State() == NewState(FromUuid(uuid), aName, aDescription, isActive, clock.time)
    {
      var id := FromUuid(uuid);
      var now := clock.Now();
      var deleted := if isActive then None else Some(now);
      c := new Category(CategoryState(id, aName, aDescription, isActive, now, now, deleted));
    }

    /** `validate(handler)`: the category validator on the current name; only the name is checked. */
    function Validate(h: Handler): (r: Result<Handler, Failure>)
      reads this
      ensures CategoryValidator.IsValidName(name) ==> r == Success(h)
      ensures r.Failure? <==> !CategoryValidator.IsValidName(name) && h.Throwing?
      ensures r.Success? && !CategoryValidator.IsValidName(name) ==> Errors(r.value) == Errors(h) + [CategoryValidator.NameError(name).value]
    {
      CategoryValidator.Validate(name, h)
    }

    method Deactivate(clock: Clock) returns (r: Category)
      modifies this, clock
      ensures r == this
      ensures old(clock.time) <= clock.time
      ensures IsDeactivationOf(State(), old(State()), old(clock.time), clock.time)
    {
      if deletedAt.None? {
        var t := clock.Now();
        deletedAt := Some(t);
      }
      active := false;
      updatedAt := clock.Now();
      return this;
    }

    method Activate(clock: Clock) returns (r: Category)
      modifies this, clock
      ensures r == this
      ensures old(clock.time) <= clock.time
      ensures IsActivationOf(State(), old(State()), old(clock.time), clock.time)
    {
      active := true;
      updatedAt := clock.Now();
      deletedAt := None;
      return this;
    }

    /** `update(...)`: no validation here; the caller validates afterwards. */
    method Update(aName: Option<string>, aDescription: Option<string>, isActive: bool, clock: Clock) returns (r: Category)
      modifies this, clock
      ensures r == this
      ensures old(clock.time) <= clock.time
      ensures IsUpdateOf(State(), old(State()), aName, aDescription, isActive, old(clock.time), clock.time)
    {
      name := aName;
      description := aDescription;
      if isActive {
        var _ := Activate(clock);
      } else {
        var _ := Deactivate(clock);
      }
      updatedAt := clock.Now();
      return this;
    }

    /** `clone()`: a shallow copy, a distinct object with the same fields. */
    method Clone() returns (c: Category)
      ensures fresh(c)
      ensures c.State() == State()
    {
      c := new Category(State());
    }
  }
}
