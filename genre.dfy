/**
 * Genre, the aggregate root of the genre context. Unlike Category it validates itself: no Genre
 * object exists whose name the genre validator refuses. Activation and deactivation travel with
 * the deletion time exactly as in Category.
 */
module Genres {
  import opened Wrappers
  import opened Validation
  import opened DomainExceptions
  import opened Notifications
  import opened ValidationHandlers
  import opened GenreIds
  import opened Identifiers
  import opened Clocks
  import CategoryIds
  import GenreValidator

  /** The message of the NotificationException a refused construction raises. */
  const InvalidGenreMessage: string := "Failed to create a Aggregate Genre"

  /** The fields of a genre at one moment. The name and the three timestamps may be null. */
  datatype GenreState = GenreState(
    id: GenreId,
    name: Option<string>,
    active: bool,
    categories: seq<CategoryIds.CategoryId>,
    createdAt: Option<nat>,
    updatedAt: Option<nat>,
    deletedAt: Option<nat>)
  {
    /** The aggregate's design rule: active exactly when no deletion time is recorded. */
    predicate IsConsistent() {
      active <==> deletedAt.None?
    }

    /** What the constructor demands of every genre it lets exist. */
    predicate HasValidName() {
      GenreValidator.IsValidName(name)
    }
  }

  /** What the constructor's own validation concludes about a state: nothing, or the
      NotificationException carrying the errors a fresh Notification collected. */
  function ConstructionFailure(s: GenreState): (r: Option<Failure>)
    ensures r.None? <==> s.HasValidName()
    ensures r.Some? ==> r.value == Invalid(InvalidGenreMessage, [GenreValidator.NameError(s.name).value])
    ensures r.Some? ==> r.value.IsDomainException() && |r.value.Errors()| == 1
  {
    match GenreValidator.Validate(s.name, Accumulating(Notifications.Create()))
    case Failure(_) => assert false; None
    case Success(h) =>
      var errors := Errors(h);
      assert !s.HasValidName() ==> errors == [GenreValidator.NameError(s.name).value];
      if ValidationHandler.HasError(Some(errors)) then Some(Invalid(InvalidGenreMessage, errors)) else None
  }

  /** The state `newGenre` builds from one clock reading `now`: no categories, both timestamps `now`. */
  function NewState(id: GenreId, name: Option<string>, isActive: bool, now: nat): (s: GenreState)
    ensures s.IsConsistent()
    ensures s.id == id && s.name == name && s.active == isActive && s.categories == []
    ensures s.createdAt == Some(now) && s.updatedAt == Some(now)
    ensures s.deletedAt.Some? ==> s.deletedAt.value == now
  {
    GenreState(id, name, isActive, [], Some(now), Some(now), if isActive then None else Some(now))
  }

  /** `deactivate()` run while the clock went from t0 to t1: inactive, touched at t1, and a deletion
      time kept if there was one, else taken from the clock. Nothing else changes. */
  predicate IsDeactivationOf(s': GenreState, s: GenreState, t0: nat, t1: nat) {
    && s'.id == s.id && s'.name == s.name && s'.categories == s.categories
    && s'.createdAt == s.createdAt
    && !s'.active
    && s'.updatedAt == Some(t1)
    && if s.deletedAt.Some? then s'.deletedAt == s.deletedAt
       else s'.deletedAt.Some? && t0 <= s'.deletedAt.value <= t1
  }

  /** `activate()` run while the clock went from t0 to t1: active, touched at t1, no deletion time. */
  predicate IsActivationOf(s': GenreState, s: GenreState, t0: nat, t1: nat) {
    s' == s.(active := true, updatedAt := Some(t1), deletedAt := None) && t0 <= t1
  }

  /** Activation and deactivation leave the genre consistent whatever state it was in, keep its name
      valid, and never touch its identity, name, categories or creation time. */
  lemma TransitionsKeepInvariants(s': GenreState, s: GenreState, t0: nat, t1: nat)
    requires IsDeactivationOf(s', s, t0, t1) || IsActivationOf(s', s, t0, t1)
    ensures s'.IsConsistent()
    ensures s.HasValidName() ==> s'.HasValidName()
    ensures s'.id == s.id && s'.name == s.name && s'.categories == s.categories && s'.createdAt == s.createdAt
  {
  }

  /** Deactivating and then activating gives back an active genre without deletion time, updated
      at the later reading of the clock. */
  lemma DeactivateThenActivate(s2: GenreState, s1: GenreState, s: GenreState, t0: nat, t1: nat, t2: nat)
    requires IsDeactivationOf(s1, s, t0, t1) && IsActivationOf(s2, s1, t1, t2)
    ensures s2.active && s2.deletedAt.None? && s2.IsConsistent()
    ensures s1.updatedAt == Some(t1) && s2.updatedAt == Some(t2) && t1 <= t2
    ensures s2 == s.(active := true, updatedAt := Some(t2), deletedAt := None)
  {
  }

  class Genre {
    const id: GenreId
    var name: Option<string>
    var active: bool
    var categories: seq<CategoryIds.CategoryId>
    var createdAt: Option<nat>
    var updatedAt: Option<nat>
    var deletedAt: Option<nat>

    /** The current fields as a value. */
    function State(): GenreState
      reads this
    {
      GenreState(id, name, active, categories, createdAt, updatedAt, deletedAt)
    }

    /** Every Genre object the constructor let through has a valid name. */
    ghost predicate Valid()
      reads this
    {
      State().HasValidName()
    }

    /** The field assignments of the constructor, for a state its validation lets through. */
    constructor Assign(s: GenreState)
      requires s.HasValidName()
      ensures State() == s && Valid()
    {
      id := s.id;
      name := s.name;
      active := s.active;
      categories := s.categories;
      createdAt := s.createdAt;
      updatedAt := s.updatedAt;
      deletedAt := s.deletedAt;
    }

    /** The public constructor: assigns every field as given, validates the name into a fresh
        notification, and raises a NotificationException when it holds an error. */
    static method New(s: GenreState) returns (r: Result<Genre, Failure>)
      ensures r.Failure? <==> !s.HasValidName()
      ensures r.Failure? ==> Some(r.error) == ConstructionFailure(s)
      ensures r.Success? ==> fresh(r.value) && r.value.State() == s && r.value.Valid()
    {
      var failure := ConstructionFailure(s);
      if failure.Some? {
        return Failure(failure.value);
      }
      var g := new Genre.Assign(s);
      return Success(g);
    }

    /** `Genre.newGenre(aName, isActive)`: the identifier of the next random UUID, no categories,
        one clock reading for both timestamps (and for the deletion time when created inactive);
        it raises exactly when the name is invalid. */
    static method NewGenre(aName: Option<string>, isActive: bool, uuid: Uuid, clock: Clock)
      returns (r: Result<Genre, Failure>)
      modifies clock
      ensures old(clock.time) <= clock.time
      ensures r.Failure? <==> !GenreValidator.IsValidName(aName)
      ensures r.Failure? ==> r.error == Invalid(InvalidGenreMessage, [GenreValidator.NameError(aName).value])
      ensures r.Success? ==> fresh(r.value) && r.value.Valid()
      ensures r.Success? ==> r.value.State() == NewState(FromUuid(uuid), aName, isActive, clock.time)
    {
      var anId := FromUuid(uuid);
      var now := clock.Now();
      var deleted := if isActive then None else Some(now);
      r := New(GenreState(anId, aName, isActive, [], Some(now), Some(now), deleted));
    }

    /** `Genre.with(...)` over all fields: the constructor, so it raises its NotificationException exactly
        when the name is invalid. */
    static method With(anId: GenreId, aName: Option<string>, isActive: bool, categories: seq<CategoryIds.CategoryId>,
                       aCreatedAt: Option<nat>, aUpdatedAt: Option<nat>, aDeletedAt: Option<nat>)
      returns (r: Result<Genre, Failure>)
      ensures r.Failure? <==> !GenreValidator.IsValidName(aName)
      ensures r.Failure? ==> r.error == Invalid(InvalidGenreMessage, [GenreValidator.NameError(aName).value])
      ensures r.Success? ==> fresh(r.value) && r.value.Valid()
      ensures r.Success? ==>
                r.value.State() == GenreState(anId, aName, isActive, categories, aCreatedAt, aUpdatedAt, aDeletedAt)
    {
      r := New(GenreState(anId, aName, isActive, categories, aCreatedAt, aUpdatedAt, aDeletedAt));
    }

    /** `Genre.with(aGenre)`: a distinct object with every field copied (the category list as a copy
        with the same elements); copying a valid genre never raises. */
    static method Copy(aGenre: Genre) returns (r: Result<Genre, Failure>)
      ensures r.Failure? <==> !aGenre.Valid()
      ensures r.Failure? ==> r.error == Invalid(InvalidGenreMessage, [GenreValidator.NameError(aGenre.name).value])
      ensures r.Success? ==> fresh(r.value) && r.value != aGenre && r.value.State() == aGenre.State()
    {
      r := New(aGenre.State());
    }

    /** `validate(handler)`: the genre validator on the current name; only the name is checked. */
    function Validate(h: Handler): (r: Result<Handler, Failure>)
      reads this
      ensures GenreValidator.IsValidName(name) ==> r == Success(h)
      ensures r.Failure? <==> !GenreValidator.IsValidName(name) && h.Throwing?
      ensures r.Success? && !GenreValidator.IsValidName(name) ==> Errors(r.value) == Errors(h) + [GenreValidator.NameError(name).value]
    {
      GenreValidator.Validate(name, h)
    }

    method Deactivate(clock: Clock) returns (r: Genre)
      modifies this, clock
      ensures r == this
      ensures old(clock.time) <= clock.time
      ensures IsDeactivationOf(State(), old(State()), old(clock.time), clock.time)
      ensures old(Valid()) ==> Valid()
    {
      if deletedAt.None? {
        var t := clock.Now();
        deletedAt := Some(t);
      }
      var t := clock.Now();
      updatedAt := Some(t);
      active := false;
      return this;
    }

    method Activate(clock: Clock) returns (r: Genre)
      modifies this, clock
      ensures r == this
      ensures old(clock.time) <= clock.time
      ensures IsActivationOf(State(), old(State()), old(clock.time), clock.time)
      ensures old(Valid()) ==> Valid()
    {
      deletedAt := None;
      var t := clock.Now();
      updatedAt := Some(t);
      active := true;
      return this;
    }
  }
}
