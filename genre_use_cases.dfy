/**
 * The genre use cases that have an implementation: get by id (NotFound for an unknown id),
 * delete by id (unconditional), and list (a page of list items). None of them catches the
 * gateway's failures.
 */
module GenreUseCases {
  import opened Wrappers
  import opened DomainExceptions
  import opened Identifiers
  import opened GenreIds
  import opened Genres
  import opened GenreGateways
  import opened Paging
  import CategoryIds
  import GenreValidator

  /** What get-by-id answers; its source is not part of this model, so it carries every field. */
  datatype GenreOutput = GenreOutput(
    id: GenreId, name: Option<string>, isActive: bool, categories: seq<CategoryIds.CategoryId>,
    createdAt: Option<nat>, updatedAt: Option<nat>, deletedAt: Option<nat>)

  /** One item of a genre listing: no id and no update time; categories as their string values. */
  datatype GenreListOutput = GenreListOutput(
    name: Option<string>, isActive: bool, categories: seq<string>, createdAt: Option<nat>, deletedAt: Option<nat>)

  /** `GenreOutput.from(aGenre)`. */
  function OutputFrom(g: GenreState): GenreOutput {
    GenreOutput(g.id, g.name, g.active, g.categories, g.createdAt, g.updatedAt, g.deletedAt)
  }

  /** `CategoryId::getValue`. */
  function CategoryValue(c: CategoryIds.CategoryId): string {
    c.value
  }

  /** `GenreListOutput.from(aGenre)`: the category ids become their values, in order. */
  function ListOutputFrom(g: GenreState): (o: GenreListOutput)
    ensures o.name == g.name && o.isActive == g.active && o.createdAt == g.createdAt && o.deletedAt == g.deletedAt
    ensures |o.categories| == |g.categories|
    ensures forall i | 0 <= i < |g.categories| :: o.categories[i] == g.categories[i].value
  {
    GenreListOutput(g.name, g.active, MapItems(g.categories, CategoryValue), g.createdAt, g.deletedAt)
  }

  /** No information about the categories is lost: two genres give the same list of category
      values exactly when they hold the same list of category ids. */
  lemma {:induction false} ListOutputKeepsCategories(g: GenreState, h: GenreState)
    ensures ListOutputFrom(g).categories == ListOutputFrom(h).categories <==> g.categories == h.categories
  {
    var a, b := ListOutputFrom(g).categories, ListOutputFrom(h).categories;
    if a == b {
      assert |g.categories| == |h.categories|;
      forall i | 0 <= i < |g.categories| ensures g.categories[i] == h.categories[i] {
        assert a[i] == b[i];
      }
    }
  }

  /** A list item leaves out the id and the update time: genres that differ only there give
      the same item. */
  lemma ListOutputForgetsIdAndUpdate(g: GenreState, id: GenreId, t: Option<nat>)
    ensures ListOutputFrom(g.(id := id, updatedAt := t)) == ListOutputFrom(g)
  {
  }

  class GetGenreByIdUseCase {
    const genreGateway: GenreGateway

    constructor (aGateway: GenreGateway)
      ensures genreGateway == aGateway
    {
      genreGateway := aGateway;
    }

    /** `execute(anIn)`: one read of the gateway; the stored genre's fields, or NotFound naming
        Genre and the id; a null id and a failing gateway raise. Nothing is written. */
    method Execute(anIn: Option<string>) returns (r: Result<GenreOutput, Failure>)
      requires genreGateway.Valid()
      modifies genreGateway
      ensures genreGateway.Valid()
      ensures genreGateway.store == old(genreGateway.store) && genreGateway.faults == old(genreGateway.faults)
      ensures genreGateway.listing == old(genreGateway.listing)
      ensures anIn.None? ==> r == Failure(NullPointer(Some(IdNullMessage))) && genreGateway.calls == old(genreGateway.calls)
      ensures anIn.Some? ==> genreGateway.calls == old(genreGateway.calls) + [FindByIdCall(GenreId(anIn.value))]
      ensures anIn.Some? && FindByIdOp in genreGateway.faults ==> r == Failure(Unexpected(genreGateway.faults[FindByIdOp]))
      ensures anIn.Some? && FindByIdOp !in genreGateway.faults ==>
                r == if GenreId(anIn.value) in genreGateway.store then Success(OutputFrom(genreGateway.store[GenreId(anIn.value)]))
                     else Failure(NotFoundWith(GenreAggregate, anIn.value))
      ensures r.Success? ==> GenreValidator.IsValidName(r.value.name)
    {
      var parsed := GenreIds.From(anIn);
      if parsed.Failure? {
        return Failure(parsed.error);
      }
      var aGenreId := parsed.value;
      var found := genreGateway.FindById(aGenreId);
      if found.Failure? {
        return Failure(found.error);
      }
      match found.value
      case Some(g) => return Success(OutputFrom(g.State()));
      case None => return Failure(NotFoundWith(GenreAggregate, aGenreId.value));
    }
  }

  class DeleteGenreUseCase {
    const genreGateway: GenreGateway

    constructor (aGateway: GenreGateway)
      ensures genreGateway == aGateway
    {
      genreGateway := aGateway;
    }

    /** `execute(anIn)`: one unconditional `deleteById`, with no lookup or validation first; an
        unknown id is not an error, and the gateway's failures raise. */
    method Execute(anIn: Option<string>) returns (r: Result<(), Failure>)
      requires genreGateway.Valid()
      modifies genreGateway
      ensures genreGateway.Valid()
      ensures genreGateway.faults == old(genreGateway.faults) && genreGateway.listing == old(genreGateway.listing)
      ensures anIn.None? ==> r == Failure(NullPointer(Some(IdNullMessage)))
                             && genreGateway.calls == old(genreGateway.calls) && genreGateway.store == old(genreGateway.store)
      ensures anIn.Some? ==> genreGateway.calls == old(genreGateway.calls) + [DeleteByIdCall(GenreId(anIn.value))]
      ensures anIn.Some? && DeleteByIdOp in genreGateway.faults ==>
                r == Failure(Unexpected(genreGateway.faults[DeleteByIdOp])) && genreGateway.store == old(genreGateway.store)
      ensures anIn.Some? && DeleteByIdOp !in genreGateway.faults ==>
                r == Success(()) && genreGateway.store == old(genreGateway.store) - {GenreId(anIn.value)}
    {
      var parsed := GenreIds.From(anIn);
      if parsed.Failure? {
        return Failure(parsed.error);
      }
      r := genreGateway.DeleteById(parsed.value);
    }
  }

  class ListGenreUseCase {
    const genreGateway: GenreGateway

    constructor (aGateway: GenreGateway)
      ensures genreGateway == aGateway
    {
      genreGateway := aGateway;
    }

    /** `execute(aQuery)`: one `findAll` with the query, each genre of the page projected to a list
        item in order, the page's metadata kept; the gateway's failures raise. */
    method Execute(aQuery: SearchQuery) returns (r: Result<Pagination<GenreListOutput>, Failure>)
      requires genreGateway.Valid()
      modifies genreGateway
      ensures genreGateway.Valid()
      ensures genreGateway.store == old(genreGateway.store) && genreGateway.faults == old(genreGateway.faults)
      ensures genreGateway.listing == old(genreGateway.listing)
      ensures genreGateway.calls == old(genreGateway.calls) + [FindAllCall(aQuery)]
      ensures FindAllOp in genreGateway.faults ==> r == Failure(Unexpected(genreGateway.faults[FindAllOp]))
      ensures FindAllOp !in genreGateway.faults ==> r.Success? && r.value == Map(genreGateway.listing, ListOutputFrom)
      ensures FindAllOp !in genreGateway.faults ==>
                var p := genreGateway.listing;
                r.value.currentPage == p.currentPage && r.value.perPage == p.perPage && r.value.total == p.total
                && |r.value.items| == |p.items|
                && forall i | 0 <= i < |p.items| :: r.value.items[i] == ListOutputFrom(p.items[i])
    {
      var page := genreGateway.FindAll(aQuery);
      if page.Failure? {
        return Failure(page.error);
      }
      return Success(Map(page.value, ListOutputFrom));
    }
  }
}
