/**
 * The search request and the page envelope every list use case passes through. Their sources
 * are not part of this model; they carry only the shape the use cases rely on.
 */
module Paging {
  import opened Wrappers

  /** `SearchQuery` and `CategorySearchQuery`: two records with the same five components. */
  datatype SearchQuery = SearchQuery(
    page: int,
    perPage: int,
    terms: Option<string>,
    sort: Option<string>,
    direction: Option<string>)

  /** `Pagination<T>`: one page of items and where it stands. */
  datatype Pagination<T> = Pagination(currentPage: int, perPage: int, total: int, items: seq<T>)

  /** `Pagination.map(f)`: the same page, each item replaced by its image. */
  function Map<T, U>(p: Pagination<T>, f: T -> U): (r: Pagination<U>)
    ensures r.currentPage == p.currentPage && r.perPage == p.perPage && r.total == p.total
    ensures |r.items| == |p.items|
    ensures forall i | 0 <= i < |p.items| :: r.items[i] == f(p.items[i])
  {
    Pagination(p.currentPage, p.perPage, p.total, MapItems(p.items, f))
  }

  /** The items of a page, mapped one by one in order. */
  function MapItems<T, U>(items: seq<T>, f: T -> U): (r: seq<U>)
    ensures |r| == |items|
    ensures forall i | 0 <= i < |items| :: r[i] == f(items[i])
  {
    if items == [] then [] else [f(items[0])] + MapItems(items[1..], f)
  }

  /** Mapping the identity changes nothing. */
  lemma MapIdentity<T>(p: Pagination<T>)
    ensures Map(p, x => x) == p
  {
    assert Map(p, x => x).items == p.items;
  }

  /** Mapping twice is mapping the composition once. */
  lemma MapCompose<T, U, V>(p: Pagination<T>, f: T -> U, g: U -> V)
    ensures Map(Map(p, f), g) == Map(p, x => g(f(x)))
  {
    assert Map(Map(p, f), g).items == Map(p, x => g(f(x))).items;
  }

  /** An empty page maps to an empty page with the same metadata. */
  lemma MapEmpty<T, U>(p: Pagination<T>, f: T -> U)
    requires p.items == []
    ensures Map(p, f) == Pagination(p.currentPage, p.perPage, p.total, [])
  {
  }
}
