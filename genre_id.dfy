/** GenreId: an immutable string-backed identifier with value equality. */
module GenreIds {
  import opened Wrappers
  import opened DomainExceptions
  import opened Identifiers
  import JavaStrings
  import CategoryIds

  datatype GenreId = GenreId(value: string)

  /** `GenreId.from(anId)`: wraps the string exactly (even the empty one); null is refused. */
  function From(s: Option<string>): (r: Result<GenreId, Failure>)
    ensures s.None? <==> r.Failure?
    ensures s.None? ==> r.error == NullPointer(Some(IdNullMessage))
    ensures s.Some? ==> r.value.value == s.value
  {
    match s
    case None => Failure(NullPointer(Some(IdNullMessage)))
    case Some(v) => Success(GenreId(v))
  }

  /** `GenreId.from(aUuid)` (and `unique()`, given the random UUID): the lower-cased text of the UUID. */
  function FromUuid(u: Uuid): (r: GenreId)
    ensures r.value == UuidText(u)
    ensures ParseUuid(r.value) == Some(u)
  {
    UuidTextIsLowerCase(u);
    UuidTextRoundTrip(u);
    GenreId(LowerCase(UuidText(u)))
  }

  /** Fresh UUIDs give fresh identifiers. */
  lemma FromUuidInjective(u: Uuid, v: Uuid)
    requires u != v
    ensures FromUuid(u) != FromUuid(v)
  {
    if FromUuid(u) == FromUuid(v) {
      UuidTextInjective(u, v);
    }
  }

  /** The identifier seen as a Java object. */
  function AsObject(id: GenreId): Object {
    Identifier(GenreIdClass, id.value)
  }

  /** `equals(o)`: true exactly for a GenreId with the same value; null and other classes are never equal. */
  function Equals(id: GenreId, o: Object): (r: bool)
    ensures r <==> o.Identifier? && o.cls == GenreIdClass && o.value == id.value
  {
    match o
    case Null => false
    case OtherObject => false
    case Identifier(cls, v) => cls == GenreIdClass && id.value == v
  }

  /** `hashCode()`: Objects.hashCode of the value. */
  function HashCode(id: GenreId): (r: int)
    ensures -JavaStrings.Two31 <= r < JavaStrings.Two31
    ensures id.value == "" ==> r == 0
  {
    JavaStrings.HashCode(id.value)
  }

  /** `hashCode` agrees with `equals`. */
  lemma HashCodeConsistent(a: GenreId, b: GenreId)
    requires Equals(a, AsObject(b))
    ensures a == b && HashCode(a) == HashCode(b)
  {
  }

  /** A GenreId never equals a CategoryId, even one holding the same string. */
  lemma NeverEqualsCategoryId(g: GenreId, c: CategoryIds.CategoryId)
    ensures !Equals(g, CategoryIds.AsObject(c))
  {
  }
}
