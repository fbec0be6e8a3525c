/** CategoryId: an immutable string-backed identifier with value equality. */
module CategoryIds {
  import opened Wrappers
  import opened DomainExceptions
  import opened Identifiers
  import JavaStrings

  datatype CategoryId = CategoryId(value: string)

  /** `CategoryId.from(anId)`: wraps the string exactly (even the empty one); null is refused. */
  function From(s: Option<string>): (r: Result<CategoryId, Failure>)
    ensures s.None? <==> r.Failure?
    ensures s.None? ==> r.error == NullPointer(Some(IdNullMessage))
    ensures s.Some? ==> r.value.value == s.value
  {
    match s
    case None => Failure(NullPointer(Some(IdNullMessage)))
    case Some(v) => Success(CategoryId(v))
  }

  /** `CategoryId.from(aUuid)` (and `unique()`, given the random UUID): the lower-cased text of the UUID. */
  function FromUuid(u: Uuid): (r: CategoryId)
    ensures r.value == UuidText(u)
    ensures ParseUuid(r.value) == Some(u)
  {
    UuidTextIsLowerCase(u);
    UuidTextRoundTrip(u);
    CategoryId(LowerCase(UuidText(u)))
  }

  /** Fresh UUIDs give fresh identifiers. */
  lemma FromUuidInjective(u: Uuid, v: Uuid)
    requires u != v
    ensures FromUuid(u) != FromUuid(v)
  {
    if FromUuid(u) == FromUuid(v) {
      UuidTextInjective(u, v);
    }
  }

  /** The identifier seen as a Java object. */
  function AsObject(id: CategoryId): Object {
    Identifier(CategoryIdClass, id.value)
  }

  /** `equals(o)`: true exactly for a CategoryId with the same value; null and other classes are never equal. */
  function Equals(id: CategoryId, o: Object): (r: bool)
    ensures r <==> o.Identifier? && o.cls == CategoryIdClass && o.value == id.value
  {
    match o
    case Null => false
    case OtherObject => false
    case Identifier(cls, v) => cls == CategoryIdClass && id.value == v
  }

  /** `hashCode()`: Objects.hashCode of the value. */
  function HashCode(id: CategoryId): (r: int)
    ensures -JavaStrings.Two31 <= r < JavaStrings.Two31
    ensures id.value == "" ==> r == 0
  {
    JavaStrings.HashCode(id.value)
  }

  /** `hashCode` agrees with `equals`. */
  lemma HashCodeConsistent(a: CategoryId, b: CategoryId)
    requires Equals(a, AsObject(b))
    ensures a == b && HashCode(a) == HashCode(b)
  {
  }
}
