/**
 * What both identifier classes share: the random UUID they are made from, Java's canonical
 * text of a UUID, and the shape of the `Object` that `equals` is asked about.
 */
module Identifiers {
  import opened Wrappers

  /** The message of the NullPointerException both identifier constructors raise for a null value. */
  const IdNullMessage: string := "Id cannot be null"

  type Nibble = n: int | 0 <= n < 16

  /** A UUID, as its 32 hexadecimal digits (the 128 bits, most significant first). */
  type UuidDigits = s: seq<Nibble> | |s| == 32 witness seq(32, _ => 0)

  datatype Uuid = Uuid(digits: UuidDigits)

  /** The lower-case hexadecimal digit Java prints. */
  function HexDigit(n: Nibble): (c: char)
    ensures IsLowerHex(c) && HexValue(c) == n
  {
    if n < 10 then (48 + n) as char else (97 + n - 10) as char
  }

  predicate IsLowerHex(c: char) {
    '0' <= c <= '9' || 'a' <= c <= 'f'
  }

  function HexValue(c: char): Nibble
    requires IsLowerHex(c)
  {
    if c <= '9' then c as int - 48 else c as int - 97 + 10
  }

  /** The digits of a group, printed left to right. */
  function Hex(ds: seq<Nibble>): (s: string)
    ensures |s| == |ds|
    ensures forall i | 0 <= i < |ds| :: s[i] == HexDigit(ds[i])
  {
    if ds == [] then [] else [HexDigit(ds[0])] + Hex(ds[1..])
  }

  /** UUID.toString(): groups of 8, 4, 4, 4 and 12 digits joined by '-'. */
  function UuidText(u: Uuid): string {
    var d := u.digits;
    Hex(d[..8]) + "-" + Hex(d[8..12]) + "-" + Hex(d[12..16]) + "-" + Hex(d[16..20]) + "-" + Hex(d[20..])
  }

  /** Where digit `i` of a UUID stands in its text: after one '-' per group before it. */
  function TextPosition(i: nat): nat
    requires i < 32
  {
    if i < 8 then i else if i < 12 then i + 1 else if i < 16 then i + 2 else if i < 20 then i + 3 else i + 4
  }

  /** Reads the canonical text back, or None for any other text. */
  function ParseUuid(s: string): Option<Uuid> {
    if |s| == 36 && s[8] == '-' && s[13] == '-' && s[18] == '-' && s[23] == '-'
       && forall i | 0 <= i < 32 :: IsLowerHex(s[TextPosition(i)])
    then Some(Uuid(seq(32, i requires 0 <= i < 32 => HexValue(s[TextPosition(i)]))))
    else None
  }

  lemma {:induction false} UuidTextLayout(u: Uuid)
    ensures |UuidText(u)| == 36
    ensures var s := UuidText(u); s[8] == '-' && s[13] == '-' && s[18] == '-' && s[23] == '-'
    ensures forall i | 0 <= i < 32 :: UuidText(u)[TextPosition(i)] == HexDigit(u.digits[i])
  {
    var d := u.digits;
    var s := UuidText(u);
    forall i | 0 <= i < 32
      ensures s[TextPosition(i)] == HexDigit(d[i])
    {
      if i < 8 {
        assert s[i] == Hex(d[..8])[i];
      } else if i < 12 {
        assert s[i + 1] == Hex(d[8..12])[i - 8];
      } else if i < 16 {
        assert s[i + 2] == Hex(d[12..16])[i - 12];
      } else if i < 20 {
        assert s[i + 3] == Hex(d[16..20])[i - 16];
      } else {
        assert s[i + 4] == Hex(d[20..])[i - 20];
      }
    }
  }

  /** Parsing the text of a UUID gives that UUID back. */
  lemma {:induction false} UuidTextRoundTrip(u: Uuid)
    ensures ParseUuid(UuidText(u)) == Some(u)
  {
    UuidTextLayout(u);
    var s := UuidText(u);
    var d' := seq(32, i requires 0 <= i < 32 => HexValue(s[TextPosition(i)]));
    assert d' == u.digits;
  }

  /** Distinct random UUIDs have distinct texts. */
  lemma UuidTextInjective(u: Uuid, v: Uuid)
    requires UuidText(u) == UuidText(v)
    ensures u == v
  {
    UuidTextRoundTrip(u);
    UuidTextRoundTrip(v);
  }

  /** String.toLowerCase on the ASCII letters, the only ones a UUID's text can hold. */
  function LowerCase(s: string): (r: string)
    ensures |r| == |s|
    ensures forall i | 0 <= i < |s| :: r[i] == if 'A' <= s[i] <= 'Z' then (s[i] as int + 32) as char else s[i]
  {
    if s == [] then [] else [if 'A' <= s[0] <= 'Z' then (s[0] as int + 32) as char else s[0]] + LowerCase(s[1..])
  }

  /** The text of a UUID is already lower-case. */
  lemma UuidTextIsLowerCase(u: Uuid)
    ensures LowerCase(UuidText(u)) == UuidText(u)
  {
    var s := UuidText(u);
    UuidTextLayout(u);
    forall k | 0 <= k < |s| ensures !('A' <= s[k] <= 'Z') {
      var d := u.digits;
      if k < 8 {
        assert s[k] == Hex(d[..8])[k];
      } else if 8 < k < 13 {
        assert s[k] == Hex(d[8..12])[k - 9];
      } else if 13 < k < 18 {
        assert s[k] == Hex(d[12..16])[k - 14];
      } else if 18 < k < 23 {
        assert s[k] == Hex(d[16..20])[k - 19];
      } else if 23 < k {
        assert s[k] == Hex(d[20..])[k - 24];
      }
    }
  }

  /** The identifier classes whose `equals` is modelled. */
  datatype IdClass = CategoryIdClass | GenreIdClass

  /** The argument of `equals(Object o)`: null, an identifier of some class with its value, or any other object. */
  datatype Object = Null | Identifier(cls: IdClass, value: string) | OtherObject
}
