/**
 * The parts of java.lang.String and java.lang.Character that the validators and
 * identifiers rely on: `isBlank`, `trim`, `length` (UTF-16 code units) and `hashCode`.
 */
module JavaStrings {

  /** Character.isWhitespace: the Unicode space, line and paragraph separators other than
      the non-breaking ones, plus U+0009..U+000D and U+001C..U+001F. */
  predicate IsWhitespace(c: char) {
    var n := c as int;
    (0x09 <= n <= 0x0D) || (0x1C <= n <= 0x20) || n == 0x1680
    || (0x2000 <= n <= 0x2006) || (0x2008 <= n <= 0x200A)
    || n == 0x2028 || n == 0x2029 || n == 0x205F || n == 0x3000
  }

  /** String.isBlank: empty, or white space code points only. */
  predicate IsBlank(s: string) {
    forall i | 0 <= i < |s| :: IsWhitespace(s[i])
  }

  /** String.trim: drops every leading and trailing character whose code is at most U+0020. */
  function Trim(s: string): (r: string)
    ensures |r| <= |s|
    ensures r != [] ==> ' ' < r[0] && ' ' < r[|r| - 1]
    ensures r == [] <==> forall i | 0 <= i < |s| :: s[i] <= ' '
    ensures (forall i | 0 <= i < |s| :: ' ' < s[i]) ==> r == s
    decreases |s|
  {
    if s == [] then []
    else if s[0] <= ' ' then Trim(s[1..])
    else if s[|s| - 1] <= ' ' then Trim(s[..|s| - 1])
    else s
  }

  /** The UTF-16 code units of one code point (a surrogate pair above U+FFFF). */
  function CharUnits(c: char): (u: seq<int>)
    ensures 1 <= |u| <= 2
    ensures forall k | 0 <= k < |u| :: 0 <= u[k] <= 0xFFFF
    ensures |u| == 1 <==> c as int <= 0xFFFF
  {
    var n := c as int;
    if n <= 0xFFFF then [n]
    else [0xD800 + (n - 0x10000) / 0x400, 0xDC00 + (n - 0x10000) % 0x400]
  }

  /** The UTF-16 code units Java stores for a string. */
  function Utf16Units(s: string): (u: seq<int>)
    ensures |s| <= |u|
    ensures forall k | 0 <= k < |u| :: 0 <= u[k] <= 0xFFFF
    ensures (forall i | 0 <= i < |s| :: s[i] as int <= 0xFFFF) ==> |u| == |s|
  {
    if s == [] then [] else CharUnits(s[0]) + Utf16Units(s[1..])
  }

  /** String.length: the number of UTF-16 code units. */
  function Length(s: string): nat {
    |Utf16Units(s)|
  }

  const Two32: int := 0x1_0000_0000
  const Two31: int := 0x8000_0000

  /** The loop of String.hashCode, `h = 31 * h + unit`, in 32-bit arithmetic (kept unsigned here). */
  function HashLoop(units: seq<int>, h: nat): (r: nat)
    requires h < Two32
    ensures r < Two32
    decreases |units|
  {
    if units == [] then h
    else HashLoop(units[1..], (31 * h + units[0]) % Two32)
  }

  /** Reads an unsigned 32-bit pattern as a Java `int`. */
  function ToInt32(x: nat): (r: int)
    requires x < Two32
    ensures -Two31 <= r < Two31
    ensures r % Two32 == x
  {
    if x < Two31 then x else x - Two32
  }

  /** String.hashCode (and Objects.hashCode of a non-null string). */
  function HashCode(s: string): (r: int)
    ensures -Two31 <= r < Two31
  {
    ToInt32(HashLoop(Utf16Units(s), 0))
  }
}
