/**
 * The few pieces of Java's `String`, `int` and `long` semantics that the cache-sync
 * code depends on: `String.isBlank`, string concatenation of `null`, `String.hashCode`,
 * `List.hashCode`, 32-bit wrap-around and truncating division.
 */
module JavaText {
  import opened Wrappers

  const TWO_32: int := 0x1_0000_0000
  const INT_MIN: int := -0x8000_0000
  const INT_MAX: int := 0x7FFF_FFFF

  /** `Character.isWhitespace`: the Unicode space, line and paragraph separators other than the
      non-breaking ones (U+00A0, U+2007, U+202F), plus the ASCII controls TAB..CR and FS..US. */
  predicate IsWhitespace(c: char) {
    || c == ' ' || ('\t' <= c <= '\r') || ('\U{1C}' <= c <= '\U{1F}')
    || c == '\U{1680}' || ('\U{2000}' <= c <= '\U{2006}') || ('\U{2008}' <= c <= '\U{200A}')
    || c == '\U{2028}' || c == '\U{2029}' || c == '\U{205F}' || c == '\U{3000}'
  }

  /** `String.isBlank`: empty, or whitespace only. */
  predicate IsBlank(s: string) {
    forall i | 0 <= i < |s| :: IsWhitespace(s[i])
  }

  /** What `"" + s` yields for a possibly-null string. */
  function Show(s: Option<string>): (r: string)
    ensures s.Some? ==> r == s.value
  {
    match s
    case None => "null"
    case Some(v) => v
  }

  /** Reduces an integer to a Java `int` (two's complement, 32 bits). */
  function Int32(x: int): (r: int)
    ensures INT_MIN <= r <= INT_MAX
    ensures (x - r) % TWO_32 == 0
  {
    var m := x % TWO_32;
    if m > INT_MAX then m - TWO_32 else m
  }

  /** `String.hashCode`: h = 31 * h + c over the characters, in `int` arithmetic. */
  function StringHash(s: string): (r: int)
    ensures INT_MIN <= r <= INT_MAX
  {
    if s == [] then 0 else Int32(31 * StringHash(s[..|s| - 1]) + s[|s| - 1] as int)
  }

  /** `AbstractList.hashCode` of a list of non-null strings: h = 31 * h + e.hashCode(), from 1. */
  function ListHash(xs: seq<string>): (r: int)
    ensures INT_MIN <= r <= INT_MAX
  {
    if xs == [] then 1 else Int32(31 * ListHash(xs[..|xs| - 1]) + StringHash(xs[|xs| - 1]))
  }

  /** Java's `/` on integers, which truncates toward zero. */
  function JavaDiv(a: int, b: int): int
    requires b > 0
  {
    if a >= 0 then a / b else -((-a) / b)
  }

  /** Java's `%`, whose sign follows the dividend. */
  function JavaRem(a: int, b: int): int
    requires b > 0
  {
    a - b * JavaDiv(a, b)
  }

  function Min(a: int, b: int): int {
    if a <= b then a else b
  }
}
