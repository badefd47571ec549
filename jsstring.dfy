/** The part of JavaScript's string semantics the pages depend on: `String.prototype.trim`
    and the emptiness test `!s.trim()`. Strings are sequences of Unicode scalar values. */
module JsString {

  /** The code points `trim` removes from both ends: ECMAScript's WhiteSpace (tab, vertical
      tab, form feed, space, no-break space, byte order mark and the space separators of
      category Zs) and its LineTerminators (line feed, carriage return, U+2028, U+2029). */
  predicate IsWhitespace(c: char) {
    var n := c as int;
    n == 0x09 || n == 0x0A || n == 0x0B || n == 0x0C || n == 0x0D || n == 0x20 ||
    n == 0xA0 || n == 0x1680 || (0x2000 <= n <= 0x200A) || n == 0x2028 || n == 0x2029 ||
    n == 0x202F || n == 0x205F || n == 0x3000 || n == 0xFEFF
  }

  /** Every character of `s` is one that `trim` removes. */
  predicate AllWhitespace(s: string) {
    forall i :: 0 <= i < |s| ==> IsWhitespace(s[i])
  }

  /** `r` is the slice of `s` left once some leading and some trailing whitespace is cut. */
  predicate IsWhitespaceTrimOf(s: string, r: string) {
    exists a, b :: 0 <= a <= b <= |s| && r == s[a..b] &&
      (forall i :: 0 <= i < a ==> IsWhitespace(s[i])) &&
      (forall i :: b <= i < |s| ==> IsWhitespace(s[i]))
  }

  /** Where the leading whitespace of `s` ends, scanning forward from `i`: everything from
      `i` up to the result is whitespace, and the result is the end of `s` or a
      non-whitespace character. */
  function TrimmedStart(s: string, i: nat): (a: nat)
    requires i <= |s|
    ensures i <= a <= |s|
    ensures forall k :: i <= k < a ==> IsWhitespace(s[k])
    ensures a == |s| || !IsWhitespace(s[a])
    decreases |s| - i
  {
    if i == |s| || !IsWhitespace(s[i]) then i else TrimmedStart(s, i + 1)
  }

  /** Where the trailing whitespace of `s` starts, scanning backward from `j` but not past
      `a`: everything from the result up to `j` is whitespace, and the result is `a` or
      follows a non-whitespace character. */
  function TrimmedEnd(s: string, a: nat, j: nat): (b: nat)
    requires a <= j <= |s|
    ensures a <= b <= j
    ensures forall k :: b <= k < j ==> IsWhitespace(s[k])
    ensures b == a || !IsWhitespace(s[b - 1])
    decreases j
  {
    if j == a || !IsWhitespace(s[j - 1]) then j else TrimmedEnd(s, a, j - 1)
  }

  /** `s.trim()`: `s` with its leading and trailing whitespace cut off. It is empty exactly
      when every character of `s` is whitespace; otherwise it starts and ends with a
      non-whitespace character. */
  function Trim(s: string): (r: string)
    ensures |r| <= |s|
    ensures IsWhitespaceTrimOf(s, r)
    ensures r == [] <==> AllWhitespace(s)
    ensures r != [] ==> !IsWhitespace(r[0]) && !IsWhitespace(r[|r| - 1])
  {
    var a := TrimmedStart(s, 0);
    var b := TrimmedEnd(s, a, |s|);
    s[a..b]
  }

  /** `!s.trim()`: the string is empty once trimmed, which by `Trim`'s contract is the
      case exactly when it consists of whitespace only. */
  predicate IsBlank(s: string) {
    AllWhitespace(s)
  }

  /** `IsBlank` is the page's test `!s.trim()`. */
  lemma BlankIffTrimEmpty(s: string)
    ensures IsBlank(s) <==> Trim(s) == ""
  {
  }
}
