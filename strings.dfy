/** The string primitives the contact form relies on: JavaScript's notion of white space,
    String.prototype.trim, and the `length` of a string counted in UTF-16 code units.
    A Dafny `char` is a Unicode scalar value, so a character outside the Basic Multilingual
    Plane is one `char` here but two code units in JavaScript. */
module Strings {

  /** ECMAScript's WhiteSpace and LineTerminator code points: TAB, VT, FF, SP, NBSP, ZWNBSP,
      every other space separator (category Zs), LF, CR, LS and PS. Both `trim` and the
      regular-expression classes `\s` / `\S` use exactly this set. */
  predicate IsSpace(c: char) {
    || c == '\t' || c == '\n' || c == '\U{000B}' || c == '\U{000C}' || c == '\r'
    || c == ' ' || c == '\U{00A0}' || c == '\U{1680}'
    || ('\U{2000}' <= c <= '\U{200A}')
    || c == '\U{2028}' || c == '\U{2029}' || c == '\U{202F}' || c == '\U{205F}'
    || c == '\U{3000}' || c == '\U{FEFF}'
  }

  predicate AllSpace(s: string) {
    forall k | 0 <= k < |s| :: IsSpace(s[k])
  }

  predicate NoSpace(s: string) {
    forall k | 0 <= k < |s| :: !IsSpace(s[k])
  }

  /** The first index at or after `from` that holds a non-space character, or `|s|`. */
  function SkipSpaceForward(s: string, from: nat): (i: nat)
    requires from <= |s|
    ensures from <= i <= |s|
    ensures forall k | from <= k < i :: IsSpace(s[k])
    ensures i < |s| ==> !IsSpace(s[i])
    decreases |s| - from
  {
    if from == |s| || !IsSpace(s[from]) then from else SkipSpaceForward(s, from + 1)
  }

  /** The largest `j` with `lo <= j <= to` such that `j == lo` or `s[j - 1]` is not a space. */
  function SkipSpaceBackward(s: string, lo: nat, to: nat): (j: nat)
    requires lo <= to <= |s|
    ensures lo <= j <= to
    ensures forall k | j <= k < to :: IsSpace(s[k])
    ensures j > lo ==> !IsSpace(s[j - 1])
  {
    if to == lo || !IsSpace(s[to - 1]) then to else SkipSpaceBackward(s, lo, to - 1)
  }

  /** Where the trimmed slice of `s` begins. */
  function TrimStart(s: string): nat {
    SkipSpaceForward(s, 0)
  }

  /** Where the trimmed slice of `s` ends. */
  function TrimEnd(s: string): nat {
    SkipSpaceBackward(s, TrimStart(s), |s|)
  }

  /** String.prototype.trim: the slice `s[TrimStart(s)..TrimEnd(s)]`. Every character outside
      it is white space, it neither begins nor ends with white space, and it is empty exactly
      when `s` is all white space. */
  function Trim(s: string): (r: string)
    ensures TrimStart(s) <= TrimEnd(s) <= |s| && r == s[TrimStart(s)..TrimEnd(s)]
    ensures forall k | 0 <= k < |s| && !(TrimStart(s) <= k < TrimEnd(s)) :: IsSpace(s[k])
    ensures r != [] ==> !IsSpace(r[0]) && !IsSpace(r[|r| - 1])
    ensures r == [] <==> AllSpace(s)
  {
    var i, j := TrimStart(s), TrimEnd(s);
    assert i < |s| ==> i < j;
    s[i..j]
  }

  /** Number of UTF-16 code units that encode `c`. */
  function CodeUnits(c: char): (n: nat)
    ensures n == 1 || n == 2
  {
    if c as int < 0x1_0000 then 1 else 2
  }

  /** Every character of `s` lies in the Basic Multilingual Plane. */
  predicate InBmp(s: string) {
    forall k | 0 <= k < |s| :: s[k] as int < 0x1_0000
  }

  /** JavaScript's `s.length`: the number of UTF-16 code units. It equals the number of
      characters exactly when none lies outside the Basic Multilingual Plane. */
  function Utf16Length(s: string): (n: nat)
    ensures |s| <= n <= 2 * |s|
    ensures n == |s| <==> InBmp(s)
  {
    if s == [] then 0
    else
      var n := CodeUnits(s[0]) + Utf16Length(s[1..]);
      assert InBmp(s) <==> s[0] as int < 0x1_0000 && InBmp(s[1..]) by {
        if s[0] as int < 0x1_0000 && InBmp(s[1..]) {
          forall k | 0 <= k < |s| ensures s[k] as int < 0x1_0000 {
            if k > 0 { assert s[k] == s[1..][k - 1]; }
          }
        }
      }
      n
  }
}
