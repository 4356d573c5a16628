/**
 * The string primitives the pages use: `toLowerCase`, `toUpperCase` on one
 * character, `includes`, and `trim`.
 *
 * Case mapping is modelled on the ASCII letters only. White space is the
 * ECMAScript set (WhiteSpace and LineTerminator code points), which is both
 * what `String.prototype.trim` strips and what the regular-expression class
 * `\s` matches.
 */
module Text {

  /** ECMAScript white space and line terminators, by code point. */
  predicate IsWhitespace(c: char) {
    var n := c as int;
    (9 <= n <= 13) || n == 0x20 || n == 0xA0 || n == 0x1680 || (0x2000 <= n <= 0x200A)
    || n == 0x2028 || n == 0x2029 || n == 0x202F || n == 0x205F || n == 0x3000 || n == 0xFEFF
  }

  ghost predicate AllWhitespace(s: string) {
    forall i :: 0 <= i < |s| ==> IsWhitespace(s[i])
  }

  // ---------------------------------------------------------------- case

  function LowerChar(c: char): char {
    if 'A' <= c <= 'Z' then (c as int + 32) as char else c
  }

  function UpperChar(c: char): char {
    if 'a' <= c <= 'z' then (c as int - 32) as char else c
  }

  /** `s.toLowerCase()`: every character mapped on its own, the length kept. */
  function ToLower(s: string): (r: string)
    ensures |r| == |s|
    ensures forall i :: 0 <= i < |s| ==> r[i] == LowerChar(s[i])
  {
    if s == [] then [] else [LowerChar(s[0])] + ToLower(s[1..])
  }

  /** Lower-casing twice is lower-casing once. */
  lemma ToLowerIdempotent(s: string)
    ensures ToLower(ToLower(s)) == ToLower(s)
  {
  }

  /** `s.charAt(0).toUpperCase() + s.slice(1)`; the empty string stays empty. */
  function Capitalize(s: string): string {
    if s == [] then [] else [UpperChar(s[0])] + s[1..]
  }

  /** Only the first character of a capitalised string can differ from the original. */
  lemma CapitalizeOnlyFirst(s: string)
    ensures |Capitalize(s)| == |s|
    ensures s != [] ==> Capitalize(s)[0] == UpperChar(s[0]) && Capitalize(s)[1..] == s[1..]
  {
  }

  // ---------------------------------------------------------------- substring

  /** Reference definition: `needle` occupies positions k .. k + |needle| of `hay`. */
  ghost predicate OccursAt(needle: string, hay: string, k: int) {
    0 <= k && k + |needle| <= |hay| && hay[k..k + |needle|] == needle
  }

  ghost predicate Occurs(needle: string, hay: string) {
    exists k :: OccursAt(needle, hay, k)
  }

  predicate StartsWith(hay: string, prefix: string) {
    |prefix| <= |hay| && hay[..|prefix|] == prefix
  }

  /** `hay.includes(needle)`: try every start position from left to right. */
  predicate Includes(hay: string, needle: string)
    decreases |hay|
  {
    StartsWith(hay, needle) || (hay != [] && Includes(hay[1..], needle))
  }

  /** The scanning search agrees with the reference definition, in both directions. */
  lemma {:induction false} IncludesIffOccurs(hay: string, needle: string)
    ensures Includes(hay, needle) <==> Occurs(needle, hay)
    decreases |hay|
  {
    if StartsWith(hay, needle) {
      assert OccursAt(needle, hay, 0);
    } else if hay != [] {
      IncludesIffOccurs(hay[1..], needle);
      if Includes(hay[1..], needle) {
        var k :| OccursAt(needle, hay[1..], k);
        TailSlice(hay, k, k + |needle|);
        assert OccursAt(needle, hay, k + 1);
      }
      if Occurs(needle, hay) {
        var k :| OccursAt(needle, hay, k);
        assert k != 0;
        TailSlice(hay, k - 1, k - 1 + |needle|);
        assert OccursAt(needle, hay[1..], k - 1);
      }
    }
  }

  /** A slice of the tail is the slice of the whole one place further on. */
  lemma TailSlice(hay: string, i: int, j: int)
    requires hay != [] && 0 <= i <= j <= |hay| - 1
    ensures hay[1..][i..j] == hay[i + 1..j + 1]
  {
  }

  /** Every character of an included needle occurs in the haystack. */
  lemma IncludesNeedsChar(hay: string, needle: string, i: int)
    requires Includes(hay, needle) && 0 <= i < |needle|
    ensures needle[i] in hay
  {
    IncludesIffOccurs(hay, needle);
    var k :| OccursAt(needle, hay, k);
    assert hay[k + i] == hay[k..k + |needle|][i];
  }

  /** The empty string is included in every string. */
  lemma IncludesEmpty(hay: string)
    ensures Includes(hay, "")
  {
    assert StartsWith(hay, "");
  }

  // ---------------------------------------------------------------- trim

  /** The length of the longest all-white-space prefix. */
  function LeadingSpace(s: string): (n: nat)
    ensures n <= |s|
    ensures forall i :: 0 <= i < n ==> IsWhitespace(s[i])
    ensures n < |s| ==> !IsWhitespace(s[n])
    decreases |s|
  {
    if s != [] && IsWhitespace(s[0]) then
      var n := 1 + LeadingSpace(s[1..]);
      assert forall i :: 1 <= i < n ==> s[i] == s[1..][i - 1];
      n
    else 0
  }

  /** Where an all-white-space run ending at `e` starts, looking no further left than `lo`. */
  function SpaceRunStart(s: string, lo: nat, e: nat): (b: nat)
    requires lo <= e <= |s|
    ensures lo <= b <= e
    ensures forall i :: b <= i < e ==> IsWhitespace(s[i])
    ensures b > lo ==> !IsWhitespace(s[b - 1])
    decreases e
  {
    if e > lo && IsWhitespace(s[e - 1]) then SpaceRunStart(s, lo, e - 1) else e
  }

  /** `StrippedAround(s, k, n)`: `s[k..k + n]` is what remains once a white-space prefix and a white-space suffix are removed. */
  ghost predicate StrippedAround(s: string, k: int, n: int) {
    0 <= k && 0 <= n && k + n <= |s|
    && (forall i :: 0 <= i < k ==> IsWhitespace(s[i]))
    && (forall i :: k + n <= i < |s| ==> IsWhitespace(s[i]))
  }

  /**
   * `s.trim()`: the piece of `s` left after removing white space from both
   * ends; it neither starts nor ends with white space, and it is empty
   * exactly when `s` is all white space.
   */
  function Trim(s: string): (r: string)
    ensures Occurs(r, s)
    ensures exists k :: StrippedAround(s, k, |r|) && r == s[k..k + |r|]
    ensures r != [] ==> !IsWhitespace(r[0]) && !IsWhitespace(r[|r| - 1])
    ensures r == [] <==> AllWhitespace(s)
  {
    var a := LeadingSpace(s);
    var b := SpaceRunStart(s, a, |s|);
    TrimBounds(s, a, b);
    s[a..b]
  }

  /** The facts `Trim` states, for the white-space runs `s[..a]` and `s[b..]` and the text between. */
  lemma TrimBounds(s: string, a: nat, b: nat)
    requires a <= b <= |s|
    requires forall i :: 0 <= i < a ==> IsWhitespace(s[i])
    requires forall i :: b <= i < |s| ==> IsWhitespace(s[i])
    requires a < |s| ==> !IsWhitespace(s[a])
    ensures OccursAt(s[a..b], s, a)
    ensures StrippedAround(s, a, b - a)
    ensures b == a <==> AllWhitespace(s)
  {
  }

  /**
   * The trimmed string is the only such piece: any split of `s` into a
   * white-space prefix, a middle that is empty or has non-space ends, and a
   * white-space suffix has `Trim(s)` as its middle.
   */
  lemma TrimUnique(s: string, k: int, n: int)
    requires StrippedAround(s, k, n)
    requires n > 0 ==> !IsWhitespace(s[k]) && !IsWhitespace(s[k + n - 1])
    ensures Trim(s) == s[k..k + n]
  {
    var r := Trim(s);
    if n == 0 {
      assert AllWhitespace(s);
    } else {
      assert !AllWhitespace(s);
      var j :| StrippedAround(s, j, |r|) && r == s[j..j + |r|];
      assert s[j] == r[0] && s[j + |r| - 1] == r[|r| - 1];
      assert j == k;
      assert j + |r| == k + n;
    }
  }

  /**
   * `!s.trim()`: the string holds nothing but white space, checked by one
   * scan rather than by building the trimmed string (`BlankIffTrimEmpty`).
   */
  predicate IsBlank(s: string) {
    s == [] || (IsWhitespace(s[0]) && IsBlank(s[1..]))
  }

  /** The scan agrees with `AllWhitespace`. */
  lemma {:induction false} BlankIffAllWhitespace(s: string)
    ensures IsBlank(s) <==> AllWhitespace(s)
  {
    if s != [] {
      BlankIffAllWhitespace(s[1..]);
      assert forall i :: 1 <= i < |s| ==> s[i] == s[1..][i - 1];
    }
  }

  /** A string is blank exactly when trimming it leaves nothing. */
  lemma BlankIffTrimEmpty(s: string)
    ensures IsBlank(s) <==> Trim(s) == []
  {
    BlankIffAllWhitespace(s);
  }
}
