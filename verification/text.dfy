/** String operations the currency code relies on: lower-casing, prefix and
    infix tests, whitespace trimming and case-insensitive search. Case folding
    is modelled over ASCII only; every other character is its own lower case. */
module Text {

  /** Lower case of one character: 'A'..'Z' map to 'a'..'z'. */
  function LowerChar(c: char): char {
    if 'A' <= c <= 'Z' then (c as int + 32) as char else c
  }

  /** `lowercase()` / `toLowerCase()`, character by character. */
  function Lower(s: string): (r: string)
    ensures |r| == |s|
    ensures forall i :: 0 <= i < |s| ==> r[i] == LowerChar(s[i])
  {
    seq(|s|, i requires 0 <= i < |s| => LowerChar(s[i]))
  }

  predicate StartsWith(s: string, prefix: string) {
    |prefix| <= |s| && s[..|prefix|] == prefix
  }

  predicate OccursAt(s: string, part: string, i: int) {
    0 <= i && i + |part| <= |s| && s[i..i + |part|] == part
  }

  /** `contains` / `includes`: `part` occurs somewhere in `s`. */
  predicate Contains(s: string, part: string) {
    exists i | 0 <= i <= |s| - |part| :: OccursAt(s, part, i)
  }

  /** `Char.isWhitespace`: tab, line feed, vertical tab, form feed, carriage
      return, the four separators 0x1C-0x1F, and the Unicode space, line and
      paragraph separators (space, no-break space, ogham space mark, the
      spaces 0x2000-0x200A, line and paragraph separator, narrow no-break
      space, medium mathematical space, ideographic space). */
  predicate IsWhitespace(c: char) {
    || 9 <= c as int <= 13 || 28 <= c as int <= 32
    || c as int == 0xA0 || c as int == 0x1680
    || 0x2000 <= c as int <= 0x200A
    || c as int == 0x2028 || c as int == 0x2029 || c as int == 0x202F || c as int == 0x205F
    || c as int == 0x3000
  }

  /** `isBlank()`: empty or whitespace only. */
  predicate IsBlank(s: string) {
    forall i :: 0 <= i < |s| ==> IsWhitespace(s[i])
  }

  /** Index of the first non-whitespace character at or after `from`, or |s|. */
  function SkipBlanksForward(s: string, from: nat): (i: nat)
    requires from <= |s|
    decreases |s| - from
    ensures from <= i <= |s|
    ensures forall k :: from <= k < i ==> IsWhitespace(s[k])
    ensures i < |s| ==> !IsWhitespace(s[i])
  {
    if from < |s| && IsWhitespace(s[from]) then SkipBlanksForward(s, from + 1) else from
  }

  /** The end (exclusive) of `s[..to]` once its trailing whitespace is dropped. */
  function SkipBlanksBackward(s: string, to: nat): (j: nat)
    requires to <= |s|
    ensures j <= to
    ensures forall k :: j <= k < to ==> IsWhitespace(s[k])
    ensures j == 0 || !IsWhitespace(s[j - 1])
  {
    if 0 < to && IsWhitespace(s[to - 1]) then SkipBlanksBackward(s, to - 1) else to
  }

  /** `trim()`: `s` is a blank prefix, the result, and a blank suffix; the
      result neither starts nor ends with whitespace, and it is empty exactly
      when `s` is blank. Characters are never changed, only dropped at the ends. */
  function Trim(s: string): (r: string)
    ensures var a := SkipBlanksForward(s, 0);
      a + |r| <= |s| && s[a..a + |r|] == r && IsBlank(s[..a]) && IsBlank(s[a + |r|..])
    ensures r == [] || (!IsWhitespace(r[0]) && !IsWhitespace(r[|r| - 1]))
    ensures r == [] <==> IsBlank(s)
  {
    var a := SkipBlanksForward(s, 0);
    BlankSlice(s, 0, a);
    if a == |s| then
      assert s[a..a] == [];
      []
    else
      var b := SkipBlanksBackward(s, |s|);
      assert a < b;
      BlankSlice(s, b, |s|);
      assert !IsBlank(s) by { assert !IsWhitespace(s[a]); }
      s[a..b]
  }

  lemma BlankSlice(s: string, i: nat, j: nat)
    requires i <= j <= |s|
    requires forall k :: i <= k < j ==> IsWhitespace(s[k])
    ensures IsBlank(s[i..j])
  {
    forall k | 0 <= k < j - i ensures IsWhitespace(s[i..j][k]) { assert s[i..j][k] == s[i + k]; }
  }

  /** Trimming twice is trimming once: a second `trim()` (the search use case
      trims a keyword the presenter already trimmed) changes nothing. */
  lemma {:induction false} TrimIdempotent(s: string)
    ensures Trim(Trim(s)) == Trim(s)
  {
    var r := Trim(s);
    if r != [] {
      assert SkipBlanksForward(r, 0) == 0;
      assert SkipBlanksBackward(r, |r|) == |r|;
      assert r[0..|r|] == r;
    }
  }

  /** `regionMatches(..., ignoreCase = true)`: `q` occurs in `s` at `i` up to case. */
  predicate MatchesIgnoringCaseAt(s: string, q: string, i: int) {
    0 <= i && i + |q| <= |s| && Lower(s[i..i + |q|]) == Lower(q)
  }

  /** `indexOf(q, startIndex = from, ignoreCase = true)`: the first position
      at or after `from` where `q` occurs up to case, or -1 when there is none. */
  function IndexOfIgnoreCaseFrom(s: string, q: string, from: nat): (r: int)
    decreases |s| - from
    ensures r == -1 || (from <= r && MatchesIgnoringCaseAt(s, q, r))
    ensures r == -1 ==> forall j :: from <= j ==> !MatchesIgnoringCaseAt(s, q, j)
    ensures r != -1 ==> forall j :: from <= j < r ==> !MatchesIgnoringCaseAt(s, q, j)
  {
    if from + |q| > |s| then -1
    else if MatchesIgnoringCaseAt(s, q, from) then from
    else IndexOfIgnoreCaseFrom(s, q, from + 1)
  }

  function IndexOfIgnoreCase(s: string, q: string): int {
    IndexOfIgnoreCaseFrom(s, q, 0)
  }
}
