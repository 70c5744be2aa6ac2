/** The string operations the dashboard's filters and form rely on:
    `toLowerCase`, `trim`, `includes` and the `\s` / `\d` character classes. */
module Text {

  /** The characters ECMAScript's `trim` removes and its `\s` matches:
      WhiteSpace (TAB, VT, FF, SP, NBSP, ZWNBSP, the Zs space separators)
      and LineTerminator (LF, CR, LS, PS). */
  predicate IsWhitespace(c: char) {
    var n := c as int;
    n == 0x09 || n == 0x0A || n == 0x0B || n == 0x0C || n == 0x0D || n == 0x20
    || n == 0xA0 || n == 0x1680 || (0x2000 <= n <= 0x200A) || n == 0x2028 || n == 0x2029
    || n == 0x202F || n == 0x205F || n == 0x3000 || n == 0xFEFF
  }

  /** The regular-expression class `\d` (ASCII digits only, no `u` flag). */
  predicate IsDigit(c: char) {
    '0' <= c <= '9'
  }

  predicate IsUpper(c: char) {
    'A' <= c <= 'Z'
  }

  /** Lower-casing of one character, restricted to the ASCII letters. */
  function LowerChar(c: char): (r: char)
    ensures !IsUpper(r)
    ensures IsUpper(c) ==> r as int == c as int + 32
    ensures !IsUpper(c) ==> r == c
  {
    if IsUpper(c) then (c as int + 32) as char else c
  }

  /** `s.toLowerCase()` over ASCII letters. */
  function Lower(s: string): (r: string)
    ensures |r| == |s|
    ensures forall i :: 0 <= i < |s| ==> r[i] == LowerChar(s[i])
  {
    seq(|s|, i requires 0 <= i < |s| => LowerChar(s[i]))
  }

  lemma LowerIdempotent(s: string)
    ensures Lower(Lower(s)) == Lower(s)
  {
  }

  /** `s.trimStart()`: drop the leading whitespace. */
  function TrimStart(s: string): (r: string)
    ensures |r| <= |s| && r == s[|s| - |r|..]
    ensures forall k :: 0 <= k < |s| - |r| ==> IsWhitespace(s[k])
    ensures |r| == 0 || !IsWhitespace(r[0])
  {
    if |s| > 0 && IsWhitespace(s[0]) then TrimStart(s[1..]) else s
  }

  /** `s.trimEnd()`: drop the trailing whitespace. */
  function TrimEnd(s: string): (r: string)
    ensures |r| <= |s| && r == s[..|r|]
    ensures forall k :: |r| <= k < |s| ==> IsWhitespace(s[k])
    ensures |r| == 0 || !IsWhitespace(r[|r| - 1])
  {
    if |s| > 0 && IsWhitespace(s[|s| - 1]) then TrimEnd(s[..|s| - 1]) else s
  }

  /** `s.trim()`. */
  function Trim(s: string): string
  {
    TrimEnd(TrimStart(s))
  }

  /** `!s.trim()`: the string is empty or whitespace only. */
  predicate IsBlank(s: string) {
    |Trim(s)| == 0
  }

  /** How many whitespace characters `trim` cuts from the front of `s`. */
  function LeadingCut(s: string): nat
  {
    |s| - |TrimStart(s)|
  }

  /** What `trim` keeps is the piece of `s` after the leading cut. */
  lemma TrimIsSlice(s: string)
    ensures LeadingCut(s) + |Trim(s)| <= |s|
    ensures Trim(s) == s[LeadingCut(s)..LeadingCut(s) + |Trim(s)|]
  {
    var a := TrimStart(s);
    var i := |s| - |a|;
    var r := TrimEnd(a);
    assert a == s[i..];
    assert r == a[..|r|];
  }

  /** What `trim` cuts off on either side is whitespace. */
  lemma TrimCutsWhitespace(s: string)
    ensures forall k :: 0 <= k < LeadingCut(s) ==> IsWhitespace(s[k])
    ensures forall k :: LeadingCut(s) + |Trim(s)| <= k < |s| ==> IsWhitespace(s[k])
  {
    var a := TrimStart(s);
    var i := |s| - |a|;
    var r := TrimEnd(a);
    forall k | i + |r| <= k < |s| ensures IsWhitespace(s[k]) {
      assert s[k] == a[k - i];
    }
  }

  /** What `trim` keeps neither starts nor ends with whitespace. */
  lemma TrimEndsNonWhitespace(s: string)
    ensures |Trim(s)| == 0 || (!IsWhitespace(Trim(s)[0]) && !IsWhitespace(Trim(s)[|Trim(s)| - 1]))
  {
    var a := TrimStart(s);
    var r := TrimEnd(a);
    if |r| > 0 {
      assert r[0] == a[0];
    }
  }

  /** Trimming leaves a contiguous piece of `s` that neither starts nor ends
      with whitespace, and everything cut off on either side is whitespace. */
  lemma TrimSpec(s: string)
    ensures LeadingCut(s) + |Trim(s)| <= |s|
    ensures Trim(s) == s[LeadingCut(s)..LeadingCut(s) + |Trim(s)|]
    ensures forall k :: 0 <= k < LeadingCut(s) ==> IsWhitespace(s[k])
    ensures forall k :: LeadingCut(s) + |Trim(s)| <= k < |s| ==> IsWhitespace(s[k])
    ensures |Trim(s)| == 0 || (!IsWhitespace(Trim(s)[0]) && !IsWhitespace(Trim(s)[|Trim(s)| - 1]))
  {
    TrimIsSlice(s);
    TrimCutsWhitespace(s);
    TrimEndsNonWhitespace(s);
  }

  /** A string is blank exactly when every character is whitespace. */
  lemma BlankIffAllWhitespace(s: string)
    ensures IsBlank(s) <==> forall k :: 0 <= k < |s| ==> IsWhitespace(s[k])
  {
    TrimSpec(s);
  }

  /** Trimming twice trims nothing more. */
  lemma TrimIdempotent(s: string)
    ensures Trim(Trim(s)) == Trim(s)
  {
    var r := Trim(s);
    TrimSpec(s);
    if |r| > 0 {
      assert TrimStart(r) == r;
      assert TrimEnd(r) == r;
    }
  }

  /** A string without whitespace is left as it is by `trim`. */
  lemma TrimWithoutWhitespace(s: string)
    requires forall k :: 0 <= k < |s| ==> !IsWhitespace(s[k])
    ensures Trim(s) == s
  {
    TrimSpec(s);
  }

  /** Trimming the empty string gives the empty string. */
  lemma TrimEmpty()
    ensures Trim("") == ""
  {
  }

  /** `hay.includes(needle)`, searched from the front. */
  function Includes(hay: string, needle: string): bool
    decreases |hay|
  {
    if |needle| <= |hay| && hay[..|needle|] == needle then true
    else if |hay| == 0 then false
    else Includes(hay[1..], needle)
  }

  /** `needle` occurs in `hay` starting at index `i`. */
  ghost predicate OccursAt(hay: string, needle: string, i: int) {
    0 <= i <= |hay| - |needle| && hay[i..i + |needle|] == needle
  }

  /** When `includes` holds, `needle` occurs at some position of `hay`. */
  lemma {:induction false} IncludesFindsOccurrence(hay: string, needle: string)
    requires Includes(hay, needle)
    ensures exists i :: OccursAt(hay, needle, i)
    decreases |hay|
  {
    var n := |needle|;
    if n <= |hay| && hay[..n] == needle {
      assert OccursAt(hay, needle, 0);
    } else {
      IncludesFindsOccurrence(hay[1..], needle);
      var j :| OccursAt(hay[1..], needle, j);
      assert hay[1..][j..j + n] == hay[j + 1..j + 1 + n];
      assert OccursAt(hay, needle, j + 1);
    }
  }

  /** An occurrence at any position makes `includes` hold. */
  lemma {:induction false} OccurrenceIncludes(hay: string, needle: string, i: int)
    requires OccursAt(hay, needle, i)
    ensures Includes(hay, needle)
    decreases i
  {
    var n := |needle|;
    if !(n <= |hay| && hay[..n] == needle) {
      assert i != 0;
      assert hay[1..][i - 1..i - 1 + n] == hay[i..i + n];
      OccurrenceIncludes(hay[1..], needle, i - 1);
    }
  }

  /** `includes` holds exactly when `needle` occurs at some position of `hay`. */
  lemma IncludesIff(hay: string, needle: string)
    ensures Includes(hay, needle) <==> exists i :: OccursAt(hay, needle, i)
  {
    if Includes(hay, needle) {
      IncludesFindsOccurrence(hay, needle);
    }
    if exists i :: OccursAt(hay, needle, i) {
      var i :| OccursAt(hay, needle, i);
      OccurrenceIncludes(hay, needle, i);
    }
  }

  /** Every string includes the empty string, so an empty search term removes nothing. */
  lemma IncludesEmpty(hay: string)
    ensures Includes(hay, "")
  {
    assert hay[..0] == "";
  }

  /** The search rule the list screens share: the lower-cased `field`
      includes the lower-cased `term`. */
  predicate MatchesTerm(field: string, term: string) {
    Includes(Lower(field), Lower(term))
  }

  /** The match ignores letter case on both sides. */
  lemma MatchesTermIgnoresCase(field: string, term: string)
    ensures MatchesTerm(field, Lower(term)) == MatchesTerm(field, term)
    ensures MatchesTerm(Lower(field), term) == MatchesTerm(field, term)
  {
    LowerIdempotent(term);
    LowerIdempotent(field);
  }

  /** An empty term matches every field. */
  lemma MatchesEmptyTerm(field: string)
    ensures MatchesTerm(field, "")
  {
    IncludesEmpty(Lower(field));
  }
}
