/**
 * The string operations the screens use: `trim`, `toLowerCase` (ASCII case
 * folding) and `includes`.
 */
module Text {

  /** The characters JavaScript's `trim` strips: WhiteSpace (tab, vertical
      tab, form feed, the byte order mark and every space separator) and
      LineTerminator (line feed, carriage return, U+2028, U+2029). */
  predicate IsSpace(c: char) {
    c == '\t' || c == '\n' || c == '\U{000B}' || c == '\U{000C}' || c == '\r' ||
    c == ' ' || c == '\U{00A0}' || c == '\U{1680}' ||
    ('\U{2000}' <= c <= '\U{200A}') ||
    c == '\U{2028}' || c == '\U{2029}' || c == '\U{202F}' || c == '\U{205F}' ||
    c == '\U{3000}' || c == '\U{FEFF}'
  }

  /** Every character is one that `trim` strips (so the empty string is blank too). */
  predicate Blank(s: string) {
    forall i :: 0 <= i < |s| ==> IsSpace(s[i])
  }

  /** Drops the leading spaces: what is left is a suffix of `s` that does not
      start with a space, and everything dropped was space. */
  function TrimStart(s: string): (r: string)
    ensures |r| <= |s| && r == s[|s| - |r|..]
    ensures r == [] || !IsSpace(r[0])
    ensures forall i :: 0 <= i < |s| - |r| ==> IsSpace(s[i])
  {
    if s != [] && IsSpace(s[0]) then TrimStart(s[1..]) else s
  }

  /** Drops the trailing spaces: what is left is a prefix of `s` that does not
      end with a space, and everything dropped was space. */
  function TrimEnd(s: string): (r: string)
    ensures |r| <= |s| && r == s[..|r|]
    ensures r == [] || !IsSpace(r[|r| - 1])
    ensures forall i :: |r| <= i < |s| ==> IsSpace(s[i])
  {
    if s != [] && IsSpace(s[|s| - 1]) then TrimEnd(s[..|s| - 1]) else s
  }

  /** `s.trim()`. The one use the screens make of it is the test for '',
      which holds exactly for the blank strings. */
  function Trim(s: string): (r: string)
    ensures r == [] <==> Blank(s)
  {
    TrimEnd(TrimStart(s))
  }

  /** Adding a leading space never makes a non-blank string blank. */
  lemma BlankPrefix(s: string)
    ensures Blank(" " + s) <==> Blank(s)
  {
    assert forall i :: 0 <= i < |s| ==> (" " + s)[i + 1] == s[i];
  }

  /** One character of `toLowerCase`: ASCII upper case to lower case. */
  function LowerChar(c: char): (d: char)
    ensures !('A' <= d <= 'Z')
    ensures 'A' <= c <= 'Z' ==> d as int == c as int + 32
    ensures !('A' <= c <= 'Z') ==> d == c
  {
    if 'A' <= c <= 'Z' then (c as int + 32) as char else c
  }

  /** `s.toLowerCase()`, character by character. */
  function ToLower(s: string): (r: string)
    ensures |r| == |s|
    ensures forall i :: 0 <= i < |s| ==> r[i] == LowerChar(s[i])
  {
    if s == [] then [] else [LowerChar(s[0])] + ToLower(s[1..])
  }

  predicate StartsWith(s: string, prefix: string) {
    |prefix| <= |s| && s[..|prefix|] == prefix
  }

  /** The needle sits in the haystack at position `i`. */
  predicate OccursAt(haystack: string, needle: string, i: int) {
    0 <= i && i + |needle| <= |haystack| && haystack[i..i + |needle|] == needle
  }

  /** `haystack.includes(needle)`, scanning from the front: the needle
      occurs at some position. */
  predicate Contains(haystack: string, needle: string)
    ensures Contains(haystack, needle) <==> exists i :: OccursAt(haystack, needle, i)
    decreases |haystack|
  {
    if haystack == [] then
      assert StartsWith(haystack, needle) <==> OccursAt(haystack, needle, 0);
      StartsWith(haystack, needle)
    else
      assert StartsWith(haystack, needle) <==> OccursAt(haystack, needle, 0);
      assert forall i :: OccursAt(haystack[1..], needle, i) ==> OccursAt(haystack, needle, i + 1) by {
        forall i | OccursAt(haystack[1..], needle, i) ensures OccursAt(haystack, needle, i + 1) {
          assert haystack[1..][i..i + |needle|] == haystack[i + 1..i + 1 + |needle|];
        }
      }
      assert forall i :: 0 < i && OccursAt(haystack, needle, i) ==> OccursAt(haystack[1..], needle, i - 1) by {
        forall i | 0 < i && OccursAt(haystack, needle, i) ensures OccursAt(haystack[1..], needle, i - 1) {
          assert haystack[1..][i - 1..i - 1 + |needle|] == haystack[i..i + |needle|];
        }
      }
      StartsWith(haystack, needle) || Contains(haystack[1..], needle)
  }

  /** A needle longer than the haystack never occurs in it. */
  lemma {:induction false} ContainsNeedsRoom(haystack: string, needle: string)
    requires |needle| > |haystack|
    ensures !Contains(haystack, needle)
    decreases |haystack|
  {
    if haystack != [] {
      ContainsNeedsRoom(haystack[1..], needle);
    }
  }

  /** A string contains itself. */
  lemma ContainsSelf(s: string)
    ensures Contains(s, s)
  {
    assert s[..|s|] == s;
  }
}
