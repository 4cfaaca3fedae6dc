/**
 String helpers the resolver relies on: ASCII lowercasing (Python's
 `str.lower` restricted to ASCII) and the substring test behind Python's
 `needle in haystack` on strings.
 */
module Ascii {

  predicate IsUpperChar(c: char) {
    'A' <= c <= 'Z'
  }

  /** Lowercases one ASCII letter; every other character is left alone. */
  function LowerChar(c: char): (r: char)
    ensures !IsUpperChar(r)
    ensures IsUpperChar(c) ==> r as int == c as int + 32
    ensures !IsUpperChar(c) ==> r == c
  {
    if IsUpperChar(c) then (c as int + 32) as char else c
  }

  /** Uppercases one ASCII letter; used to state case-insensitivity. */
  function UpperChar(c: char): (r: char)
    ensures LowerChar(r) == LowerChar(c)
    ensures 'a' <= c <= 'z' ==> IsUpperChar(r)
  {
    if 'a' <= c <= 'z' then (c as int - 32) as char else c
  }

  /** A string without ASCII capital letters. */
  predicate IsLower(s: string) {
    forall i :: 0 <= i < |s| ==> !IsUpperChar(s[i])
  }

  /** `s.lower()`, for ASCII letters. */
  function Lower(s: string): (r: string)
    ensures |r| == |s|
    ensures forall i :: 0 <= i < |s| ==> r[i] == LowerChar(s[i])
    ensures IsLower(r)
  {
    if |s| == 0 then [] else [LowerChar(s[0])] + Lower(s[1..])
  }

  /** `s.upper()`, for ASCII letters. */
  function Upper(s: string): (r: string)
    ensures |r| == |s|
    ensures forall i :: 0 <= i < |s| ==> r[i] == UpperChar(s[i])
  {
    if |s| == 0 then [] else [UpperChar(s[0])] + Upper(s[1..])
  }

  /** Two strings that differ at most in the letter case of ASCII letters. */
  predicate EqualIgnoringCase(a: string, b: string) {
    |a| == |b| && forall i :: 0 <= i < |a| ==> LowerChar(a[i]) == LowerChar(b[i])
  }

  /** Lowercasing maps exactly the strings equal up to case to one string. */
  lemma LowerEqualIff(a: string, b: string)
    ensures Lower(a) == Lower(b) <==> EqualIgnoringCase(a, b)
  {
  }

  /** Lowercasing twice is lowercasing once. */
  lemma LowerIdempotent(s: string)
    ensures Lower(s) == s <==> IsLower(s)
    ensures Lower(Lower(s)) == Lower(s)
  {
  }

  /** Uppercasing is invisible once the string is lowercased. */
  lemma LowerOfUpper(s: string)
    ensures EqualIgnoringCase(Upper(s), s)
    ensures Lower(Upper(s)) == Lower(s)
  {
  }

  /** `needle` occurs in `haystack` starting at position `i`. */
  predicate OccursAt(haystack: string, needle: string, i: int) {
    0 <= i && i + |needle| <= |haystack| && haystack[i..i + |needle|] == needle
  }

  /** Python's `needle in haystack` for strings: a contiguous occurrence. */
  function Contains(haystack: string, needle: string): (r: bool)
    ensures r <==> exists i :: OccursAt(haystack, needle, i)
    decreases |haystack|
  {
    if |needle| > |haystack| then
      assert forall i :: !OccursAt(haystack, needle, i);
      false
    else if haystack[..|needle|] == needle then
      assert OccursAt(haystack, needle, 0);
      true
    else
      var rest := Contains(haystack[1..], needle);
      assert forall i {:trigger OccursAt(haystack[1..], needle, i)} :: 0 <= i ==> (OccursAt(haystack, needle, i + 1) <==> OccursAt(haystack[1..], needle, i)) by {
        forall i | 0 <= i
          ensures OccursAt(haystack, needle, i + 1) <==> OccursAt(haystack[1..], needle, i)
        {
          OccursAfterFirst(haystack, needle, i);
        }
      }
      assert !OccursAt(haystack, needle, 0);
      if rest then
        var j :| OccursAt(haystack[1..], needle, j);
        assert OccursAt(haystack, needle, j + 1);
        true
      else
        assert forall i :: OccursAt(haystack, needle, i) ==> i >= 1 && OccursAt(haystack[1..], needle, i - 1);
        false
  }

  /** Dropping the first character shifts every occurrence one place left. */
  lemma OccursAfterFirst(haystack: string, needle: string, i: nat)
    requires |haystack| > 0
    ensures OccursAt(haystack, needle, i + 1) <==> OccursAt(haystack[1..], needle, i)
  {
  }
}
