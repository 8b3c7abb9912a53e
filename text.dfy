/** The string operations behind the case-insensitive name filters. */
module Text {

  /** `str.lower()` on one character; Python 2 byte strings fold ASCII only. */
  function LowerChar(c: char): char
  {
    if 'A' <= c <= 'Z' then (c as int + 32) as char else c
  }

  function Lower(s: string): (r: string)
    ensures |r| == |s|
    ensures forall i :: 0 <= i < |s| ==> r[i] == LowerChar(s[i])
  {
    if s == [] then [] else [LowerChar(s[0])] + Lower(s[1..])
  }

  /** needle occurs in hay starting at position i. */
  predicate OccursAt(needle: string, hay: string, i: int)
  {
    0 <= i && i + |needle| <= |hay| && hay[i..i + |needle|] == needle
  }

  /** Python's `needle in hay` on strings. */
  predicate Contains(hay: string, needle: string)
  {
    exists i | 0 <= i <= |hay| :: OccursAt(needle, hay, i)
  }

  /** `needle.lower() in name.lower()`. */
  predicate NameMatches(needle: string, name: string)
  {
    Contains(Lower(name), Lower(needle))
  }

  lemma LowerIdempotent(s: string)
    ensures Lower(Lower(s)) == Lower(s)
  {
  }

  /** A case-sensitive occurrence is also a case-insensitive one. */
  lemma ContainsLowered(hay: string, needle: string)
    requires Contains(hay, needle)
    ensures Contains(Lower(hay), Lower(needle))
  {
    var i :| 0 <= i <= |hay| && OccursAt(needle, hay, i);
    var n := |needle|;
    assert i + n <= |hay|;
    forall k | 0 <= k < n ensures Lower(hay)[i + k] == Lower(needle)[k] {
      assert hay[i..i + n][k] == needle[k];
    }
    assert Lower(hay)[i..i + n] == Lower(needle);
    assert OccursAt(Lower(needle), Lower(hay), i);
  }

  lemma NameMatchesIgnoresCase(needle: string, name: string)
    ensures NameMatches(Lower(needle), name) == NameMatches(needle, name)
    ensures NameMatches(needle, Lower(name)) == NameMatches(needle, name)
  {
    LowerIdempotent(needle);
    LowerIdempotent(name);
  }

  /** The empty name selects every entry. */
  lemma EmptyNeedleMatches(name: string)
    ensures NameMatches("", name)
  {
    assert OccursAt(Lower(""), Lower(name), 0);
  }
}
