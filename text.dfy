/** String helpers the recommender relies on: Python's `str.lower` and the
    substring test `needle in haystack`. */
module Text {

  /** Lower-case form of one character. Covers ASCII, the Latin-1 capitals
      and the Croatian capitals Č, Ć, Đ, Š and Ž; every other character is
      left as it is. */
  function LowerChar(c: char): (l: char)
    ensures 'A' <= c <= 'Z' ==> l as int == c as int + 32 && 'a' <= l <= 'z'
    ensures '\U{00C0}' <= c <= '\U{00DE}' && c != '\U{00D7}' ==> l as int == c as int + 32
    ensures c in {'\U{0106}', '\U{010C}', '\U{0110}', '\U{0160}', '\U{017D}'} ==> l as int == c as int + 1
    ensures (&& !('A' <= c <= 'Z')
             && !('\U{00C0}' <= c <= '\U{00DE}' && c != '\U{00D7}')
             && c !in {'\U{0106}', '\U{010C}', '\U{0110}', '\U{0160}', '\U{017D}'})
            ==> l == c
  {
    if 'A' <= c <= 'Z' then (c as int + 32) as char
    else if '\U{00C0}' <= c <= '\U{00DE}' && c != '\U{00D7}' then (c as int + 32) as char
    else if c == '\U{0106}' || c == '\U{010C}' || c == '\U{0110}' || c == '\U{0160}' || c == '\U{017D}'
    then (c as int + 1) as char
    else c
  }

  /** Python's `s.lower()`, character by character. */
  function Lower(s: string): (l: string)
    ensures |l| == |s|
    ensures forall i :: 0 <= i < |s| ==> l[i] == LowerChar(s[i])
  {
    seq(|s|, i requires 0 <= i < |s| => LowerChar(s[i]))
  }

  /** Lower-casing twice is lower-casing once. */
  lemma LowerIdempotent(s: string)
    ensures Lower(Lower(s)) == Lower(s)
  {
    forall i | 0 <= i < |s|
      ensures LowerChar(LowerChar(s[i])) == LowerChar(s[i])
    {
      LowerCharIdempotent(s[i]);
    }
  }

  /** A lower-cased character is never one of the capitals that fold. */
  lemma LowerCharIdempotent(c: char)
    ensures LowerChar(LowerChar(c)) == LowerChar(c)
  {
  }

  /** The needle occurs in the haystack starting at position `i`. */
  predicate OccursAt(haystack: string, needle: string, i: int) {
    0 <= i <= |haystack| - |needle| && haystack[i..i + |needle|] == needle
  }

  /** Python's `needle in haystack` for strings, searched left to right:
      true exactly when the needle occurs at some position. */
  function Contains(haystack: string, needle: string): (r: bool)
    ensures r <==> exists i :: OccursAt(haystack, needle, i)
    decreases |haystack|
  {
    if |haystack| < |needle| then false
    else if haystack[..|needle|] == needle then assert OccursAt(haystack, needle, 0); true
    else
      var r := Contains(haystack[1..], needle);
      assert r ==> exists i :: OccursAt(haystack, needle, i) by {
        if r {
          var j :| OccursAt(haystack[1..], needle, j);
          assert haystack[j + 1..j + 1 + |needle|] == haystack[1..][j..j + |needle|];
          assert OccursAt(haystack, needle, j + 1);
        }
      }
      assert (exists i :: OccursAt(haystack, needle, i)) ==> r by {
        if i :| OccursAt(haystack, needle, i) {
          assert i != 0;
          assert haystack[1..][i - 1..i - 1 + |needle|] == haystack[i..i + |needle|];
          assert OccursAt(haystack[1..], needle, i - 1);
        }
      }
      r
  }

  /** Lower-casing commutes with taking a slice. */
  lemma LowerSlice(s: string, i: int, j: int)
    requires 0 <= i <= j <= |s|
    ensures Lower(s)[i..j] == Lower(s[i..j])
  {
  }

  /** Substring search after lower-casing both sides is case-insensitive
      matching: a hit in the original text is still a hit once both are
      lower-cased. */
  lemma ContainsLower(haystack: string, needle: string)
    requires Contains(haystack, needle)
    ensures Contains(Lower(haystack), Lower(needle))
  {
    var i :| OccursAt(haystack, needle, i);
    LowerSlice(haystack, i, i + |needle|);
    assert OccursAt(Lower(haystack), Lower(needle), i);
  }
}
