/**
 * The two string operations the app search relies on: lower-casing
 * (`String.prototype.toLowerCase`) and substring search
 * (`String.prototype.includes`). Lower-casing is modelled on ASCII letters
 * only; every other character is left as it is.
 */
module Text {

  predicate IsUpper(c: char) {
    'A' <= c <= 'Z'
  }

  /** Lower-cases one character: ASCII upper-case letters map to their lower-case partner. */
  function LowerChar(c: char): (r: char)
    ensures !IsUpper(r)
    ensures !IsUpper(c) ==> r == c
    ensures IsUpper(c) ==> 'a' <= r <= 'z' && r as int - c as int == 32
  {
    if IsUpper(c) then (c as int + 32) as char else c
  }

  /** Lower-cases a whole string, character by character. */
  function Lower(s: string): (r: string)
    ensures |r| == |s|
    ensures forall i :: 0 <= i < |r| ==> !IsUpper(r[i])
    ensures forall i :: 0 <= i < |s| && !IsUpper(s[i]) ==> r[i] == s[i]
    ensures forall i :: 0 <= i < |s| ==> r[i] == LowerChar(s[i])
  {
    seq(|s|, i requires 0 <= i < |s| => LowerChar(s[i]))
  }

  /** Lower-casing twice is lower-casing once. */
  lemma LowerIdempotent(s: string)
    ensures Lower(Lower(s)) == Lower(s)
  {
  }

  /** `needle` occurs in `hay` starting at position `i`. */
  predicate OccursAt(hay: string, needle: string, i: int) {
    0 <= i && i + |needle| <= |hay| && hay[i..i + |needle|] == needle
  }

  /** `hay.includes(needle)`: `needle` occurs somewhere in `hay`. */
  predicate Contains(hay: string, needle: string) {
    exists i | 0 <= i <= |hay| :: OccursAt(hay, needle, i)
  }

  /** The empty string occurs in every string, at position 0. */
  lemma EmptyContained(hay: string)
    ensures Contains(hay, "")
  {
    assert OccursAt(hay, "", 0);
  }

  /** A string contains itself, and nothing longer than itself. */
  lemma ContainsLength(hay: string, needle: string)
    ensures Contains(hay, hay)
    ensures Contains(hay, needle) ==> |needle| <= |hay|
  {
    assert OccursAt(hay, hay, 0);
  }

  /**
   * A left-to-right scan that tries every start position in turn, as a
   * naive `includes` does; it answers exactly `Contains`.
   */
  method Includes(hay: string, needle: string) returns (found: bool)
    ensures found <==> Contains(hay, needle)
  {
    if |needle| > |hay| {
      return false;
    }
    var i := 0;
    while i <= |hay| - |needle|
      invariant 0 <= i <= |hay| - |needle| + 1
      invariant forall j :: 0 <= j < i ==> !OccursAt(hay, needle, j)
    {
      if hay[i..i + |needle|] == needle {
        assert OccursAt(hay, needle, i);
        return true;
      }
      i := i + 1;
    }
    return false;
  }
}
