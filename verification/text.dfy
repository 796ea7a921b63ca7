/** Strings as the list pages use them: `toLowerCase` and `includes`. */
module Text {

  /** `toLowerCase` on one character. Covers ASCII and the Latin-1 upper-case
      block (U+00C0..U+00DE, except the multiplication sign U+00D7), which is
      where every upper-case letter of the Portuguese mock data lives. */
  function Lower(c: char): char
  {
    if IsUpper(c) then (c as int + 32) as char else c
  }

  /** The upper-case letters `Lower` maps. */
  predicate IsUpper(c: char)
  {
    'A' <= c <= 'Z' || ('\U{C0}' <= c <= '\U{DE}' && c != '\U{D7}')
  }

  /** `s.toLowerCase()`: the character map applied pointwise. */
  function LowerStr(s: string): (r: string)
    ensures |r| == |s|
    ensures forall i :: 0 <= i < |s| ==> r[i] == Lower(s[i])
  {
    seq(|s|, i requires 0 <= i < |s| => Lower(s[i]))
  }

  /** The result of lower-casing has no upper-case letter left. */
  lemma LowerHasNoUpper(c: char)
    ensures !IsUpper(Lower(c))
  {
  }

  /** Lower-casing twice is lower-casing once. */
  lemma LowerStrIdempotent(s: string)
    ensures LowerStr(LowerStr(s)) == LowerStr(s)
  {
    var once := LowerStr(s);
    forall i | 0 <= i < |s|
      ensures LowerStr(once)[i] == once[i]
    {
      LowerHasNoUpper(s[i]);
    }
  }

  /** `needle` sits in `hay` at offset `i`. */
  predicate OccursAt(hay: string, needle: string, i: int)
  {
    0 <= i && i + |needle| <= |hay| && hay[i..i + |needle|] == needle
  }

  /** What `hay.includes(needle)` means: some offset holds the needle. */
  ghost predicate Contains(hay: string, needle: string)
  {
    exists i :: OccursAt(hay, needle, i)
  }

  /** `hay.includes(needle)`, computed by trying each offset from the left. */
  function Includes(hay: string, needle: string): (b: bool)
    ensures b <==> Contains(hay, needle)
    decreases |hay|
  {
    if |needle| > |hay| then
      assert forall i :: !OccursAt(hay, needle, i);
      false
    else if hay[..|needle|] == needle then
      assert OccursAt(hay, needle, 0);
      true
    else
      var rest := Includes(hay[1..], needle);
      ShiftOccurrence(hay, needle);
      rest
  }

  /** An occurrence at a positive offset is an occurrence in the tail. */
  lemma ShiftOccurrence(hay: string, needle: string)
    requires |needle| <= |hay|
    requires hay[..|needle|] != needle
    ensures Contains(hay, needle) <==> Contains(hay[1..], needle)
  {
    if Contains(hay, needle) {
      var i :| OccursAt(hay, needle, i);
      assert i != 0;
      assert hay[1..][i - 1..i - 1 + |needle|] == hay[i..i + |needle|];
      assert OccursAt(hay[1..], needle, i - 1);
    }
    if Contains(hay[1..], needle) {
      var j :| OccursAt(hay[1..], needle, j);
      assert hay[j + 1..j + 1 + |needle|] == hay[1..][j..j + |needle|];
      assert OccursAt(hay, needle, j + 1);
    }
  }

  /** The empty needle is found in every string. */
  lemma EmptyNeedle(hay: string)
    ensures Includes(hay, "")
  {
    assert OccursAt(hay, "", 0);
  }

  /** An occurrence in a string can be read off the characters. */
  lemma ContainsAt(hay: string, needle: string, i: int)
    requires OccursAt(hay, needle, i)
    ensures Includes(hay, needle)
  {
  }

  /** A needle longer than the haystack is never found. */
  lemma TooLong(hay: string, needle: string)
    requires |needle| > |hay|
    ensures !Includes(hay, needle)
  {
  }

  /** `a.toLowerCase().includes(b.toLowerCase())`: the case-insensitive test. */
  function IncludesFolded(hay: string, needle: string): (b: bool)
    ensures b <==> Contains(LowerStr(hay), LowerStr(needle))
  {
    Includes(LowerStr(hay), LowerStr(needle))
  }

  /** The case-insensitive test ignores the case of both arguments. */
  lemma {:induction false} FoldedIgnoresCase(hay: string, needle: string)
    ensures IncludesFolded(LowerStr(hay), needle) == IncludesFolded(hay, needle)
    ensures IncludesFolded(hay, LowerStr(needle)) == IncludesFolded(hay, needle)
  {
    LowerStrIdempotent(hay);
    LowerStrIdempotent(needle);
  }
}
