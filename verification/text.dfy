/**
 * The string operations the POI search relies on: lower-casing and
 * substring search (`toLowerCase` and `includes`).
 */
module Text {

  /** Lower-cases an ASCII capital letter and leaves every other character as it is. */
  function Lower(c: char): (d: char)
    ensures !('A' <= d <= 'Z')
    ensures d == c || ('A' <= c <= 'Z' && d as int == c as int + 32)
  {
    if 'A' <= c <= 'Z' then (c as int + 32) as char else c
  }

  /**
   * Lower-cases a string character by character: the result has no ASCII
   * capital, and each character is the original or, for a capital, the
   * letter 32 code points above it.
   */
  function LowerStr(s: string): (r: string)
    ensures |r| == |s|
    ensures forall i :: 0 <= i < |r| ==> !('A' <= r[i] <= 'Z')
    ensures forall i :: 0 <= i < |s| ==> r[i] == s[i] || ('A' <= s[i] <= 'Z' && r[i] as int == s[i] as int + 32)
  {
    seq(|s|, i requires 0 <= i < |s| => Lower(s[i]))
  }

  /** Lower-casing twice is lower-casing once. */
  lemma {:induction false} LowerStrIdempotent(s: string)
    ensures LowerStr(LowerStr(s)) == LowerStr(s)
  {
    var once := LowerStr(s);
    var twice := LowerStr(once);
    assert |twice| == |once|;
    forall i | 0 <= i < |once|
      ensures twice[i] == once[i]
    {
      assert once[i] == Lower(s[i]);
    }
  }

  /** `needle` occurs in `hay` starting at offset `i`: the reference meaning of "contains". */
  predicate OccursAt(hay: string, needle: string, i: int)
  {
    0 <= i && i + |needle| <= |hay| && hay[i..i + |needle|] == needle
  }

  /** `hay` starts with `needle`. */
  predicate StartsWith(hay: string, needle: string)
  {
    |needle| <= |hay| && hay[..|needle|] == needle
  }

  /** The left-to-right search behind `hay.includes(needle)`. */
  function Includes(hay: string, needle: string): bool
    decreases |hay|
  {
    if StartsWith(hay, needle) then true
    else if hay == [] then false
    else Includes(hay[1..], needle)
  }

  /** The search finds `needle` exactly when it occurs at some offset of `hay`. */
  lemma {:induction false} IncludesIffOccurs(hay: string, needle: string)
    ensures Includes(hay, needle) <==> exists i :: OccursAt(hay, needle, i)
    decreases |hay|
  {
    if StartsWith(hay, needle) {
      assert OccursAt(hay, needle, 0);
    } else if hay == [] {
      assert forall i :: OccursAt(hay, needle, i) ==> i == 0 && needle == [];
    } else {
      var tail := hay[1..];
      IncludesIffOccurs(tail, needle);
      if exists j :: OccursAt(tail, needle, j) {
        var j :| OccursAt(tail, needle, j);
        assert tail[j..j + |needle|] == hay[j + 1..j + 1 + |needle|];
        assert OccursAt(hay, needle, j + 1);
      }
      if exists i :: OccursAt(hay, needle, i) {
        var i :| OccursAt(hay, needle, i);
        assert i != 0;
        assert tail[i - 1..i - 1 + |needle|] == hay[i..i + |needle|];
        assert OccursAt(tail, needle, i - 1);
      }
    }
  }

  /** The empty string is contained in every string (`s.includes('')` is true). */
  lemma IncludesEmpty(hay: string)
    ensures Includes(hay, [])
  {
    assert StartsWith(hay, []);
  }
  /** A needle holding a character the haystack lacks is not found. */
  lemma NotIncludesMissingChar(hay: string, needle: string, ch: char)
    requires ch in needle && ch !in hay
    ensures !Includes(hay, needle)
  {
    IncludesIffOccurs(hay, needle);
  }

  /** A lower-case letter appears in the lower-cased string only if it or its capital appears in the original. */
  lemma LowerStrAvoids(s: string, ch: char)
    requires 'a' <= ch <= 'z' && ch !in s && (ch as int - 32) as char !in s
    ensures ch !in LowerStr(s)
  {
    forall i | 0 <= i < |s|
      ensures LowerStr(s)[i] != ch
    {
      assert s[i] != ch && s[i] as int != ch as int - 32;
    }
  }
}
