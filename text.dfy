/**
  The string operations of Python that the pipeline's tools rely on, restricted
  to ASCII: `str.lower`, `str.upper`, `str.replace` with one-character
  arguments, and the substring test `needle in hay`.
 */
module Text {

  predicate IsUpperLetter(c: char) { 'A' <= c <= 'Z' }

  predicate IsLowerLetter(c: char) { 'a' <= c <= 'z' }

  /** Python's lower-casing of one character; only ASCII letters change. */
  function LowerChar(c: char): char
  {
    if IsUpperLetter(c) then (c as int + 32) as char else c
  }

  /** Python's upper-casing of one character; only ASCII letters change. */
  function UpperChar(c: char): char
  {
    if IsLowerLetter(c) then (c as int - 32) as char else c
  }

  /** `s.lower()` */
  function Lower(s: string): string
  {
    seq(|s|, i requires 0 <= i < |s| => LowerChar(s[i]))
  }

  /** `s.upper()` */
  function Upper(s: string): string
  {
    seq(|s|, i requires 0 <= i < |s| => UpperChar(s[i]))
  }

  /** `s.replace(target, replacement)` for one-character arguments. */
  function ReplaceChar(s: string, target: char, replacement: char): string
  {
    seq(|s|, i requires 0 <= i < |s| => if s[i] == target then replacement else s[i])
  }

  /** Upper-casing computed character by character. */
  lemma UpperEquals(s: string, expected: string)
    requires |s| == |expected|
    requires forall i :: 0 <= i < |s| ==> UpperChar(s[i]) == expected[i]
    ensures Upper(s) == expected
  {
  }

  /** `needle` occurs in `hay` starting at position `i`. */
  predicate OccursAt(needle: string, hay: string, i: int)
  {
    0 <= i && i + |needle| <= |hay| && hay[i..i + |needle|] == needle
  }

  /** Python's `needle in hay` for two strings: `needle` occurs at some position of `hay`. */
  predicate IsSubstring(needle: string, hay: string)
  {
    exists i | 0 <= i <= |hay| - |needle| :: OccursAt(needle, hay, i)
  }

  /** A string is never found in a shorter one. */
  lemma LongerNotSubstring(needle: string, hay: string)
    requires |needle| > |hay|
    ensures !IsSubstring(needle, hay)
  {
  }

  /**
    `needle` is absent from `hay` when its `k`-th character appears at none of
    the positions an occurrence would put it on.
   */
  lemma NotSubstringAt(needle: string, hay: string, k: int)
    requires 0 <= k < |needle|
    requires forall p :: k <= p <= |hay| - |needle| + k ==> hay[p] != needle[k]
    ensures !IsSubstring(needle, hay)
  {
    forall i | 0 <= i <= |hay| - |needle|
      ensures !OccursAt(needle, hay, i)
    {
      assert hay[i + k] != needle[k];
    }
  }

  /** Containment of strings is transitive. */
  lemma SubstringTransitive(a: string, b: string, c: string)
    requires IsSubstring(a, b) && IsSubstring(b, c)
    ensures IsSubstring(a, c)
  {
    var i :| 0 <= i <= |b| - |a| && OccursAt(a, b, i);
    var j :| 0 <= j <= |c| - |b| && OccursAt(b, c, j);
    assert forall p :: j + i <= p < j + i + |a| ==> c[p] == b[p - j];
    assert OccursAt(a, c, j + i);
  }

  /** A string occurs in any string that surrounds it. */
  lemma SubstringOfConcat(needle: string, pre: string, post: string)
    ensures IsSubstring(needle, pre + needle + post)
  {
    var hay := pre + needle + post;
    assert hay[|pre|..|pre| + |needle|] == needle;
    assert OccursAt(needle, hay, |pre|);
  }

  /** Upper-casing both sides keeps an occurrence. */
  lemma UpperKeepsSubstring(needle: string, hay: string)
    requires IsSubstring(needle, hay)
    ensures IsSubstring(Upper(needle), Upper(hay))
  {
    var i :| 0 <= i <= |hay| - |needle| && OccursAt(needle, hay, i);
    assert Upper(hay)[i..i + |needle|] == Upper(needle);
    assert OccursAt(Upper(needle), Upper(hay), i);
  }

  /** Two strings that differ at most in the case of their ASCII letters. */
  ghost predicate EqualIgnoringCase(a: string, b: string)
  {
    |a| == |b| &&
    forall i :: 0 <= i < |a| ==> b[i] == a[i] || b[i] == LowerChar(a[i]) || b[i] == UpperChar(a[i])
  }

  /** `needle` occurs in `hay` at position `i` up to the case of its letters. */
  ghost predicate OccursIgnoringCase(needle: string, hay: string, i: int)
  {
    0 <= i && i + |needle| <= |hay| && EqualIgnoringCase(needle, hay[i..i + |needle|])
  }

  /**
    For a needle without lower-case letters, an occurrence in the upper-cased
    hay is exactly a case-insensitive occurrence in the hay itself.
   */
  lemma UpperOccursIff(needle: string, hay: string, i: int)
    requires forall j :: 0 <= j < |needle| ==> !IsLowerLetter(needle[j])
    ensures OccursAt(needle, Upper(hay), i) <==> OccursIgnoringCase(needle, hay, i)
  {
    if 0 <= i && i + |needle| <= |hay| {
      var window := hay[i..i + |needle|];
      assert Upper(hay)[i..i + |needle|] == Upper(window);
      forall j | 0 <= j < |needle|
        ensures UpperChar(window[j]) == needle[j] <==>
                (window[j] == needle[j] || window[j] == LowerChar(needle[j]) || window[j] == UpperChar(needle[j]))
      {
      }
      if OccursAt(needle, Upper(hay), i) {
        assert forall j :: 0 <= j < |needle| ==> Upper(window)[j] == needle[j];
      }
      if OccursIgnoringCase(needle, hay, i) {
        assert Upper(window) == needle;
      }
    }
  }

  /** Strings that differ only in letter case have the same upper-case form. */
  lemma UpperIgnoresCase(a: string, b: string)
    requires EqualIgnoringCase(a, b)
    ensures Upper(a) == Upper(b)
  {
    forall i | 0 <= i < |a|
      ensures Upper(a)[i] == Upper(b)[i]
    {
      var c := a[i];
      assert UpperChar(LowerChar(c)) == UpperChar(c);
      assert UpperChar(UpperChar(c)) == UpperChar(c);
    }
  }
}
