/**
 * Character-level text operations shared by the Calcite utilities:
 * Java's `String.toUpperCase(Locale.ROOT)` and `String.equalsIgnoreCase`.
 */
module Text {

  /**
   * Upper case of one character, as Java's `Character.toUpperCase` gives it for the
   * characters whose upper case is an ASCII letter: `a`-`z`, dotless i (U+0131 -> `I`)
   * and long s (U+017F -> `S`). Every other character is left as it is.
   */
  function UpperChar(c: char): (u: char)
    ensures 'a' <= c <= 'z' ==> 'A' <= u <= 'Z' && u as int == c as int - 32
    ensures !('a' <= c <= 'z') && c != '\U{0131}' && c != '\U{017F}' ==> u == c
  {
    if 'a' <= c <= 'z' then (c as int - 32) as char
    else if c == '\U{0131}' then 'I'
    else if c == '\U{017F}' then 'S'
    else c
  }

  /** `s.toUpperCase(Locale.ROOT)`, character by character. */
  function Upper(s: string): (r: string)
    ensures |r| == |s|
    ensures forall i :: 0 <= i < |s| ==> r[i] == UpperChar(s[i])
  {
    if s == [] then [] else [UpperChar(s[0])] + Upper(s[1..])
  }

  /** Upper-casing twice is upper-casing once. */
  lemma UpperIdempotent(s: string)
    ensures Upper(Upper(s)) == Upper(s)
  {
    assert forall i :: 0 <= i < |s| ==> Upper(Upper(s))[i] == Upper(s)[i];
  }

  /** A string without letters to raise is its own upper case. */
  lemma UpperOfUpperCase(s: string)
    requires forall i :: 0 <= i < |s| ==> !('a' <= s[i] <= 'z') && s[i] != '\U{0131}' && s[i] != '\U{017F}'
    ensures Upper(s) == s
  {
    assert forall i :: 0 <= i < |s| ==> Upper(s)[i] == s[i];
  }

  /**
   * Lower case of one character, as Java's `Character.toLowerCase` gives it for the
   * characters whose lower case is an ASCII letter: `A`-`Z`, capital I with dot above
   * (U+0130 -> `i`) and the Kelvin sign (U+212A -> `k`). Every other character is left as it is.
   */
  function LowerChar(c: char): (l: char)
    ensures 'A' <= c <= 'Z' ==> 'a' <= l <= 'z' && l as int == c as int + 32
    ensures !('A' <= c <= 'Z') && c != '\U{0130}' && c != '\U{212A}' ==> l == c
  {
    if 'A' <= c <= 'Z' then (c as int + 32) as char
    else if c == '\U{0130}' then 'i'
    else if c == '\U{212A}' then 'k'
    else c
  }

  /**
   * One character pair of `a.equalsIgnoreCase(b)`: the characters are equal, or their upper
   * cases are, or the lower cases of their upper cases are.
   */
  predicate CharsEqualIgnoreCase(a: char, b: char) {
    || a == b
    || UpperChar(a) == UpperChar(b)
    || LowerChar(UpperChar(a)) == LowerChar(UpperChar(b))
  }

  /** `a.equalsIgnoreCase(b)`: equal length and every character pair equal ignoring case. */
  predicate EqualsIgnoreCase(a: string, b: string) {
    |a| == |b| && forall i :: 0 <= i < |a| ==> CharsEqualIgnoreCase(a[i], b[i])
  }

  /** The case-folded form of a character: the lower case of its upper case. */
  function FoldChar(c: char): char {
    LowerChar(UpperChar(c))
  }

  /** The case-folded form of a string, character by character. */
  function Fold(s: string): (r: string)
    ensures |r| == |s|
    ensures forall i :: 0 <= i < |s| ==> r[i] == FoldChar(s[i])
  {
    if s == [] then [] else [FoldChar(s[0])] + Fold(s[1..])
  }

  /** Two strings are equal ignoring case exactly when their folded forms are equal. */
  lemma EqualsIgnoreCaseFold(a: string, b: string)
    ensures EqualsIgnoreCase(a, b) <==> Fold(a) == Fold(b)
  {
    if Fold(a) == Fold(b) {
      forall i | 0 <= i < |a| ensures CharsEqualIgnoreCase(a[i], b[i]) {
        assert Fold(a)[i] == Fold(b)[i];
      }
    }
    if EqualsIgnoreCase(a, b) {
      assert forall i :: 0 <= i < |a| ==> Fold(a)[i] == Fold(b)[i];
    }
  }

  /** A string that matches `s` folded character by character is its folded form. */
  lemma FoldPointwise(s: string, f: string)
    requires |s| == |f| && forall i :: 0 <= i < |s| ==> f[i] == FoldChar(s[i])
    ensures Fold(s) == f
  {
  }

  /** Against a string that is its own folded form, ignoring case is comparing with the folded form. */
  lemma EqualsIgnoreCaseFolded(a: string, b: string)
    requires forall i :: 0 <= i < |b| ==> FoldChar(b[i]) == b[i]
    ensures EqualsIgnoreCase(a, b) <==> Fold(a) == b
  {
    EqualsIgnoreCaseFold(a, b);
    FoldPointwise(b, b);
  }

  /** Upper-casing first does not change the folded form. */
  lemma FoldUpper(s: string)
    ensures Fold(Upper(s)) == Fold(s)
  {
    assert forall i :: 0 <= i < |s| ==> Fold(Upper(s))[i] == Fold(s)[i];
  }

  /** Ignoring case cannot tell a string from its upper case. */
  lemma EqualsIgnoreCaseUpper(a: string, b: string)
    ensures EqualsIgnoreCase(a, b) <==> EqualsIgnoreCase(Upper(a), b)
  {
    EqualsIgnoreCaseFold(a, b);
    EqualsIgnoreCaseFold(Upper(a), b);
    FoldUpper(a);
  }

  /** Ignoring case is an equivalence. */
  lemma EqualsIgnoreCaseEquivalence(a: string, b: string, c: string)
    ensures EqualsIgnoreCase(a, a)
    ensures EqualsIgnoreCase(a, b) ==> EqualsIgnoreCase(b, a)
    ensures EqualsIgnoreCase(a, b) && EqualsIgnoreCase(b, c) ==> EqualsIgnoreCase(a, c)
  {
    EqualsIgnoreCaseFold(a, a);
    EqualsIgnoreCaseFold(a, b);
    EqualsIgnoreCaseFold(b, a);
    EqualsIgnoreCaseFold(b, c);
    EqualsIgnoreCaseFold(a, c);
  }
}
