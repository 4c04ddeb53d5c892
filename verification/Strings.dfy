/** Comparisons of strings. */
module Strings {

  /** Go's <= on strings. */
  predicate Le(a: string, b: string) {
    a == [] || (b != [] && (a[0] < b[0] || (a[0] == b[0] && Le(a[1..], b[1..]))))
  }

  lemma {:induction false} LeTotal(a: string, b: string)
    ensures Le(a, b) || Le(b, a)
    ensures Le(a, b) && Le(b, a) ==> a == b
  {
    if a != [] && b != [] && a[0] == b[0] {
      LeTotal(a[1..], b[1..]);
      assert a == [a[0]] + a[1..] && b == [b[0]] + b[1..];
    }
  }

  lemma {:induction false} LeTransitive(a: string, b: string, c: string)
    requires Le(a, b) && Le(b, c)
    ensures Le(a, c)
  {
    if a != [] && a[0] == b[0] == c[0] {
      LeTransitive(a[1..], b[1..], c[1..]);
    }
  }

  /** strings.EqualFold against an ASCII word: two letters outside ASCII fold into it. */
  function Fold(c: char): char {
    if 'A' <= c <= 'Z' then c - 'A' + 'a'
    else if c == '\U{017F}' then 's'
    else if c == '\U{212A}' then 'k'
    else c
  }

  function FoldAll(s: string): string {
    seq(|s|, i requires 0 <= i < |s| => Fold(s[i]))
  }

  predicate EqualFold(s: string, word: string) {
    FoldAll(s) == FoldAll(word)
  }

  /** The same ASCII letter in either case, or one of the two letters outside ASCII that
      fold into it. */
  predicate SameLetter(c: char, d: char) {
    || c == d
    || ('A' <= c <= 'Z' && d as int == c as int + 32)
    || ('A' <= d <= 'Z' && c as int == d as int + 32)
    || (c in "Ss\U{017F}" && d in "Ss\U{017F}")
    || (c in "Kk\U{212A}" && d in "Kk\U{212A}")
  }

  /** Two strings are equal but for letter case just if they are so letter by letter. */
  lemma EqualFoldIff(s: string, t: string)
    ensures EqualFold(s, t) <==> |s| == |t| && forall i :: 0 <= i < |s| ==> SameLetter(s[i], t[i])
  {
    forall i | 0 <= i < |s| && i < |t| ensures Fold(s[i]) == Fold(t[i]) <==> SameLetter(s[i], t[i]) {
      FoldIff(s[i], t[i]);
    }
    assert forall i :: 0 <= i < |s| ==> FoldAll(s)[i] == Fold(s[i]);
    assert forall i :: 0 <= i < |t| ==> FoldAll(t)[i] == Fold(t[i]);
  }

  lemma FoldIff(c: char, d: char)
    ensures Fold(c) == Fold(d) <==> SameLetter(c, d)
  {
  }
}
