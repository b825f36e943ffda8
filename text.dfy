/** Java's `String.equalsIgnoreCase`, exact when the second string is ASCII, as every name the
    plugin compares against is. Java calls two characters equal when their upper cases, or the
    lower cases of their upper cases, agree; against an ASCII letter that matches its two ASCII
    cases and four other characters: the long s (upper case 'S'), the dotless i (upper case 'I'),
    the dotted capital I (lower case 'i') and the Kelvin sign (lower case 'k'). */
module Text {

  /** The characters outside ASCII that fold to an ASCII letter. */
  const LONG_S: char := '\U{017F}'
  const DOTLESS_I: char := '\U{0131}'
  const DOTTED_CAPITAL_I: char := '\U{0130}'
  const KELVIN_SIGN: char := '\U{212A}'

  function Lower(c: char): (r: char)
    ensures 'A' <= c <= 'Z' ==> r as int == c as int + 32
    ensures c == LONG_S ==> r == 's'
    ensures c == DOTLESS_I || c == DOTTED_CAPITAL_I ==> r == 'i'
    ensures c == KELVIN_SIGN ==> r == 'k'
    ensures r != c <==> 'A' <= c <= 'Z' || c in {LONG_S, DOTLESS_I, DOTTED_CAPITAL_I, KELVIN_SIGN}
  {
    if 'A' <= c <= 'Z' then (c as int + 32) as char
    else if c == LONG_S then 's'
    else if c == DOTLESS_I || c == DOTTED_CAPITAL_I then 'i'
    else if c == KELVIN_SIGN then 'k'
    else c
  }

  predicate EqualsIgnoreCase(a: string, b: string) {
    |a| == |b| && forall i :: 0 <= i < |a| ==> Lower(a[i]) == Lower(b[i])
  }

  /** The characters that match an ASCII lower-case letter: the letter itself, its capital, and
      the folding characters above for 's', 'i' and 'k'. */
  lemma MatchesLowerLetter(c: char, d: char)
    requires 'a' <= d <= 'z'
    ensures Lower(c) == d <==>
      c == d || c as int == d as int - 32 || (d == 's' && c == LONG_S) ||
      (d == 'i' && (c == DOTLESS_I || c == DOTTED_CAPITAL_I)) || (d == 'k' && c == KELVIN_SIGN)
  {
  }

  /** Two names that differ in length or, up to case, in their first character are never both
      matched by one string; so a chain of case-insensitive tests against such names answers the
      same in any order. */
  lemma NamesApart(s: string, n1: string, n2: string)
    requires |n1| != |n2| || (|n1| > 0 && |n2| > 0 && Lower(n1[0]) != Lower(n2[0]))
    requires EqualsIgnoreCase(s, n1)
    ensures !EqualsIgnoreCase(s, n2)
  {
  }
}
