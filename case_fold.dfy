/**
 * Case-insensitive comparison of schemes, as `String.equalsIgnoreCase` does it,
 * restricted to ASCII case folding.
 */
module CaseFold {

  /** The upper-case form of an ASCII letter; every other character is unchanged. */
  function ToUpperAscii(c: char): (u: char)
  {
    if 'a' <= c <= 'z' then (c as int - ('a' as int - 'A' as int)) as char else c
  }

  /** The string with every ASCII letter upper-cased (the reference definition). */
  function UpperAscii(s: string): (u: string)
  {
    if s == [] then [] else [ToUpperAscii(s[0])] + UpperAscii(s[1..])
  }

  /**
   * `a.equalsIgnoreCase(b)`: the strings have the same length and agree
   * character by character once case is folded.
   */
  predicate EqualsIgnoreCase(a: string, b: string): (equal: bool)
    ensures equal ==> |a| == |b|
    ensures a == b ==> equal
  {
    |a| == |b| &&
    (|a| == 0 || (ToUpperAscii(a[0]) == ToUpperAscii(b[0]) && EqualsIgnoreCase(a[1..], b[1..])))
  }

  lemma {:induction false} UpperAsciiLength(s: string)
    ensures |UpperAscii(s)| == |s|
  {
    if s != [] {
      UpperAsciiLength(s[1..]);
    }
  }

  /** The character-by-character comparison agrees with comparing the upper-cased strings. */
  lemma {:induction false} EqualsIgnoreCaseIffSameUpper(a: string, b: string)
    ensures EqualsIgnoreCase(a, b) <==> UpperAscii(a) == UpperAscii(b)
  {
    UpperAsciiLength(a);
    UpperAsciiLength(b);
    if |a| == |b| && |a| > 0 {
      EqualsIgnoreCaseIffSameUpper(a[1..], b[1..]);
      var ua, ub := UpperAscii(a), UpperAscii(b);
      assert ua == [ToUpperAscii(a[0])] + UpperAscii(a[1..]);
      assert ub == [ToUpperAscii(b[0])] + UpperAscii(b[1..]);
      if ua == ub {
        assert ua[0] == ub[0];
        assert ua[1..] == UpperAscii(a[1..]);
        assert ub[1..] == UpperAscii(b[1..]);
      }
    }
  }

  lemma {:induction false} EqualsIgnoreCaseReflexive(a: string)
    ensures EqualsIgnoreCase(a, a)
  {
    EqualsIgnoreCaseIffSameUpper(a, a);
  }

  lemma {:induction false} EqualsIgnoreCaseSymmetric(a: string, b: string)
    ensures EqualsIgnoreCase(a, b) <==> EqualsIgnoreCase(b, a)
  {
    EqualsIgnoreCaseIffSameUpper(a, b);
    EqualsIgnoreCaseIffSameUpper(b, a);
  }

  lemma {:induction false} EqualsIgnoreCaseTransitive(a: string, b: string, c: string)
    requires EqualsIgnoreCase(a, b) && EqualsIgnoreCase(b, c)
    ensures EqualsIgnoreCase(a, c)
  {
    EqualsIgnoreCaseIffSameUpper(a, b);
    EqualsIgnoreCaseIffSameUpper(b, c);
    EqualsIgnoreCaseIffSameUpper(a, c);
  }

  /** Letters of different case match; a different letter does not. */
  lemma EqualsIgnoreCaseExamples()
    ensures EqualsIgnoreCase("HELLO", "hello")
    ensures !EqualsIgnoreCase("nope", "hello")
    ensures !EqualsIgnoreCase("hello", "hell")
  {
  }
}
