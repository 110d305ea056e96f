/**
 * Lower-casing of the label the classification service returns
 * (`String.prototype.toLowerCase` in the widget), restricted to ASCII.
 */
module Text {

  predicate IsUpperAscii(c: char) {
    'A' <= c <= 'Z'
  }

  /** One character lower-cased: 'A'..'Z' become 'a'..'z', everything else is kept. */
  function LowerChar(c: char): (d: char)
    ensures IsUpperAscii(c) ==> d as int == c as int + 32
    ensures !IsUpperAscii(c) ==> d == c
    ensures !IsUpperAscii(d)
  {
    if IsUpperAscii(c) then (c as int + 32) as char else c
  }

  /** No character of `s` is an upper-case ASCII letter. */
  predicate IsLowerCase(s: string) {
    forall i :: 0 <= i < |s| ==> !IsUpperAscii(s[i])
  }

  /** The string lower-cased character by character. */
  function ToLower(s: string): (r: string)
    ensures |r| == |s|
    ensures forall i :: 0 <= i < |s| ==> r[i] == LowerChar(s[i])
    ensures IsLowerCase(r)
  {
    if s == [] then [] else [LowerChar(s[0])] + ToLower(s[1..])
  }

  /**
   * Reference definition of one letter matching another up to case, stated on
   * character codes: the same character, or an ASCII capital and the letter
   * 32 code points above it, in either order.
   */
  predicate SameCharIgnoringCase(c: char, d: char) {
    c == d
    || ('A' <= c <= 'Z' && d as int == c as int + 32)
    || ('A' <= d <= 'Z' && c as int == d as int + 32)
  }

  /** Reference definition of case-insensitive equality: same length, same letters up to case. */
  predicate EqualsIgnoringCase(a: string, b: string) {
    |a| == |b| && forall i :: 0 <= i < |a| ==> SameCharIgnoringCase(a[i], b[i])
  }

  /** Two characters lower-case to the same character exactly when they match up to case. */
  lemma LowerCharSameIff(c: char, d: char)
    ensures LowerChar(c) == LowerChar(d) <==> SameCharIgnoringCase(c, d)
  {
    if LowerChar(c) == LowerChar(d) {
      if IsUpperAscii(c) && !IsUpperAscii(d) {
        assert d as int == c as int + 32;
      } else if !IsUpperAscii(c) && IsUpperAscii(d) {
        assert c as int == d as int + 32;
      } else if IsUpperAscii(c) && IsUpperAscii(d) {
        assert c as int == d as int;
      }
    }
  }

  /** A string that is already lower case is its own lower-casing. */
  lemma ToLowerOfLowerCase(s: string)
    requires IsLowerCase(s)
    ensures ToLower(s) == s
  {
  }

  /** Lower-casing twice is lower-casing once. */
  lemma ToLowerIdempotent(s: string)
    ensures ToLower(ToLower(s)) == ToLower(s)
  {
  }

  /** Two strings lower-case to the same string exactly when they are equal up to case. */
  lemma ToLowerSameIffEqualsIgnoringCase(a: string, b: string)
    ensures ToLower(a) == ToLower(b) <==> EqualsIgnoringCase(a, b)
  {
    if ToLower(a) == ToLower(b) {
      forall i | 0 <= i < |a| ensures SameCharIgnoringCase(a[i], b[i]) {
        assert ToLower(a)[i] == ToLower(b)[i];
        LowerCharSameIff(a[i], b[i]);
      }
    }
    if EqualsIgnoringCase(a, b) {
      forall i | 0 <= i < |a| ensures ToLower(a)[i] == ToLower(b)[i] {
        LowerCharSameIff(a[i], b[i]);
      }
    }
  }
}
