/** Texts that differ only in the case of ASCII letters. */
module AsciiCase {

  /** `lower` is an ASCII letter in lower case, and `upper` the same letter in upper case. */
  predicate CasePair(lower: char, upper: char) {
    'a' <= lower <= 'z' && lower as int - 'a' as int == upper as int - 'A' as int
  }

  predicate SameLetter(a: char, b: char) {
    a == b || CasePair(a, b) || CasePair(b, a)
  }

  predicate SameUpToCase(a: string, b: string) {
    |a| == |b| && forall i :: 0 <= i < |a| ==> SameLetter(a[i], b[i])
  }

  predicate IsLower(c: char) {
    'a' <= c <= 'z'
  }

  predicate IsUpper(c: char) {
    'A' <= c <= 'Z'
  }

  /** Two texts without lower-case letters that differ in case only are equal; and so are two without
      upper-case letters. */
  lemma OneCaseIsEqual(a: string, b: string)
    requires SameUpToCase(a, b)
    requires (forall i :: 0 <= i < |a| ==> !IsLower(a[i]) && !IsLower(b[i]))
          || (forall i :: 0 <= i < |a| ==> !IsUpper(a[i]) && !IsUpper(b[i]))
    ensures a == b
  {
  }

  lemma SameUpToCaseTwice(a: string, b: string, c: string)
    requires SameUpToCase(a, b) && SameUpToCase(b, c)
    ensures SameUpToCase(b, a) && SameUpToCase(a, c)
  {
  }
}
