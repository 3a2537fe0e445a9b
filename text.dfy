/** `String.prototype.toLowerCase`, restricted to the ASCII letters. */
module Text {

  predicate IsAsciiUpper(c: char)
  {
    'A' <= c <= 'Z'
  }

  function LowerChar(c: char): char
  {
    if IsAsciiUpper(c) then (c as int + 32) as char else c
  }

  /** No upper-case ASCII letter anywhere in `s`. */
  predicate IsLowerCase(s: string)
  {
    forall i :: 0 <= i < |s| ==> !IsAsciiUpper(s[i])
  }

  /** The string with every upper-case ASCII letter replaced by its lower-case
      form and every other character kept. */
  function ToLower(s: string): (r: string)
    ensures |r| == |s|
    ensures IsLowerCase(r)
    ensures forall i :: 0 <= i < |s| && !IsAsciiUpper(s[i]) ==> r[i] == s[i]
    ensures forall i :: 0 <= i < |s| && IsAsciiUpper(s[i]) ==> r[i] == (s[i] as int + 32) as char
  {
    seq(|s|, i requires 0 <= i < |s| => LowerChar(s[i]))
  }

  /** Lower-casing leaves an already lower-case string alone, so it is idempotent. */
  lemma ToLowerFixesLowerCase(s: string)
    requires IsLowerCase(s)
    ensures ToLower(s) == s
  {
  }

  lemma ToLowerIdempotent(s: string)
    ensures ToLower(ToLower(s)) == ToLower(s)
  {
  }

  /** `a` and `b` spell the same address up to the case of ASCII letters. */
  predicate SameIgnoringCase(a: string, b: string)
  {
    |a| == |b| && forall i :: 0 <= i < |a| ==> LowerChar(a[i]) == LowerChar(b[i])
  }

  /** Two addresses lower-case to the same string exactly when they differ only
      in the case of ASCII letters. */
  lemma ToLowerEqualIff(a: string, b: string)
    ensures ToLower(a) == ToLower(b) <==> SameIgnoringCase(a, b)
  {
  }
}
