/** The password pattern shared by the registration DTO and both front-end
    schemas,
      (?=.*[a-z])(?=.*[A-Z])(?=.*\d)(?=.*[@$!%*?&])[A-Za-z\d@$!%*?&]
    used unanchored (`RegExp.prototype.test`): it accepts when at SOME position a
    character of the final class stands, and from that position on, without
    crossing a line terminator (JavaScript's `.`), a lower-case letter, an
    upper-case letter, a digit and a special character each appear. */
module PasswordPattern {

  datatype CharClass = Lower | Upper | Digit | Special

  /** `[a-z]`, `[A-Z]`, `\d` (ASCII digits without the `u` flag) and `[@$!%*?&]`. */
  predicate InClass(c: char, k: CharClass)
  {
    match k
    case Lower => 'a' <= c <= 'z'
    case Upper => 'A' <= c <= 'Z'
    case Digit => '0' <= c <= '9'
    case Special => c in "@$!%*?&"
  }

  /** The consuming class `[A-Za-z\d@$!%*?&]`. */
  predicate InAlphabet(c: char)
  {
    InClass(c, Lower) || InClass(c, Upper) || InClass(c, Digit) || InClass(c, Special)
  }

  /** The characters JavaScript's `.` does not match. */
  predicate IsLineTerminator(c: char)
  {
    c == '\n' || c == '\r' || c == '\U{2028}' || c == '\U{2029}'
  }

  /** `.*` can consume `s[i..j]`. */
  predicate LineFree(s: string, i: int, j: int)
    requires 0 <= i <= j <= |s|
  {
    forall m :: i <= m < j ==> !IsLineTerminator(s[m])
  }

  /** The lookahead `(?=.*[k])` succeeds at position `i`. */
  predicate LookaheadAt(s: string, i: int, k: CharClass)
    requires 0 <= i <= |s|
  {
    exists j :: i <= j < |s| && InClass(s[j], k) && LineFree(s, i, j)
  }

  /** The whole pattern matches starting at position `i`. */
  predicate MatchAt(s: string, i: int)
    requires 0 <= i < |s|
  {
    && InAlphabet(s[i])
    && LookaheadAt(s, i, Lower)
    && LookaheadAt(s, i, Upper)
    && LookaheadAt(s, i, Digit)
    && LookaheadAt(s, i, Special)
  }

  /** `passwordRegex.test(s)`. */
  predicate Matches(s: string)
  {
    exists i :: 0 <= i < |s| && MatchAt(s, i)
  }

  predicate Contains(s: string, k: CharClass)
  {
    exists j :: 0 <= j < |s| && InClass(s[j], k)
  }

  /** What the validation message promises: one character of each class. */
  predicate HasAllClasses(s: string)
  {
    Contains(s, Lower) && Contains(s, Upper) && Contains(s, Digit) && Contains(s, Special)
  }

  predicate SingleLine(s: string)
  {
    forall m :: 0 <= m < |s| ==> !IsLineTerminator(s[m])
  }

  /** Every accepted password has a character of each of the four classes. */
  lemma MatchesHasAllClasses(s: string)
    requires Matches(s)
    ensures HasAllClasses(s)
  {
  }

  /** On a single line the pattern accepts exactly the strings that hold one
      character of each class, wherever they stand and whatever else the string
      holds. */
  lemma SingleLineMatchesIff(s: string)
    requires SingleLine(s)
    ensures Matches(s) <==> HasAllClasses(s)
  {
    if HasAllClasses(s) {
      var a :| 0 <= a < |s| && InClass(s[a], Lower);
      var b :| 0 <= b < |s| && InClass(s[b], Upper);
      var c :| 0 <= c < |s| && InClass(s[c], Digit);
      var d :| 0 <= d < |s| && InClass(s[d], Special);
      var i := Min(Min(a, b), Min(c, d));
      assert InAlphabet(s[i]);
      assert LineFree(s, i, a) && LineFree(s, i, b) && LineFree(s, i, c) && LineFree(s, i, d);
      assert LookaheadAt(s, i, Lower);
      assert LookaheadAt(s, i, Upper);
      assert LookaheadAt(s, i, Digit);
      assert LookaheadAt(s, i, Special);
      assert MatchAt(s, i);
    }
    if Matches(s) {
      MatchesHasAllClasses(s);
    }
  }

  function Min(x: int, y: int): int
  {
    if x <= y then x else y
  }

  /** The pattern is unanchored: characters outside its classes, such as spaces,
      may stand anywhere, before the match included. */
  lemma SpacesAreAccepted()
    ensures Matches(" Ab1@ x")
  {
    var s := " Ab1@ x";
    assert InClass(s[1], Upper) && InClass(s[2], Lower) && InClass(s[3], Digit) && InClass(s[4], Special);
    assert LookaheadAt(s, 1, Upper) && LookaheadAt(s, 1, Lower);
    assert LookaheadAt(s, 1, Digit) && LookaheadAt(s, 1, Special);
    assert MatchAt(s, 1);
  }

  /** A line break between the classes defeats the lookaheads: this string holds
      all four classes and is still rejected. */
  lemma LineBreakRejected()
    ensures HasAllClasses("aA1\n@") && !Matches("aA1\n@")
  {
    var s := "aA1\n@";
    assert InClass(s[0], Lower) && InClass(s[1], Upper) && InClass(s[2], Digit) && InClass(s[4], Special);
    forall i | 0 <= i < |s| ensures !MatchAt(s, i) {
      if i < 4 {
        forall j | i <= j < |s| && InClass(s[j], Special) ensures !LineFree(s, i, j) {
          assert j == 4;
          assert IsLineTerminator(s[3]);
        }
        assert !LookaheadAt(s, i, Special);
      } else {
        assert !LookaheadAt(s, i, Lower);
      }
    }
  }
}
