/** The sign-up form schema of the front end (zod). */
module SignupSchema {
  import opened PasswordPattern

  datatype SignupFormData = SignupFormData(
    name: string, lastName: string, email: string,
    password: string, confirmPassword: string, terms: bool)

  /** `z.string().min(3).max(20)`. */
  predicate NameOk(s: string)
  {
    3 <= |s| <= 20
  }

  /** `z.string().min(6).max(16).regex(passwordRegex)`. */
  predicate PasswordOk(s: string)
  {
    6 <= |s| <= 16 && Matches(s)
  }

  /** The whole schema; `zodEmail` is zod's e-mail format check. */
  predicate Valid(f: SignupFormData, zodEmail: string -> bool)
  {
    && NameOk(f.name)
    && NameOk(f.lastName)
    && zodEmail(f.email) && f.email != ""
    && PasswordOk(f.password)
    && PasswordOk(f.confirmPassword)
    && f.terms == true
  }

  /** Both passwords of a valid form hold a lower-case letter, an upper-case
      letter, a digit and a special character. */
  lemma ValidPasswordsHaveAllClasses(f: SignupFormData, zodEmail: string -> bool)
    requires Valid(f, zodEmail)
    ensures HasAllClasses(f.password) && HasAllClasses(f.confirmPassword)
  {
  }

  /** Declining the terms always fails the schema. */
  lemma DeclinedTermsRejected(f: SignupFormData, zodEmail: string -> bool)
    requires !f.terms
    ensures !Valid(f, zodEmail)
  {
  }

  /** The schema never compares the two passwords: a form whose confirmation
      differs from its password still passes. */
  lemma DifferentPasswordsAccepted(email: string, zodEmail: string -> bool)
    requires zodEmail(email) && email != ""
    ensures Valid(SignupFormData("Ana", "Paz", email, " Ab1@ x", "Ab1@ xy", true), zodEmail)
  {
    SpacesAreAccepted();
    var s := "Ab1@ xy";
    assert InClass(s[0], Upper) && InClass(s[1], Lower) && InClass(s[2], Digit) && InClass(s[3], Special);
    assert LookaheadAt(s, 0, Upper) && LookaheadAt(s, 0, Lower);
    assert LookaheadAt(s, 0, Digit) && LookaheadAt(s, 0, Special);
    assert MatchAt(s, 0);
  }
}
