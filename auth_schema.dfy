/** The login form schema of the front end (zod). */
module AuthSchema {
  import opened PasswordPattern
  import SignupSchema

  datatype LoginFormData = LoginFormData(email: string, password: string)

  /** `z.string().email().min(5).max(50)`. */
  predicate EmailOk(s: string, zodEmail: string -> bool)
  {
    zodEmail(s) && 5 <= |s| <= 50
  }

  /** `z.string().min(6).max(16).regex(passwordRegex)`. */
  predicate PasswordOk(s: string)
  {
    6 <= |s| && |s| <= 16 && Matches(s)
  }

  predicate Valid(f: LoginFormData, zodEmail: string -> bool)
  {
    EmailOk(f.email, zodEmail) && PasswordOk(f.password)
  }

  /** The password of a valid login form holds all four classes. */
  lemma ValidPasswordHasAllClasses(f: LoginFormData, zodEmail: string -> bool)
    requires Valid(f, zodEmail)
    ensures HasAllClasses(f.password)
  {
  }

  /** The login and sign-up forms accept exactly the same passwords. */
  lemma SamePasswordRules(s: string)
    ensures PasswordOk(s) <==> SignupSchema.PasswordOk(s)
  {
  }
}
