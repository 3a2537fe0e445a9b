/** The front end's mapping from the sign-up form to the registration DTO. */
module RegisterAdapter {
  import opened SignupSchema
  import opened RegisterDto

  /** `adaptRegisterData`: `name` becomes `firstName`, `confirmPassword` becomes
      `passwordConfirmation`, and the other fields are copied. */
  function AdaptRegisterData(f: SignupFormData): (d: RegisterUserDto)
    ensures d.firstName == f.name && d.passwordConfirmation == f.confirmPassword
    ensures d.lastName == f.lastName && d.email == f.email
    ensures d.password == f.password && d.terms == f.terms
  {
    RegisterUserDto(f.name, f.lastName, f.email, f.password, f.confirmPassword, f.terms)
  }

  /** The inverse renaming. */
  function FormOf(d: RegisterUserDto): (f: SignupFormData)
    ensures AdaptRegisterData(f) == d
  {
    SignupFormData(d.firstName, d.lastName, d.email, d.password, d.passwordConfirmation, d.terms)
  }

  /** No field is lost: the form can be read back from the DTO. */
  lemma AdaptIsInvertible(f: SignupFormData)
    ensures FormOf(AdaptRegisterData(f)) == f
  {
  }

  /** A form that passes the front-end schema yields a body the back end's
      validation accepts, provided the back end's e-mail check accepts the
      address too. */
  lemma SchemaValidImpliesDtoValid(f: SignupFormData, zodEmail: string -> bool, isEmail: string -> bool)
    requires SignupSchema.Valid(f, zodEmail)
    requires isEmail(f.email)
    ensures RegisterDto.Valid(ToBody(AdaptRegisterData(f)), isEmail)
  {
  }
}
