/** The constraints of `RegisterUserDto`, checked by the global validation pipe
    on the JSON body of a registration request before the service sees it. */
module RegisterDto {
  import opened PasswordPattern

  /** A JSON field of the request body, as far as the validators tell values apart:
      a string, a boolean, or anything else (number, null, object, absent). */
  datatype Json = JString(s: string) | JBool(b: bool) | JOther

  /** The raw request body. */
  datatype RegisterBody = RegisterBody(
    firstName: Json, lastName: Json, email: Json,
    password: Json, passwordConfirmation: Json, terms: Json)

  /** The typed DTO the service receives once the body has passed validation. */
  datatype RegisterUserDto = RegisterUserDto(
    firstName: string, lastName: string, email: string,
    password: string, passwordConfirmation: string, terms: bool)

  /** `@IsString() @IsNotEmpty() @MinLength(3)`. */
  predicate NameField(v: Json)
  {
    v.JString? && v.s != "" && |v.s| >= 3
  }

  /** `@IsEmail() @IsNotEmpty()`; the format check is the parameter `isEmail`. */
  predicate EmailField(v: Json, isEmail: string -> bool)
  {
    v.JString? && isEmail(v.s) && v.s != ""
  }

  /** `@IsString() @IsNotEmpty() @MinLength(6) @MaxLength(16) @Matches(pattern)`. */
  predicate PasswordField(v: Json)
  {
    v.JString? && v.s != "" && 6 <= |v.s| && |v.s| <= 16 && Matches(v.s)
  }

  /** `@IsString()` alone. */
  predicate ConfirmationField(v: Json)
  {
    v.JString?
  }

  /** `@IsBoolean()` alone. */
  predicate TermsField(v: Json)
  {
    v.JBool?
  }

  predicate Valid(b: RegisterBody, isEmail: string -> bool)
  {
    && NameField(b.firstName)
    && NameField(b.lastName)
    && EmailField(b.email, isEmail)
    && PasswordField(b.password)
    && ConfirmationField(b.passwordConfirmation)
    && TermsField(b.terms)
  }

  /** The JSON body that carries a DTO. */
  function ToBody(d: RegisterUserDto): RegisterBody
  {
    RegisterBody(JString(d.firstName), JString(d.lastName), JString(d.email),
                 JString(d.password), JString(d.passwordConfirmation), JBool(d.terms))
  }

  /** The DTO a valid body becomes; it is the body read back. */
  function FromBody(b: RegisterBody, isEmail: string -> bool): (d: RegisterUserDto)
    requires Valid(b, isEmail)
    ensures ToBody(d) == b
  {
    RegisterUserDto(b.firstName.s, b.lastName.s, b.email.s, b.password.s,
                    b.passwordConfirmation.s, b.terms.b)
  }

  /** What a DTO must satisfy for its body to pass the pipe, field by field. */
  lemma ValidIff(d: RegisterUserDto, isEmail: string -> bool)
    ensures Valid(ToBody(d), isEmail) <==>
      && |d.firstName| >= 3 && |d.lastName| >= 3
      && isEmail(d.email) && d.email != ""
      && 6 <= |d.password| <= 16 && Matches(d.password)
  {
  }

  /** A valid body's password has all four character classes. */
  lemma ValidPasswordHasAllClasses(b: RegisterBody, isEmail: string -> bool)
    requires Valid(b, isEmail)
    ensures HasAllClasses(b.password.s)
  {
  }

  /** A name of any length from three up passes: there is no upper bound. */
  lemma NamesHaveNoUpperBound(s: string)
    requires |s| >= 3
    ensures NameField(JString(s))
  {
  }

  /** The pipe accepts a body that declines the terms and whose confirmation
      differs from the password: neither is a DTO constraint. */
  lemma DeclinedTermsAndMismatchAccepted(email: string, isEmail: string -> bool)
    requires isEmail(email) && email != ""
    ensures Valid(RegisterBody(JString("Ana"), JString("Paz"), JString(email),
                               JString(" Ab1@ x"), JString("other"), JBool(false)), isEmail)
  {
    SpacesAreAccepted();
  }

  /** A confirmation that is not a string, or terms that are not a boolean, are
      refused. */
  lemma WrongTypesRejected(b: RegisterBody, isEmail: string -> bool)
    requires !b.passwordConfirmation.JString? || !b.terms.JBool?
    ensures !Valid(b, isEmail)
  {
  }
}
