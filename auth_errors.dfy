/** The failures the authentication service reports, with their messages and
    the HTTP status of the exception that carries each one. */
module AuthErrors {

  datatype AuthError =
    | PasswordMismatch
    | UserExists
    | InvalidCredentials
    | AccessDenied
    | UserNotFound(email: string)
    | InvalidOrExpiredToken
    | ResetMailFailed

  datatype Result<+T> = Ok(value: T) | Err(error: AuthError)

  /** The constants of the error table. */
  const PASSWORD_MISMATCH: string := "Passwords do not match"
  const INVALID_CREDENTIALS: string := "Invalid credentials"
  const ACCESS_DENIED: string := "Access Denied"
  const USER_NOT_FOUND: string := "User with the following email: "
  const MISSING_TOKEN: string := "Missing token"
  const INVALID_OR_EXPIRED_TOKEN: string := "Invalid or expired token"
  /** "Error al enviar el correo de recuperación." */
  const RESET_MAIL_FAILED: string := "Error al enviar el correo de recuperaci\U{F3}n."

  /** The message a caller sees. The text for `UserExists` lives in a warning
      table that is not part of this model. */
  function Message(e: AuthError): (m: string)
    requires !e.UserExists?
    ensures e.UserNotFound? ==> m == USER_NOT_FOUND + e.email + " not found."
  {
    match e
    case PasswordMismatch => PASSWORD_MISMATCH
    case InvalidCredentials => INVALID_CREDENTIALS
    case AccessDenied => ACCESS_DENIED
    case UserNotFound(email) => USER_NOT_FOUND + email + " not found."
    case InvalidOrExpiredToken => INVALID_OR_EXPIRED_TOKEN
    case ResetMailFailed => RESET_MAIL_FAILED
  }

  /** The status of the exception each failure is thrown in: BadRequest (400),
      Unauthorized (401), Forbidden (403), InternalServerError (500). */
  function Status(e: AuthError): (code: nat)
    ensures code == 400 <==> e.PasswordMismatch? || e.UserExists? || e.UserNotFound?
    ensures code == 401 <==> e == InvalidCredentials || e == InvalidOrExpiredToken
    ensures code == 403 <==> e == AccessDenied
    ensures code == 500 <==> e == ResetMailFailed
  {
    match e
    case PasswordMismatch => 400
    case UserExists => 400
    case InvalidCredentials => 401
    case AccessDenied => 403
    case UserNotFound(_) => 400
    case InvalidOrExpiredToken => 401
    case ResetMailFailed => 500
  }

  /** The unknown-email message names the address that was asked for, and two
      different addresses give two different messages. */
  lemma UserNotFoundNamesEmail(a: string, b: string)
    ensures Message(UserNotFound(a)) == Message(UserNotFound(b)) <==> a == b
  {
    var pre := USER_NOT_FOUND;
    var post := " not found.";
    if Message(UserNotFound(a)) == Message(UserNotFound(b)) {
      var ma, mb := pre + a + post, pre + b + post;
      assert |a| == |b|;
      forall i | 0 <= i < |a| ensures a[i] == b[i] {
        assert ma[|pre| + i] == a[i];
        assert mb[|pre| + i] == b[i];
      }
    }
  }
}
