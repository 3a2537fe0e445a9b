# Lets Pet authentication: a Dafny model

This project models the authentication core of the Lets Pet web application and
proves properties about it. The core is the back end's account and session
service: sign-up, sign-in, sign-out, refresh-token rotation and the two-step
password reset by e-mail. Around it sit the input rules that guard it:

- the registration DTO's validation constraints;
- the front end's sign-up and login form schemas;
- the route guard middleware;
- the CORS origin check;
- the form-to-DTO field mapping.

Layout, one module per source file or collaborator:

- `common.dfy` (`Common`): `Option` and the user identifier type.
- `crypto.dfy` (`Crypto`): bcrypt, abstracted to an ideal hash. `Hash` is injective, and `Verify(x, d)` holds exactly when `d == Hash(x)`.
- `jwt.dfy` (`Jwt`): signed tokens as records `Token(kind, claims, exp, nonce)`.
  - The kind stands for the secret that signed the token (access, refresh or reset).
  - A token verifies under one secret only, and only before it expires.
  - The nonce makes every issued token distinct.
- `auth_errors.dfy` (`AuthErrors`): the failures, their messages and their HTTP statuses.
- `text.dfy` (`Text`): `toLowerCase` on e-mail addresses.
- `auth_spec.dfy` (`AuthSpec`): each service operation as a pure step. A step maps a user table to the reply, the new table and the collaborator calls made, in order. Lemmas relate several steps:
  - rotation, replay, sign-out and reset revoke sessions;
  - sign-in failures look identical;
  - sign-in is case-sensitive;
  - the reset protocol works as described below.
- `auth_service.dfy` (`AuthServiceModel`): `class AuthService`.
  - It holds the table as a `map` field, plus the id and nonce counters and a ghost log of calls.
  - Each method updates the table in place, keeps the invariant, and is proved equal to its step.
  - Two client methods run the end-to-end flow and a refresh-token replay.
- `password_pattern.dfy` (`PasswordPattern`): the shared password regular expression with JavaScript's unanchored `test` semantics.
- `register_dto.dfy`, `signup_schema.dfy`, `auth_schema.dfy`: the three validation layers as predicates.
- `route_guard.dfy`, `cors.dfy`, `register_adapter.dfy`: the middleware decision, the origin decision and `adaptRegisterData`.

Behaviour of the code worth noting, all of it stated by lemmas:

- `signIn` and `requestResetPassword` look the e-mail up exactly as given. Only `signUp` lower-cases it. So a user who registers with an upper-case letter in the address cannot sign in with the address as typed. `AuthSpec.SignUpThenSignIn` and `AuthSpec.SignInIsCaseSensitive` state this.
- `signIn` does not compare any password when the e-mail is unknown. There is no dummy-hash comparison. `AuthSpec.SignInFailuresIndistinguishable` states this.
- A reset token is not used up by a reset: it works again until it expires (`AuthSpec.ResetTokenReplayable`).
- A missing user in `resetPassword` raises a BadRequest. The surrounding `catch` turns it into the same Unauthorized `Invalid or expired token` as a bad token.

## Model

| member | source | states |
|---|---|---|
| `Crypto.VerifyHash` | backend/src/auth/auth.service.ts:139-140 | a stored digest verifies exactly the plaintext it was made from |
| `Jwt.SignThenVerify` | backend/src/auth/auth.service.ts:200-202 | verification returns the signed claims only under the signing secret and only for `ttl` seconds after issue; otherwise one undifferentiated failure |
| `AuthErrors.Message` | backend/src/auth/constants/auth.errors.ts:3-10 | the body maps each failure to the error table's constant; the contract states that the unknown-e-mail message is the prefix, the address and ` not found.` |
| `AuthErrors.Status` | backend/src/auth/auth.service.ts:87-226 | BadRequest (400) exactly for a password mismatch, an existing user and an unknown reset address; Unauthorized (401) exactly for bad credentials and a bad reset token; Forbidden (403) exactly for a denied refresh; InternalServerError (500) exactly for a failed reset mail |
| `AuthErrors.UserNotFoundNamesEmail` | backend/src/auth/auth.service.ts:167-169 | two unknown-e-mail messages are equal exactly when the addresses are |
| `Text.ToLower` | backend/src/auth/auth.service.ts:64 | same length; each upper-case ASCII letter becomes its lower-case letter and every other character is kept, so no upper-case letter is left |
| `Text.ToLowerEqualIff` | backend/src/auth/auth.service.ts:64 | two addresses lower-case to the same string exactly when they differ only in the case of ASCII letters |
| `Text.ToLowerIdempotent` | backend/src/auth/auth.service.ts:64 | lower-casing twice is lower-casing once |
| `AuthSpec.FindByEmail` | backend/src/auth/auth.service.ts:98 | finds a user exactly when one has that exact e-mail, and returns that user |
| `AuthSpec.GetTokens` | backend/src/auth/auth.service.ts:26-53 | both tokens carry the same `{id, email}`; neither verifies under the other's secret; each is valid from issue for exactly its own lifetime (`expiresIn`); two distinct fresh nonces |
| `AuthSpec.UpdateRtHash` | backend/src/auth/auth.service.ts:148-157 | only the user's refresh digest changes, and it then verifies exactly the given token |
| `AuthSpec.ValidatePasswords` | backend/src/auth/auth.service.ts:124-128 | fails, with `PasswordMismatch`, exactly when the two passwords differ |
| `AuthSpec.SignUpStep` | backend/src/auth/auth.service.ts:58-92 | succeeds exactly when the passwords match and the lower-cased e-mail is free; mismatch fails first with no call made; an existing lower-cased e-mail fails with `UserExists`; any failure leaves the table; success returns the `getTokens` pair for the new id and lower-cased e-mail and adds exactly one user, with the lower-cased e-mail, the profile fields and a password digest of the password, whose session verifies exactly the returned refresh token; no other user changes |
| `AuthSpec.SignInStep` | backend/src/auth/auth.service.ts:94-107 | succeeds exactly when a user has that exact e-mail and the password verifies; every failure is `InvalidCredentials` with the table unchanged; an unknown e-mail makes only the lookup; success returns the `getTokens` pair for that user and replaces only that user's refresh digest |
| `AuthSpec.SignOutStep` | backend/src/auth/auth.service.ts:109-122 | always replies `UserSignedOut`; the user's digest is cleared, nothing else changes, unknown ids included |
| `AuthSpec.RefreshStep` | backend/src/auth/auth.service.ts:130-146 | succeeds exactly when the user exists, has a digest and the token verifies against it; every failure is `AccessDenied` with the table unchanged; success returns a fresh `getTokens` pair for that user and rotates only that user's digest |
| `AuthSpec.ResetMailFor` | backend/src/auth/auth.service.ts:172-188 | the mail goes to the requested address with the fixed subject, greets the user's first name, and links to the front-end URL with a reset-secret token carrying the user's id and the requested e-mail that expires one hour after issue |
| `AuthSpec.RequestResetStep` | backend/src/auth/auth.service.ts:161-195 | never changes the table; an unknown exact e-mail fails with `UserNotFound(email)`; otherwise it signs a reset token, hands the notifier the mail, and succeeds exactly when delivery does, failing with `ResetMailFailed` when it does not |
| `AuthSpec.ResetPasswordStep` | backend/src/auth/auth.service.ts:197-228 | succeeds exactly when the token verifies under the reset secret and its user exists; every failure is `InvalidOrExpiredToken` with the table unchanged; success verifies only the new password, clears the refresh digest and changes no other field or user |
| `AuthSpec.SignUpKeepsInv` | backend/src/auth/auth.service.ts:64-76 | sign-up keeps e-mails unique and lower-case, ids below the counter, digests of issued tokens only |
| `AuthSpec.RotationKeepsInv` | backend/src/auth/auth.service.ts:148-157 | storing a new refresh digest keeps the invariant |
| `AuthSpec.SignInKeepsInv` | backend/src/auth/auth.service.ts:103-104 | sign-in keeps the invariant |
| `AuthSpec.RefreshKeepsInv` | backend/src/auth/auth.service.ts:142-143 | refresh keeps the invariant |
| `AuthSpec.SignOutKeepsInv` | backend/src/auth/auth.service.ts:110-120 | sign-out keeps the invariant |
| `AuthSpec.ResetKeepsInv` | backend/src/auth/auth.service.ts:215-223 | reset keeps the invariant |
| `AuthSpec.RotationRevokesEarlierTokens` | backend/src/auth/auth.service.ts:148-157 | after rotation no token issued earlier verifies against the stored digest |
| `AuthSpec.RefreshIsSingleUse` | backend/src/auth/auth.service.ts:137-144 | a refresh token that has just rotated the session is denied when presented again |
| `AuthSpec.SignInRevokesPreviousSession` | backend/src/auth/auth.service.ts:103-104 | after sign-in, the refresh token of the previous session is denied |
| `AuthSpec.SignOutEndsSession` | backend/src/auth/auth.service.ts:109-122 | sign-out is idempotent, and afterwards every refresh is denied |
| `AuthSpec.SignInFailuresIndistinguishable` | backend/src/auth/auth.service.ts:98-101 | unknown e-mail and wrong password give the same `InvalidCredentials`; a password is compared exactly when the e-mail exists |
| `AuthSpec.SignInIsCaseSensitive` | backend/src/auth/auth.service.ts:95-100 | on any reachable table, an e-mail with an upper-case letter never signs in |
| `AuthSpec.SignUpThenSignIn` | backend/src/auth/auth.service.ts:58-107 | after sign-up the lower-cased address and the password sign in; the address as typed signs in exactly when it was lower-case |
| `AuthSpec.SecondSignUpSameAddressFails` | backend/src/auth/auth.service.ts:84-88 | a second sign-up with the same address, in any ASCII letter case, fails with `UserExists` and adds nobody |
| `AuthSpec.SignUpIssuesValidPair` | backend/src/auth/auth.service.ts:79-82 | a sign-up with matching passwords and a free address succeeds, and both returned tokens verify, each under its own secret, with the new user's id and lower-cased e-mail |
| `AuthSpec.FailureStatuses` | backend/src/auth/auth.service.ts:87-226 | every sign-up failure is 400, every sign-in failure 401, every refresh failure 403 for any user id, an unknown reset address 400, a failed reset mail 500, every reset-completion failure 401 |
| `AuthSpec.ResetMailToken` | backend/src/auth/auth.service.ts:172-182 | the mailed link's token verifies only as a reset token, with the user's id and e-mail, for one hour |
| `AuthSpec.ResetProtocol` | backend/src/auth/auth.service.ts:197-223 | completing with the mailed token succeeds exactly within the hour; then the new password verifies and every refresh is denied |
| `AuthSpec.ResetTokenReplayable` | backend/src/auth/auth.service.ts:199-223 | a reset token that worked once works again at any later time while it is still valid |
| `AuthSpec.UnknownAddressReset` | backend/src/auth/auth.service.ts:163-169 | an unknown address fails with `User with the following email: <email> not found.`, makes only the lookup, and leaves the table |
| `AuthServiceModel.AuthService.constructor` | backend/src/auth/auth.service.ts:19-24 | the service starts valid over an empty store |
| `AuthServiceModel.AuthService.IssueAndStore` | backend/src/auth/auth.service.ts:79-80 | issues the token pair on fresh nonces and stores the refresh digest |
| `AuthServiceModel.AuthService.UpdateRtHash` | backend/src/auth/auth.service.ts:148-157 | the table afterwards is `UpdateRtHash` of the table before; one hash and one update are made |
| `AuthServiceModel.AuthService.SignUp` | backend/src/auth/auth.service.ts:58-92 | keeps the invariant; reply, new table and calls are those of `SignUpStep`; the id counter advances only on success |
| `AuthServiceModel.AuthService.SignIn` | backend/src/auth/auth.service.ts:94-107 | keeps the invariant; reply, new table and calls are those of `SignInStep` |
| `AuthServiceModel.AuthService.SignOut` | backend/src/auth/auth.service.ts:109-122 | keeps the invariant; reply, new table and calls are those of `SignOutStep` |
| `AuthServiceModel.AuthService.RefreshTokens` | backend/src/auth/auth.service.ts:130-146 | keeps the invariant; reply, new table and calls are those of `RefreshStep` |
| `AuthServiceModel.AuthService.RequestResetPassword` | backend/src/auth/auth.service.ts:161-195 | leaves the table; reply and calls are those of `RequestResetStep`; a token nonce is drawn only when the address is found |
| `AuthServiceModel.AuthService.ResetPassword` | backend/src/auth/auth.service.ts:197-228 | keeps the invariant; reply, new table and calls are those of `ResetPasswordStep` |
| `AuthServiceModel.EndToEnd` | backend/src/auth/auth.service.ts:58-146 | sign-up, sign-in, refresh, sign-out, then refresh with the last token: access denied |
| `AuthServiceModel.ReplayDenied` | backend/src/auth/auth.service.ts:137-144 | the first refresh with a token succeeds, the replay is denied |
| `PasswordPattern.Matches` | backend/src/auth/dto/register-user.dto.ts:23 | `passwordRegex.test`, shared by the DTO and both form schemas: some position holds a character of `[A-Za-z\d@$!%*?&]` from which each of the four lookaheads finds its class before the next line terminator |
| `PasswordPattern.MatchesHasAllClasses` | backend/src/auth/dto/register-user.dto.ts:23-25 | an accepted password has a lower-case letter, an upper-case letter, a digit and one of `@$!%*?&` |
| `PasswordPattern.SingleLineMatchesIff` | backend/src/auth/dto/register-user.dto.ts:23 | without line terminators, the pattern accepts exactly the strings holding all four classes |
| `PasswordPattern.SpacesAreAccepted` | backend/src/auth/dto/register-user.dto.ts:23 | unanchored: spaces before, inside and after the match are accepted |
| `PasswordPattern.LineBreakRejected` | frontend/src/schema/signupSchema.ts:3 | a line break between the classes makes the pattern reject a string that holds all four |
| `RegisterDto.Valid` | backend/src/auth/dto/register-user.dto.ts:3-33 | both names strings of 3 or more characters; e-mail a non-empty string passing the format check; password a string of 6 to 16 characters matching the pattern; confirmation a string; terms a boolean |
| `RegisterDto.FromBody` | backend/src/auth/dto/register-user.dto.ts:3-33 | a valid body reads back as a DTO that serialises to the same body |
| `RegisterDto.ValidIff` | backend/src/auth/dto/register-user.dto.ts:3-33 | a DTO passes exactly when both names have 3 or more characters, the e-mail is non-empty and passes the format check, and the password has 6 to 16 characters and matches the pattern |
| `RegisterDto.ValidPasswordHasAllClasses` | backend/src/auth/dto/register-user.dto.ts:19-26 | a valid body's password holds all four classes |
| `RegisterDto.NamesHaveNoUpperBound` | backend/src/auth/dto/register-user.dto.ts:5-13 | every name of 3 or more characters passes |
| `RegisterDto.DeclinedTermsAndMismatchAccepted` | backend/src/auth/dto/register-user.dto.ts:28-32 | declined terms and a confirmation that differs from the password both pass |
| `RegisterDto.WrongTypesRejected` | backend/src/auth/dto/register-user.dto.ts:28-32 | a non-string confirmation or non-boolean terms fail |
| `SignupSchema.Valid` | frontend/src/schema/signupSchema.ts:7-20 | names of 3 to 20 characters, e-mail non-empty and well-formed, both passwords of 6 to 16 characters matching the pattern, terms exactly true |
| `SignupSchema.ValidPasswordsHaveAllClasses` | frontend/src/schema/signupSchema.ts:11-18 | both passwords of a valid form hold a lower-case letter, an upper-case letter, a digit and a special character |
| `SignupSchema.DeclinedTermsRejected` | frontend/src/schema/signupSchema.ts:19 | declined terms always fail |
| `SignupSchema.DifferentPasswordsAccepted` | frontend/src/schema/signupSchema.ts:11-18 | two different valid passwords pass together |
| `AuthSchema.Valid` | frontend/src/schema/authSchema.ts:6-20 | e-mail well-formed and of 5 to 50 characters, password of 6 to 16 characters matching the pattern |
| `AuthSchema.ValidPasswordHasAllClasses` | frontend/src/schema/authSchema.ts:12-19 | the password of a valid login form holds all four classes |
| `AuthSchema.SamePasswordRules` | frontend/src/schema/authSchema.ts:12-19 | the login and sign-up forms accept exactly the same passwords |
| `RouteGuard.Middleware` | frontend/src/middleware.ts:5-25 | redirect to login exactly for a protected path without a token cookie; redirect to the dashboard exactly for the login page with one; otherwise continue |
| `RouteGuard.RedirectsExclusive` | frontend/src/middleware.ts:11-22 | the two redirects never both apply |
| `RouteGuard.NoRedirectLoop` | frontend/src/middleware.ts:14-22 | the target of a redirect is passed through for the same cookie |
| `RouteGuard.ExactPathsOnly` | frontend/src/middleware.ts:11-16 | `/dashboard/pets/`, `/dashboard/pets/1` and `/dashboard/profile` pass without a token |
| `RouteGuard.RedirectMatchesCookie` | frontend/src/middleware.ts:14-22 | a token holder is never sent to login, an anonymous visitor never to the dashboard |
| `Cors.Admit` | backend/src/constants/cors.ts:4-18 | admits exactly an absent or empty origin and the two listed ones; rejects with `Not allowed by CORS` |
| `Cors.ThreeWays` | backend/src/constants/cors.ts:7-17 | no origin is admitted, a listed origin is admitted, any other non-empty origin is rejected |
| `Cors.ExactMatch` | backend/src/constants/cors.ts:5-16 | case and a trailing slash make an origin unlisted |
| `RegisterAdapter.AdaptRegisterData` | frontend/src/api/auth/authService.ts:18-27 | `firstName` is `name`, `passwordConfirmation` is `confirmPassword`, the rest are copied |
| `RegisterAdapter.FormOf` | frontend/src/api/auth/authService.ts:18-27 | the inverse mapping: adapting its result gives the DTO back |
| `RegisterAdapter.AdaptIsInvertible` | frontend/src/api/auth/authService.ts:18-27 | no field is lost: the form is recovered from the DTO |
| `RegisterAdapter.SchemaValidImpliesDtoValid` | frontend/src/api/auth/authService.ts:18-27 | a schema-valid form, adapted and sent as JSON, passes the back end's DTO validation when both e-mail checks accept the address |

## Left out

- The database and every store fault. P2002 is modelled as an e-mail already in the table. Any other failure inside `signUp`'s `try` block, and so the `User creation failed` reply, is not modelled. Store failures in the other operations are not modelled either.
- Concurrency. `Promise.all` in token issue and racing refresh calls are not modelled; every operation is one atomic step.
- Cryptography and clocks:
  - bcrypt salting, cost and one-wayness; its 72-byte input limit is described below.
  - JWT encoding and signing.
  - The time source: `now` is a parameter in seconds.
  - Token lifetimes are configuration parameters; how the library parses `expiresIn` values read from the environment is not modelled.
  - A refresh token's text as it arrives at the service: tokens are values. The refresh route's guard, which checks the signature and the expiry before the service is called, is not part of this model, so `RefreshStep` rotates on any presented token whose digest matches, expired or not.
- bcrypt reads only the first 72 bytes of its input. A signed refresh token's first 72 bytes are the fixed header and the start of the `id` claim, so in the program every refresh token of the same user passes the compare against that user's stored digest. The model's ideal hash has no such limit, so the four revocation results that follow hold of the ideal hash only.
- AuthSpec.RotationRevokesEarlierTokens: true of the ideal hash only; with the 72-byte limit, an earlier refresh token of the same user verifies against the new digest.
- AuthSpec.RefreshIsSingleUse: true of the ideal hash only; with the 72-byte limit, a replayed refresh token is accepted again.
- AuthSpec.SignInRevokesPreviousSession: true of the ideal hash only; with the 72-byte limit, the previous session's refresh token still refreshes.
- AuthServiceModel.ReplayDenied: true of the ideal hash only; with the 72-byte limit, the replay succeeds.
- `resetPassword` hashes `newPassword` with no length check. When the new password is longer than 72 bytes, the clause of AuthSpec.ResetPasswordStep that the new digest verifies exactly the new password holds of the ideal hash only: bcrypt then also accepts every other password with the same first 72 bytes.
- The kind of a token stands for its signing secret, which assumes `SEC_TKN`, `SEC_REF_TKN` and `SEC_RESET_PASSWORD` are set to different values. If two of them are equal, AuthSpec.GetTokens' "neither token verifies under the other's secret" and AuthSpec.ResetMailToken's "for no other purpose" do not hold.
- Two JWTs with identical claims signed in the same second are identical. The model gives every token a fresh nonce, so its single-use rotation does not account for this.
- User ids are natural numbers drawn from a counter; the store's id generator is not part of this model.
- E-mail transport. The notifier is the parameter `send`. The mail body's fixed text is represented by its two variable parts, the first name and the link. The `FRONTEND_DEV_URL` setting is `Config.frontendUrl`.
- Logging, everywhere.
- The text of `USER_EXISTS` and `USER_SIGNED_OUT`: those warning and success tables are not part of this model. `AuthErrors.Message` excludes `UserExists`, and sign-out replies with the value `UserSignedOut`.
- `MISSING_TOKEN` is declared as a constant but no modelled operation raises it.
- The e-mail format checks `IsEmail` and zod's `.email()`. They are the parameters `isEmail` and `zodEmail`.
- Length counting. zod counts UTF-16 code units; class-validator counts code points without variation selectors. The model counts Dafny characters (code points) in both layers.
- RegisterAdapter.SchemaValidImpliesDtoValid: holds only because both layers count length the same way in the model. In the program a first name `😀😀` passes zod's `.min(3)` (4 UTF-16 units) and fails `@MinLength(3)` (2 code points), and the password `Ab1@😀` passes `.min(6)` and fails `@MinLength(6)`.
- `LoginUserDto` and its inheritance through `PartialType`.
- The middleware's `matcher` configuration, which decides whether the middleware runs at all. Whether the framework accepts the relative redirect targets is also not modelled. The log line is left out.
- The network calls `registerUser` and `loginUser`. The rest of the front end and the framework wiring: controllers, modules, strategies, bootstrap.
- Text.ToLower: models ASCII letters only; JavaScript's `toLowerCase` also maps non-ASCII letters.
