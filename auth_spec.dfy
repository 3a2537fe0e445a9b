/** The account and session state machine of the authentication service, as
    pure functions from a user table to the reply and the new table. The class
    in AuthServiceModel runs these steps in place. */
module AuthSpec {
  import opened Common
  import opened Crypto
  import opened Jwt
  import opened AuthErrors
  import opened Text
  import opened RegisterDto

  /** A stored user. `hashedRt` is the digest of the most recently issued refresh
      token, or `None` when there is no session to rotate. */
  datatype User = User(
    firstName: string, lastName: string, email: string,
    password: Digest<string>, terms: bool,
    hashedRt: Option<Digest<Token>>)

  type Table = map<UserId, User>

  /** Read-only configuration: token lifetimes in seconds and the front-end URL
      that reset links point to. */
  datatype Config = Config(accessTtl: nat, refreshTtl: nat, frontendUrl: string)

  datatype Tokens = Tokens(access: Token, refresh: Token)

  /** The success replies: `USER_SIGNED_OUT`, and the empty reply of the reset calls. */
  datatype Ack = UserSignedOut | Done

  /** The reset link `<frontendUrl>/reset-password?token=<token>`; the token's
      text encoding is left abstract. */
  datatype ResetLink = ResetLink(baseUrl: string, token: Token)

  /** The reset e-mail: recipient, subject, and the greeting name and link its
      fixed text embeds. */
  datatype Mail = ResetMail(to: string, subject: string, firstName: string, link: ResetLink)

  /** "Recupera tu contraseña en Lets Pet" */
  const RESET_SUBJECT: string := "Recupera tu contrase\U{F1}a en Lets Pet"

  /** The reset token's lifetime, `'1h'`. */
  const RESET_TTL: nat := 3600

  /** The collaborator calls an operation makes, in order. */
  datatype Call = FindUser | CreateUser | UpdateUser | HashSecret | CompareSecret
                | SignJwt | VerifyToken | SendMail(mail: Mail)

  /** One operation: its reply, the table after it, and the calls it made. */
  datatype Step<T> = Step(result: Result<T>, table: Table, calls: seq<Call>)

  /** Issuing a pair and storing the refresh digest: two signatures, a hash, an update. */
  const ROTATION: seq<Call> := [SignJwt, SignJwt, HashSecret, UpdateUser]

  // ---------------------------------------------------------------- state invariant

  /** The store's unique constraint on `email`. */
  ghost predicate EmailsUnique(t: Table)
  {
    forall a, b :: a in t && b in t && t[a].email == t[b].email ==> a == b
  }

  predicate EmailTaken(t: Table, email: string)
  {
    exists id :: id in t && t[id].email == email
  }

  /** Every stored refresh digest is of a token issued before nonce `nonce`. */
  ghost predicate SessionsIssuedBefore(t: Table, nonce: nat)
  {
    forall id :: id in t && t[id].hashedRt.Some? ==> t[id].hashedRt.value.preimage.nonce < nonce
  }

  /** What every reachable table satisfies: unique e-mails, stored lower-case
      (only sign-up creates users), identifiers below the next one to hand out,
      and refresh digests only of tokens already issued. */
  ghost predicate Inv(t: Table, nextId: nat, nonce: nat)
  {
    && EmailsUnique(t)
    && (forall id :: id in t ==> id < nextId && IsLowerCase(t[id].email))
    && SessionsIssuedBefore(t, nonce)
  }

  /** The stored digest verifies `rt` and nothing else. */
  ghost predicate SessionIsExactly(u: User, rt: Token)
  {
    u.hashedRt.Some? && forall x :: Verify(x, u.hashedRt.value) <==> x == rt
  }

  /** `t'` is `t` with only user `id`'s refresh digest replaced by one of `rt`. */
  ghost predicate OnlyRtReplaced(t: Table, t': Table, id: UserId, rt: Token)
  {
    && id in t && t'.Keys == t.Keys
    && t'[id].(hashedRt := None) == t[id].(hashedRt := None)
    && SessionIsExactly(t'[id], rt)
    && forall u :: u in t && u != id ==> t'[u] == t[u]
  }

  // ---------------------------------------------------------------- collaborators

  /** `findUnique({ where: { email } })`: exact comparison, no case folding. */
  function FindByEmail(t: Table, email: string): (r: Option<UserId>)
    requires EmailsUnique(t)
    ensures r.Some? <==> EmailTaken(t, email)
    ensures r.Some? ==> r.value in t && t[r.value].email == email
  {
    if exists id :: id in t && t[id].email == email then
      var id :| id in t && t[id].email == email; Some(id)
    else None
  }

  /** `getTokens`: an access and a refresh token with the same `{ id, email }`
      claims, signed with the two different secrets and drawing nonces `nonce`
      and `nonce + 1`. */
  function GetTokens(cfg: Config, id: UserId, email: string, now: nat, nonce: nat): (tk: Tokens)
    ensures tk.access.claims == Claims(id, email) && tk.refresh.claims == Claims(id, email)
    ensures forall at :: VerifyJwt(tk.access, Refresh, at).None? && VerifyJwt(tk.refresh, Access, at).None?
    ensures VerifyJwt(tk.access, Access, now).Some? <==> cfg.accessTtl > 0
    ensures VerifyJwt(tk.refresh, Refresh, now).Some? <==> cfg.refreshTtl > 0
    ensures forall at :: now <= at ==> (VerifyJwt(tk.access, Access, at).Some? <==> at < now + cfg.accessTtl)
    ensures forall at :: now <= at ==> (VerifyJwt(tk.refresh, Refresh, at).Some? <==> at < now + cfg.refreshTtl)
    ensures nonce <= tk.access.nonce < nonce + 2 && nonce <= tk.refresh.nonce < nonce + 2
    ensures tk.access != tk.refresh
  {
    Tokens(Sign(Access, Claims(id, email), now, cfg.accessTtl, nonce),
           Sign(Refresh, Claims(id, email), now, cfg.refreshTtl, nonce + 1))
  }

  /** `updateRtHash`: store the digest of `rt` on user `id`. */
  function UpdateRtHash(t: Table, id: UserId, rt: Token): (t': Table)
    requires id in t
    ensures OnlyRtReplaced(t, t', id, rt)
  {
    t[id := t[id].(hashedRt := Some(Hash(rt)))]
  }

  /** `validatePasswords`: the only check that relates the two passwords. */
  function ValidatePasswords(dto: RegisterUserDto): (r: Option<AuthError>)
    ensures r.None? <==> dto.password == dto.passwordConfirmation
    ensures r.Some? ==> r.value == PasswordMismatch
  {
    if dto.password != dto.passwordConfirmation then Some(PasswordMismatch) else None
  }

  // ---------------------------------------------------------------- operations

  /** `signUp`, creating the user under the fresh identifier `id`. */
  function SignUpStep(t: Table, cfg: Config, dto: RegisterUserDto, id: UserId, now: nat, nonce: nat): (s: Step<Tokens>)
    requires id !in t
    ensures s.result.Err? ==> s.table == t
    ensures s.result == Err(PasswordMismatch) <==> dto.password != dto.passwordConfirmation
    ensures s.result == Err(PasswordMismatch) ==> s.calls == []
    ensures s.result == Err(UserExists) <==>
              dto.password == dto.passwordConfirmation && EmailTaken(t, ToLower(dto.email))
    ensures s.result.Ok? <==>
              dto.password == dto.passwordConfirmation && !EmailTaken(t, ToLower(dto.email))
    ensures s.result.Ok? ==>
              && s.table.Keys == t.Keys + {id}
              && (forall u :: u in t ==> s.table[u] == t[u])
              && s.table[id].email == ToLower(dto.email)
              && s.table[id].firstName == dto.firstName && s.table[id].lastName == dto.lastName
              && s.table[id].terms == dto.terms
              && (forall p :: Verify(p, s.table[id].password) <==> p == dto.password)
              && SessionIsExactly(s.table[id], s.result.value.refresh)
              && s.result.value == GetTokens(cfg, id, ToLower(dto.email), now, nonce)
  {
    match ValidatePasswords(dto)
    case Some(e) => Step(Err(e), t, [])
    case None =>
      var hashed := Hash(dto.password);
      var email := ToLower(dto.email);
      if EmailTaken(t, email) then Step(Err(UserExists), t, [HashSecret, CreateUser])
      else
        var created := t[id := User(dto.firstName, dto.lastName, email, hashed, dto.terms, None)];
        var tokens := GetTokens(cfg, id, email, now, nonce);
        Step(Ok(tokens), UpdateRtHash(created, id, tokens.refresh), [HashSecret, CreateUser] + ROTATION)
  }

  /** `signIn`: exact e-mail lookup, then the password check. */
  function SignInStep(t: Table, cfg: Config, email: string, password: string, now: nat, nonce: nat): (s: Step<Tokens>)
    requires EmailsUnique(t)
    ensures s.result.Err? ==> s.result.error == InvalidCredentials && s.table == t
    ensures s.result.Ok? <==>
              exists id :: id in t && t[id].email == email && Verify(password, t[id].password)
    ensures !EmailTaken(t, email) ==> s.calls == [FindUser]
    ensures s.result.Ok? ==>
              var id := FindByEmail(t, email).value;
              OnlyRtReplaced(t, s.table, id, s.result.value.refresh)
              && s.result.value == GetTokens(cfg, id, email, now, nonce)
  {
    match FindByEmail(t, email)
    case None => Step(Err(InvalidCredentials), t, [FindUser])
    case Some(id) =>
      if !Verify(password, t[id].password) then Step(Err(InvalidCredentials), t, [FindUser, CompareSecret])
      else
        var tokens := GetTokens(cfg, id, t[id].email, now, nonce);
        Step(Ok(tokens), UpdateRtHash(t, id, tokens.refresh), [FindUser, CompareSecret] + ROTATION)
  }

  /** `signOut`: `updateMany` clearing the digest where it is set. */
  function SignOutStep(t: Table, id: UserId): (s: Step<Ack>)
    ensures s.result == Ok(UserSignedOut) && s.calls == [UpdateUser]
    ensures s.table.Keys == t.Keys
    ensures id in t ==> s.table[id] == t[id].(hashedRt := None)
    ensures forall u :: u in t && u != id ==> s.table[u] == t[u]
  {
    var t' := if id in t && t[id].hashedRt.Some? then t[id := t[id].(hashedRt := None)] else t;
    Step(Ok(UserSignedOut), t', [UpdateUser])
  }

  /** `refreshTokens`: the presented token must match the stored digest; the pair
      is rotated. */
  function RefreshStep(t: Table, cfg: Config, id: UserId, rt: Token, now: nat, nonce: nat): (s: Step<Tokens>)
    ensures s.result.Err? ==> s.result.error == AccessDenied && s.table == t
    ensures s.result.Ok? <==> id in t && t[id].hashedRt.Some? && Verify(rt, t[id].hashedRt.value)
    ensures s.result.Ok? ==>
              OnlyRtReplaced(t, s.table, id, s.result.value.refresh)
              && s.result.value == GetTokens(cfg, id, t[id].email, now, nonce)
  {
    if id !in t || t[id].hashedRt.None? then Step(Err(AccessDenied), t, [FindUser])
    else if !Verify(rt, t[id].hashedRt.value) then Step(Err(AccessDenied), t, [FindUser, CompareSecret])
    else
      var tokens := GetTokens(cfg, id, t[id].email, now, nonce);
      Step(Ok(tokens), UpdateRtHash(t, id, tokens.refresh), [FindUser, CompareSecret] + ROTATION)
  }

  /** The mail `requestResetPassword` hands to the notifier for user `id`. */
  function ResetMailFor(t: Table, cfg: Config, id: UserId, email: string, now: nat, nonce: nat): (m: Mail)
    requires id in t
    ensures m.to == email && m.subject == RESET_SUBJECT && m.firstName == t[id].firstName
    ensures m.link.baseUrl == cfg.frontendUrl
    ensures m.link.token.kind == Reset && m.link.token.claims == Claims(id, email)
    ensures m.link.token.exp == now + RESET_TTL
  {
    var token := Sign(Reset, Claims(id, email), now, RESET_TTL, nonce);
    ResetMail(email, RESET_SUBJECT, t[id].firstName, ResetLink(cfg.frontendUrl, token))
  }

  /** `requestResetPassword`; `send` is the notifier, true when delivery succeeds. */
  function RequestResetStep(t: Table, cfg: Config, email: string, now: nat, nonce: nat, send: Mail -> bool): (s: Step<Ack>)
    requires EmailsUnique(t)
    ensures s.table == t
    ensures s.result == Err(UserNotFound(email)) <==> !EmailTaken(t, email)
    ensures s.result.Ok? || s.result.error in {UserNotFound(email), ResetMailFailed}
    ensures EmailTaken(t, email) ==>
              var mail := ResetMailFor(t, cfg, FindByEmail(t, email).value, email, now, nonce);
              s.calls == [FindUser, SignJwt, SendMail(mail)] && (s.result.Ok? <==> send(mail))
  {
    match FindByEmail(t, email)
    case None => Step(Err(UserNotFound(email)), t, [FindUser])
    case Some(id) =>
      var mail := ResetMailFor(t, cfg, id, email, now, nonce);
      if send(mail) then Step(Ok(Done), t, [FindUser, SignJwt, SendMail(mail)])
      else Step(Err(ResetMailFailed), t, [FindUser, SignJwt, SendMail(mail)])
  }

  /** `resetPassword`: any failure is the one `INVALID_OR_EXPIRED_TOKEN`. */
  function ResetPasswordStep(t: Table, token: Token, newPassword: string, now: nat): (s: Step<Ack>)
    ensures s.result.Err? ==> s.result.error == InvalidOrExpiredToken && s.table == t
    ensures s.result.Ok? <==> VerifyJwt(token, Reset, now).Some? && token.claims.id in t
    ensures s.result.Ok? ==>
              var id := token.claims.id;
              && s.table.Keys == t.Keys
              && s.table[id].hashedRt.None?
              && (forall p :: Verify(p, s.table[id].password) <==> p == newPassword)
              && s.table[id].(password := t[id].password, hashedRt := t[id].hashedRt) == t[id]
              && forall u :: u in t && u != id ==> s.table[u] == t[u]
  {
    match VerifyJwt(token, Reset, now)
    case None => Step(Err(InvalidOrExpiredToken), t, [VerifyToken])
    case Some(claims) =>
      if claims.id !in t then Step(Err(InvalidOrExpiredToken), t, [VerifyToken, FindUser])
      else
        var u := t[claims.id];
        Step(Ok(Done), t[claims.id := u.(password := Hash(newPassword), hashedRt := None)],
             [VerifyToken, FindUser, HashSecret, UpdateUser])
  }

  // ---------------------------------------------------------------- invariant preservation

  lemma SignUpKeepsInv(t: Table, cfg: Config, dto: RegisterUserDto, nextId: nat, now: nat, nonce: nat)
    requires Inv(t, nextId, nonce)
    ensures nextId !in t
    ensures var s := SignUpStep(t, cfg, dto, nextId, now, nonce);
            Inv(s.table, if s.result.Ok? then nextId + 1 else nextId, if s.result.Ok? then nonce + 2 else nonce)
  {
  }

  lemma RotationKeepsInv(t: Table, t': Table, id: UserId, rt: Token, nextId: nat, nonce: nat)
    requires Inv(t, nextId, nonce) && OnlyRtReplaced(t, t', id, rt) && rt.nonce < nonce + 2
    ensures Inv(t', nextId, nonce + 2)
  {
    forall a, b | a in t' && b in t' && t'[a].email == t'[b].email ensures a == b {
      assert t'[a].email == t[a].email && t'[b].email == t[b].email by {
        assert t'[id].(hashedRt := None).email == t[id].(hashedRt := None).email;
      }
    }
    forall u | u in t' ensures u < nextId && IsLowerCase(t'[u].email) {
      assert t'[u].email == t[u].email by {
        assert t'[id].(hashedRt := None).email == t[id].(hashedRt := None).email;
      }
    }
    assert Verify(rt, t'[id].hashedRt.value);
  }

  lemma SignInKeepsInv(t: Table, cfg: Config, email: string, password: string, nextId: nat, now: nat, nonce: nat)
    requires Inv(t, nextId, nonce)
    ensures var s := SignInStep(t, cfg, email, password, now, nonce);
            Inv(s.table, nextId, if s.result.Ok? then nonce + 2 else nonce)
  {
  }

  lemma RefreshKeepsInv(t: Table, cfg: Config, id: UserId, rt: Token, nextId: nat, now: nat, nonce: nat)
    requires Inv(t, nextId, nonce)
    ensures var s := RefreshStep(t, cfg, id, rt, now, nonce);
            Inv(s.table, nextId, if s.result.Ok? then nonce + 2 else nonce)
  {
  }

  lemma SignOutKeepsInv(t: Table, id: UserId, nextId: nat, nonce: nat)
    requires Inv(t, nextId, nonce)
    ensures Inv(SignOutStep(t, id).table, nextId, nonce)
  {
  }

  lemma ResetKeepsInv(t: Table, token: Token, newPassword: string, nextId: nat, now: nat, nonce: nat)
    requires Inv(t, nextId, nonce)
    ensures Inv(ResetPasswordStep(t, token, newPassword, now).table, nextId, nonce)
  {
  }

  // ---------------------------------------------------------------- session properties

  /** A successful sign-in, refresh or sign-up stores a digest that accepts none of
      the tokens issued before it: every earlier refresh token is revoked. */
  lemma RotationRevokesEarlierTokens(t: Table, t': Table, id: UserId, rt: Token, nonce: nat, old_rt: Token)
    requires OnlyRtReplaced(t, t', id, rt) && rt.nonce >= nonce && old_rt.nonce < nonce
    ensures !Verify(old_rt, t'[id].hashedRt.value)
  {
  }

  /** Refresh tokens are single-use: once a refresh succeeds, presenting the same
      token again is denied. */
  lemma RefreshIsSingleUse(t: Table, cfg: Config, id: UserId, rt: Token, nextId: nat, now: nat, later: nat, nonce: nat)
    requires Inv(t, nextId, nonce)
    requires RefreshStep(t, cfg, id, rt, now, nonce).result.Ok?
    ensures var t' := RefreshStep(t, cfg, id, rt, now, nonce).table;
            RefreshStep(t', cfg, id, rt, later, nonce + 2).result == Err(AccessDenied)
  {
  }

  /** After a successful sign-in, the token that the previous session could refresh
      with is no longer accepted. */
  lemma SignInRevokesPreviousSession(t: Table, cfg: Config, email: string, password: string, nextId: nat, now: nat, nonce: nat, old_rt: Token, later: nat)
    requires Inv(t, nextId, nonce)
    requires SignInStep(t, cfg, email, password, now, nonce).result.Ok?
    requires var id := FindByEmail(t, email).value; t[id].hashedRt == Some(Hash(old_rt))
    ensures var id := FindByEmail(t, email).value;
            var t' := SignInStep(t, cfg, email, password, now, nonce).table;
            RefreshStep(t', cfg, id, old_rt, later, nonce + 2).result == Err(AccessDenied)
  {
  }

  /** Signing out is idempotent, and afterwards no token refreshes the session. */
  lemma SignOutEndsSession(t: Table, cfg: Config, id: UserId, rt: Token, now: nat, nonce: nat)
    ensures var t' := SignOutStep(t, id).table;
            && SignOutStep(t', id).table == t'
            && RefreshStep(t', cfg, id, rt, now, nonce).result == Err(AccessDenied)
  {
  }

  /** Unknown e-mail and wrong password give the same reply, and the password of
      an unknown e-mail is never compared. */
  lemma SignInFailuresIndistinguishable(t: Table, cfg: Config, email: string, password: string, now: nat, nonce: nat)
    requires EmailsUnique(t)
    requires !EmailTaken(t, email) ||
             (exists id :: id in t && t[id].email == email && !Verify(password, t[id].password))
    ensures SignInStep(t, cfg, email, password, now, nonce).result == Err(InvalidCredentials)
    ensures CompareSecret in SignInStep(t, cfg, email, password, now, nonce).calls <==> EmailTaken(t, email)
  {
  }

  /** Sign-in compares the e-mail exactly while sign-up stores it lower-cased: an
      address with an upper-case letter never signs in. */
  lemma SignInIsCaseSensitive(t: Table, cfg: Config, email: string, password: string, nextId: nat, now: nat, nonce: nat)
    requires Inv(t, nextId, nonce)
    requires !IsLowerCase(email)
    ensures SignInStep(t, cfg, email, password, now, nonce).result == Err(InvalidCredentials)
  {
  }

  /** After signing up, the user signs in with the lower-cased address and the same
      password; with the address as typed, only if it was already lower-case. */
  lemma SignUpThenSignIn(t: Table, cfg: Config, dto: RegisterUserDto, nextId: nat, now: nat, later: nat, nonce: nat)
    requires Inv(t, nextId, nonce)
    requires SignUpStep(t, cfg, dto, nextId, now, nonce).result.Ok?
    ensures var t' := SignUpStep(t, cfg, dto, nextId, now, nonce).table;
            && SignInStep(t', cfg, ToLower(dto.email), dto.password, later, nonce + 2).result.Ok?
            && (SignInStep(t', cfg, dto.email, dto.password, later, nonce + 2).result.Ok? <==> IsLowerCase(dto.email))
  {
  }

  /** Two sign-ups whose addresses differ only in case: the second one is refused
      as an existing user and adds nobody. */
  lemma SecondSignUpSameAddressFails(t: Table, cfg: Config, dto1: RegisterUserDto, dto2: RegisterUserDto, nextId: nat, now: nat, nonce: nat)
    requires Inv(t, nextId, nonce)
    requires SignUpStep(t, cfg, dto1, nextId, now, nonce).result.Ok?
    requires SameIgnoringCase(dto1.email, dto2.email) && dto2.password == dto2.passwordConfirmation
    ensures var t' := SignUpStep(t, cfg, dto1, nextId, now, nonce).table;
            var s := SignUpStep(t', cfg, dto2, nextId + 1, now, nonce + 2);
            s.result == Err(UserExists) && s.table == t'
  {
    ToLowerEqualIff(dto1.email, dto2.email);
  }

  /** A sign-up with matching passwords and a free address returns a pair whose
      access and refresh tokens both verify, under their own secrets, with the new
      user's id and lower-cased e-mail. */
  lemma SignUpIssuesValidPair(t: Table, cfg: Config, dto: RegisterUserDto, id: UserId, now: nat, nonce: nat)
    requires id !in t && cfg.accessTtl > 0 && cfg.refreshTtl > 0
    requires dto.password == dto.passwordConfirmation && !EmailTaken(t, ToLower(dto.email))
    ensures var s := SignUpStep(t, cfg, dto, id, now, nonce);
            && s.result.Ok?
            && VerifyJwt(s.result.value.access, Access, now) == Some(Claims(id, ToLower(dto.email)))
            && VerifyJwt(s.result.value.refresh, Refresh, now) == Some(Claims(id, ToLower(dto.email)))
  {
  }

  /** The HTTP status each operation fails with: sign-up 400, sign-in 401, refresh
      403, an unknown reset address 400, a failed reset mail 500, and reset
      completion 401. */
  lemma FailureStatuses(t: Table, cfg: Config, dto: RegisterUserDto, id: UserId, uid: UserId, email: string, password: string,
                        rt: Token, token: Token, newPassword: string, now: nat, nonce: nat, send: Mail -> bool)
    requires EmailsUnique(t) && id !in t
    ensures var r := SignUpStep(t, cfg, dto, id, now, nonce).result; r.Err? ==> Status(r.error) == 400
    ensures var r := SignInStep(t, cfg, email, password, now, nonce).result; r.Err? ==> Status(r.error) == 401
    ensures var r := RefreshStep(t, cfg, uid, rt, now, nonce).result; r.Err? ==> Status(r.error) == 403
    ensures var r := RequestResetStep(t, cfg, email, now, nonce, send).result;
            r.Err? ==> Status(r.error) == (if EmailTaken(t, email) then 500 else 400)
    ensures var r := ResetPasswordStep(t, token, newPassword, now).result; r.Err? ==> Status(r.error) == 401
  {
  }

  // ---------------------------------------------------------------- password reset

  /** The mailed link carries a reset token for the user that is valid for the next
      hour and for no other purpose. */
  lemma ResetMailToken(t: Table, cfg: Config, id: UserId, email: string, now: nat, nonce: nat, k: Kind, at: nat)
    requires id in t && now <= at
    ensures var token := ResetMailFor(t, cfg, id, email, now, nonce).link.token;
            VerifyJwt(token, k, at) == if k == Reset && at < now + RESET_TTL then Some(Claims(id, email)) else None
  {
  }

  /** The protocol: a reset requested now and completed with the mailed token
      within the hour replaces the password and ends every session; an hour or
      more later it is refused. */
  lemma ResetProtocol(t: Table, cfg: Config, email: string, now: nat, nonce: nat, at: nat, newPassword: string, rt: Token)
    requires EmailsUnique(t) && EmailTaken(t, email) && now <= at
    ensures var id := FindByEmail(t, email).value;
            var token := ResetMailFor(t, cfg, id, email, now, nonce).link.token;
            var s := ResetPasswordStep(t, token, newPassword, at);
            && (s.result.Ok? <==> at < now + RESET_TTL)
            && (s.result.Ok? ==> RefreshStep(s.table, cfg, id, rt, at, nonce + 1).result == Err(AccessDenied))
            && (s.result.Ok? ==> Verify(newPassword, s.table[id].password))
  {
  }

  /** A reset token is not used up: at any later time at which it is still valid,
      it resets the password again. */
  lemma ResetTokenReplayable(t: Table, token: Token, p1: string, p2: string, now: nat, later: nat)
    requires ResetPasswordStep(t, token, p1, now).result.Ok?
    requires VerifyJwt(token, Reset, later).Some?
    ensures ResetPasswordStep(ResetPasswordStep(t, token, p1, now).table, token, p2, later).result.Ok?
  {
  }

  /** Requesting a reset for an unknown address fails with a message naming it,
      makes no other call, and never changes the table. */
  lemma UnknownAddressReset(t: Table, cfg: Config, email: string, now: nat, nonce: nat, send: Mail -> bool)
    requires EmailsUnique(t) && !EmailTaken(t, email)
    ensures var s := RequestResetStep(t, cfg, email, now, nonce, send);
            && s.result == Err(UserNotFound(email))
            && Message(s.result.error) == "User with the following email: " + email + " not found."
            && s.calls == [FindUser] && s.table == t
  {
  }
}
