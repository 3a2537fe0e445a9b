/** The authentication service as an object over the user table it updates in
    place. Each method is proved to do what the matching step of AuthSpec says. */
module AuthServiceModel {
  import opened Common
  import opened Crypto
  import opened Jwt
  import opened AuthErrors
  import opened Text
  import opened RegisterDto
  import opened AuthSpec

  class AuthService {
    const config: Config
    /** The store's user records. */
    var users: Table
    /** The identifier the store hands to the next user it creates. */
    var nextId: nat
    /** The nonce the signer gives the next token it issues. */
    var nextNonce: nat
    /** The collaborator calls made so far. */
    ghost var log: seq<Call>

    ghost predicate Valid()
      reads this
    {
      Inv(users, nextId, nextNonce)
    }

    constructor (config: Config)
      ensures Valid() && this.config == config
      ensures users == map[] && log == []
    {
      this.config := config;
      users := map[];
      nextId := 0;
      nextNonce := 0;
      log := [];
    }

    /** `getTokens` followed by `updateRtHash`, drawing two fresh nonces. */
    method IssueAndStore(id: UserId, email: string, now: nat) returns (tokens: Tokens)
      requires id in users
      modifies this`users, this`nextNonce, this`log
      ensures tokens == GetTokens(config, id, email, now, old(nextNonce))
      ensures nextNonce == old(nextNonce) + 2
      ensures users == AuthSpec.UpdateRtHash(old(users), id, tokens.refresh)
      ensures log == old(log) + ROTATION
    {
      tokens := GetTokens(config, id, email, now, nextNonce);
      nextNonce := nextNonce + 2;
      log := log + [SignJwt, SignJwt];
      UpdateRtHash(id, tokens.refresh);
    }

    /** `updateRtHash`. */
    method UpdateRtHash(id: UserId, rt: Token)
      requires id in users
      modifies this`users, this`log
      ensures users == AuthSpec.UpdateRtHash(old(users), id, rt)
      ensures log == old(log) + [HashSecret, UpdateUser]
    {
      var hash := Hash(rt);
      log := log + [HashSecret];
      users := users[id := users[id].(hashedRt := Some(hash))];
      log := log + [UpdateUser];
    }

    method SignUp(dto: RegisterUserDto, now: nat) returns (r: Result<Tokens>)
      requires Valid()
      modifies this
      ensures Valid()
      ensures var s := SignUpStep(old(users), config, dto, old(nextId), now, old(nextNonce));
              r == s.result && users == s.table && log == old(log) + s.calls
      ensures nextId == if r.Ok? then old(nextId) + 1 else old(nextId)
      ensures nextNonce == if r.Ok? then old(nextNonce) + 2 else old(nextNonce)
    {
      SignUpKeepsInv(users, config, dto, nextId, now, nextNonce);
      var mismatch := ValidatePasswords(dto);
      if mismatch.Some? {
        return Err(mismatch.value);
      }
      var hashedPassword := Hash(dto.password);
      log := log + [HashSecret];
      var email := ToLower(dto.email);
      log := log + [CreateUser];
      if exists u :: u in users && users[u].email == email {
        return Err(UserExists);
      }
      var id := nextId;
      nextId := nextId + 1;
      users := users[id := User(dto.firstName, dto.lastName, email, hashedPassword, dto.terms, None)];
      var tokens := IssueAndStore(id, email, now);
      r := Ok(tokens);
    }

    method SignIn(email: string, password: string, now: nat) returns (r: Result<Tokens>)
      requires Valid()
      modifies this
      ensures Valid()
      ensures var s := SignInStep(old(users), config, email, password, now, old(nextNonce));
              r == s.result && users == s.table && log == old(log) + s.calls
      ensures nextId == old(nextId)
      ensures nextNonce == if r.Ok? then old(nextNonce) + 2 else old(nextNonce)
    {
      SignInKeepsInv(users, config, email, password, nextId, now, nextNonce);
      var found := FindByEmail(users, email);
      log := log + [FindUser];
      if found.None? {
        return Err(InvalidCredentials);
      }
      var id := found.value;
      var matches := Verify(password, users[id].password);
      log := log + [CompareSecret];
      if !matches {
        return Err(InvalidCredentials);
      }
      var tokens := IssueAndStore(id, users[id].email, now);
      r := Ok(tokens);
    }

    method SignOut(id: UserId) returns (r: Result<Ack>)
      requires Valid()
      modifies this`users, this`log
      ensures Valid()
      ensures var s := SignOutStep(old(users), id);
              r == s.result && users == s.table && log == old(log) + s.calls
    {
      SignOutKeepsInv(users, id, nextId, nextNonce);
      if id in users && users[id].hashedRt.Some? {
        users := users[id := users[id].(hashedRt := None)];
      }
      log := log + [UpdateUser];
      r := Ok(UserSignedOut);
    }

    method RefreshTokens(id: UserId, rt: Token, now: nat) returns (r: Result<Tokens>)
      requires Valid()
      modifies this
      ensures Valid()
      ensures var s := RefreshStep(old(users), config, id, rt, now, old(nextNonce));
              r == s.result && users == s.table && log == old(log) + s.calls
      ensures nextId == old(nextId)
      ensures nextNonce == if r.Ok? then old(nextNonce) + 2 else old(nextNonce)
    {
      RefreshKeepsInv(users, config, id, rt, nextId, now, nextNonce);
      log := log + [FindUser];
      if id !in users || users[id].hashedRt.None? {
        return Err(AccessDenied);
      }
      var rtMatches := Verify(rt, users[id].hashedRt.value);
      log := log + [CompareSecret];
      if !rtMatches {
        return Err(AccessDenied);
      }
      var tokens := IssueAndStore(id, users[id].email, now);
      r := Ok(tokens);
    }

    /** `requestResetPassword`; `send` is the notifier. The reset token takes a
        fresh nonce and the table is never touched. */
    method RequestResetPassword(email: string, now: nat, send: Mail -> bool) returns (r: Result<Ack>)
      requires Valid()
      modifies this`nextNonce, this`log
      ensures Valid()
      ensures var s := RequestResetStep(users, config, email, now, old(nextNonce), send);
              r == s.result && log == old(log) + s.calls
      ensures nextNonce == old(nextNonce) + (if EmailTaken(users, email) then 1 else 0)
    {
      var found := FindByEmail(users, email);
      log := log + [FindUser];
      if found.None? {
        return Err(UserNotFound(email));
      }
      var resetToken := Sign(Reset, Claims(found.value, email), now, RESET_TTL, nextNonce);
      nextNonce := nextNonce + 1;
      log := log + [SignJwt];
      var mail := ResetMail(email, RESET_SUBJECT, users[found.value].firstName,
                            ResetLink(config.frontendUrl, resetToken));
      var delivered := send(mail);
      log := log + [SendMail(mail)];
      if !delivered {
        return Err(ResetMailFailed);
      }
      r := Ok(Done);
    }

    method ResetPassword(token: Token, newPassword: string, now: nat) returns (r: Result<Ack>)
      requires Valid()
      modifies this`users, this`log
      ensures Valid()
      ensures var s := ResetPasswordStep(old(users), token, newPassword, now);
              r == s.result && users == s.table && log == old(log) + s.calls
    {
      ResetKeepsInv(users, token, newPassword, nextId, now, nextNonce);
      var payload := VerifyJwt(token, Reset, now);
      log := log + [VerifyToken];
      if payload.None? {
        return Err(InvalidOrExpiredToken);
      }
      var id := payload.value.id;
      log := log + [FindUser];
      if id !in users {
        return Err(InvalidOrExpiredToken);
      }
      var hashedPassword := Hash(newPassword);
      log := log + [HashSecret];
      users := users[id := users[id].(password := hashedPassword, hashedRt := None)];
      log := log + [UpdateUser];
      r := Ok(Done);
    }
  }

  /** Sign up, log in, refresh, log out, then refresh again with the token the
      last refresh returned: the session is gone and access is denied. */
  method EndToEnd(now: nat) returns (r: Result<Tokens>)
    ensures r == Err(AccessDenied)
  {
    var service := new AuthService(Config(900, 604800, "http://localhost:3000"));
    var dto := RegisterUserDto("Ana", "Paz", "a@x.com", "Abc12345!", "Abc12345!", true);
    ToLowerFixesLowerCase("a@x.com");
    var id := service.nextId;
    var signedUp := service.SignUp(dto, now);
    assert signedUp.Ok? && service.users.Keys == {id};
    ghost var before := service.users;
    var signedIn := service.SignIn("a@x.com", "Abc12345!", now);
    assert signedIn.Ok? && FindByEmail(before, "a@x.com") == Some(id);
    var refreshed := service.RefreshTokens(id, signedIn.value.refresh, now);
    assert refreshed.Ok?;
    var _ := service.SignOut(id);
    r := service.RefreshTokens(id, refreshed.value.refresh, now);
  }

  /** A refresh token replayed after a successful rotation is denied. */
  method ReplayDenied(now: nat) returns (first: Result<Tokens>, second: Result<Tokens>)
    ensures first.Ok? && second == Err(AccessDenied)
  {
    var service := new AuthService(Config(900, 604800, "http://localhost:3000"));
    var dto := RegisterUserDto("Ana", "Paz", "a@x.com", "Abc12345!", "Abc12345!", true);
    ToLowerFixesLowerCase("a@x.com");
    var id := service.nextId;
    var signedUp := service.SignUp(dto, now);
    assert signedUp.Ok?;
    var rt := signedUp.value.refresh;
    first := service.RefreshTokens(id, rt, now);
    second := service.RefreshTokens(id, rt, now);
  }
}
