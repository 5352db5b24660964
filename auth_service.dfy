/** `register` and `login` over the store. Password hashing is the parameter
    `hash`, the random UUID behind the verification code is `uuid`, and the
    clock reading is `now`. */
module AuthService {
  import opened Common
  import opened Errors
  import opened UserModel
  import opened SessionModel
  import opened VerificationModel
  import opened Store
  import DateTime
  import Uuid
  import Jwt

  /** The error both failed logins raise, so that the two are indistinguishable. */
  function InvalidCredentials(): (e: AppError)
    ensures e.statusCode == StatusBadRequest && e.errorCode == Some(AuthUserNotFound)
    ensures e.message == "Invalid email or password"
  {
    BadRequestException(Some("Invalid email or password"), Some(AuthUserNotFound))
  }

  function EmailAlreadyExists(): (e: AppError)
    ensures e.statusCode == StatusBadRequest && e.errorCode == Some(AuthEmailAlreadyExists)
    ensures e.message == "User already exists with this email"
  {
    BadRequestException(Some("User already exists with this email"), Some(AuthEmailAlreadyExists))
  }

  /** Lifetime of an email-verification code, in minutes. */
  const VerificationMinutes: int := 45

  datatype LoginResult = LoginResult(user: User, accessToken: Jwt.Token, refreshToken: Jwt.Token, mfaRequired: bool)

  /** The two tokens a new session gets: access `{userId, sessionId}` signed
      with the defaults, refresh `{sessionId}` signed with the refresh options. */
  function AccessTokenFor(cfg: Jwt.JwtConfig, userId: Id, sessionId: Id): Jwt.Token
  {
    Jwt.SignJwtToken(cfg, Jwt.AccessPayload(userId, sessionId), None)
  }

  function RefreshTokenFor(cfg: Jwt.JwtConfig, sessionId: Id): Jwt.Token
  {
    Jwt.SignJwtToken(cfg, Jwt.RefreshPayload(sessionId), Some(Jwt.RefreshTokenSignOptions(cfg)))
  }

  class AuthService {
    const store: Store

    constructor (store: Store)
      ensures this.store == store
    {
      this.store := store;
    }

    /** `register`. `confirmPassword` is accepted and ignored. */
    method Register(name: string, email: string, password: string, confirmPassword: string,
                    hash: string -> string, uuid: string, now: int)
      returns (r: Result<User, Fault>)
      requires store.Valid()
      modifies store
      ensures store.Valid()
      ensures store.sessions == old(store.sessions)
      ensures old(EmailTaken(store.users, email)) ==>
        && r == Failure(Raised(EmailAlreadyExists()))
        && store.users == old(store.users) && store.codes == old(store.codes)
      ensures !old(EmailTaken(store.users, email)) && MissingUserPaths(name, email, password) != {} ==>
        && r == Failure(StoreFault(ValidationFailed(MissingUserPaths(name, email, password))))
        && store.users == old(store.users) && store.codes == old(store.codes)
      ensures !old(EmailTaken(store.users, email)) && MissingUserPaths(name, email, password) == {} ==>
        var uid := old(store.nextId);
        var user := User(uid, name, email, hash(password), DefaultPreferences(), now, now);
        var code := Uuid.GenerateUniqueCode(uuid);
        && store.users == old(store.users)[uid := user]
        && (code == "" ==>
              r == Failure(StoreFault(ValidationFailed({"code"}))) && store.codes == old(store.codes))
        && (code != "" && old(CodeTaken(store.codes, code)) ==>
              r == Failure(StoreFault(DuplicateKey("code"))) && store.codes == old(store.codes))
        && (code != "" && !old(CodeTaken(store.codes, code)) ==>
              && r == Success(user)
              && store.codes == old(store.codes)[uid + 1 :=
                   VerificationCode(uid + 1, uid, code, EmailVerification, now,
                                    DateTime.MinutesFromNow(now, VerificationMinutes))])
    {
      var taken := store.UserExists(email);
      if taken {
        return Failure(Raised(EmailAlreadyExists()));
      }
      var created := store.CreateUser(name, email, password, hash, now);
      if created.Failure? {
        return Failure(StoreFault(created.error));
      }
      var user := created.value;
      var code := store.CreateVerificationCode(user.id, EmailVerification,
                                               DateTime.MinutesFromNow(now, VerificationMinutes), uuid, now);
      if code.Failure? {
        return Failure(StoreFault(code.error));
      }
      r := Success(user);
    }

    /** `login`: look the user up by email, compare the password, open a
        session and sign its two tokens. No email-verified or MFA check. */
    method Login(email: string, password: string, userAgent: Option<string>,
                 hash: string -> string, cfg: Jwt.JwtConfig, now: int)
      returns (r: Result<LoginResult, Fault>)
      requires store.Valid()
      modifies store
      ensures store.Valid()
      ensures store.users == old(store.users) && store.codes == old(store.codes)
      ensures r.Failure? ==> r.error == Raised(InvalidCredentials()) && store.sessions == old(store.sessions)
      ensures !old(EmailTaken(store.users, email)) ==>
        r == Failure(Raised(InvalidCredentials())) && store.sessions == old(store.sessions)
      ensures old(EmailTaken(store.users, email)) &&
              !PasswordMatches(hash, password, UserByEmail(old(store.users), email).password) ==>
        r == Failure(Raised(InvalidCredentials())) && store.sessions == old(store.sessions)
      ensures old(EmailTaken(store.users, email)) &&
              PasswordMatches(hash, password, UserByEmail(old(store.users), email).password) ==>
        var user := UserByEmail(old(store.users), email);
        var sid := old(store.nextId);
        && store.sessions == old(store.sessions)[sid := Session(sid, user.id, userAgent, now, DateTime.ThirtyDaysFromNow(now))]
        && r == Success(LoginResult(user, AccessTokenFor(cfg, user.id, sid), RefreshTokenFor(cfg, sid), false))
    {
      var doc := store.FindUserByEmail(email);
      if doc == null {
        return Failure(Raised(InvalidCredentials()));
      }
      var passwordMatch := doc.ComparePassword(hash, password);
      if !passwordMatch {
        return Failure(Raised(InvalidCredentials()));
      }
      var session := store.CreateSession(doc.id, userAgent, now);
      var accessToken := Jwt.SignJwtToken(cfg, Jwt.AccessPayload(doc.id, session.id), None);
      var refreshToken := Jwt.SignJwtToken(cfg, Jwt.RefreshPayload(session.id), Some(Jwt.RefreshTokenSignOptions(cfg)));
      r := Success(LoginResult(doc.Value(), accessToken, refreshToken, false));
    }
  }

  /** The tokens of a session name it: the access token carries the user and
      the session, the refresh token only the session, and each verifies with
      the secret it was signed with. */
  lemma SessionTokensRoundTrip(cfg: Jwt.JwtConfig, userId: Id, sessionId: Id)
    ensures Jwt.VerifyJwtToken(cfg, AccessTokenFor(cfg, userId, sessionId), None, Jwt.IdealVerify)
         == Jwt.Verified(Jwt.AccessPayload(userId, sessionId))
    ensures Jwt.VerifyJwtToken(cfg, RefreshTokenFor(cfg, sessionId),
                               Some(Jwt.VerifyOptsAndSecret(Some(cfg.refreshSecret), Jwt.VerifyOptions(None))),
                               Jwt.IdealVerify)
         == Jwt.Verified(Jwt.RefreshPayload(sessionId))
  {
    Jwt.AccessTokenRoundTrip(cfg, userId, sessionId);
    Jwt.RefreshTokenRoundTrip(cfg, sessionId);
  }
}
