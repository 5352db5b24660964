/** The MFA state machine over a user's `{enable2FA, twoFactorSecret}`:
    setup stores a secret, confirmation sets the flag after a good code,
    revoke clears both, and login by TOTP opens a session. The TOTP check is
    the parameter `totp(secret, token)`, the generated base32 secret is
    `generatedSecret`, and the otpauth URL and QR image are symbolic values.
    `request.user` is the document the JWT strategy loaded by id: in the
    store, equal to its record and unmodified. The strategy's query leaves
    out the password; here the document carries it, which changes no
    outcome: no MFA operation reads or modifies the password, and a save
    writes only modified paths. */
module MfaService {
  import opened Common
  import opened Errors
  import opened UserModel
  import opened SessionModel
  import opened Store
  import DateTime
  import Jwt
  import AuthService

  /** `speakeasy.otpauthURL({secret, label, issuer})`. */
  datatype OtpAuthUrl = OtpAuthUrl(secret: string, accountLabel: string, issuer: string)

  /** `qrcode.toDataURL(url)`. */
  datatype QrImage = QrDataUrl(url: OtpAuthUrl)

  const Issuer: string := "auth.com"

  datatype MfaResponse =
    | MessageOnly(message: string)
    | SetupInfo(message: string, secret: string, qrImageUrl: QrImage)
    | PreferenceReport(message: string, enable2FA: bool)

  datatype MfaLoginResult = MfaLoginResult(user: User, accessToken: Jwt.Token, refreshToken: Jwt.Token)

  function NotAuthorized(): (e: AppError)
    ensures e.statusCode == StatusUnauthorized && e.message == "User not authorized"
  {
    UnauthorizedException(Some("User not authorized"), None)
  }

  function InvalidMfaCode(): (e: AppError)
    ensures e.statusCode == StatusBadRequest && e.message == "Invalid MFA code. Please try again"
  {
    BadRequestException(Some("Invalid MFA code. Please try again"), None)
  }

  /** The setup response for a secret and the account name it is shown under. */
  function SetupResponse(secret: string, name: string): (m: MfaResponse)
    ensures m.SetupInfo? && m.secret == secret && m.qrImageUrl.url.secret == secret
    ensures m.qrImageUrl.url.accountLabel == name && m.qrImageUrl.url.issuer == Issuer
  {
    SetupInfo("Scan the QR code or use tge setup key", secret, QrDataUrl(OtpAuthUrl(secret, name, Issuer)))
  }

  /** The stored record after a save that changed only the preferences. */
  function WithPreferences(u: User, p: UserPreferences, now: int): User
  {
    u.(prefs := p, updatedAt := now)
  }

  /** What `request.user` is: the stored record, freshly loaded (with its
      password, which the source's projection omits; see above). */
  ghost predicate Loaded(store: Store, user: UserDocument?)
    reads store, user
  {
    user != null ==> user.id in store.users && user.Value() == store.users[user.id] && user.modified == {}
  }

  class MfaService {
    const store: Store

    constructor (store: Store)
      ensures this.store == store
    {
      this.store := store;
    }

    /** `generateMFASetup`. */
    method GenerateMfaSetup(user: UserDocument?, generatedSecret: string, hash: string -> string, now: int)
      returns (r: Result<MfaResponse, Fault>)
      requires store.Valid() && Loaded(store, user)
      modifies store, user
      ensures store.Valid() && Loaded(store, user)
      ensures store.sessions == old(store.sessions) && store.codes == old(store.codes)
      ensures user == null ==> r == Failure(Raised(NotAuthorized())) && store.users == old(store.users)
      ensures user != null && old(user.prefs.enable2FA) ==>
        r == Success(MessageOnly("MFA already enabled")) && store.users == old(store.users)
      ensures user != null && !old(user.prefs.enable2FA) && Truthy(old(user.prefs.twoFactorSecret)) ==>
        && r == Success(SetupResponse(old(user.prefs.twoFactorSecret.value), old(user.name)))
        && store.users == old(store.users)
      ensures user != null && !old(user.prefs.enable2FA) && !Truthy(old(user.prefs.twoFactorSecret)) ==>
        && r == Success(SetupResponse(generatedSecret, old(user.name)))
        && store.users == old(store.users)[user.id :=
             WithPreferences(old(store.users[user.id]), old(user.prefs).(twoFactorSecret := Some(generatedSecret)), now)]
      ensures user != null && r.Success? && r.value.SetupInfo? ==>
        && store.users[user.id].prefs.twoFactorSecret == Some(r.value.secret)
        && !store.users[user.id].prefs.enable2FA
    {
      if user == null {
        return Failure(Raised(NotAuthorized()));
      }
      if user.prefs.enable2FA {
        return Success(MessageOnly("MFA already enabled"));
      }
      var secretKey := user.prefs.twoFactorSecret;
      if !Truthy(secretKey) {
        secretKey := Some(generatedSecret);
        user.SetTwoFactorSecret(secretKey);
        store.SaveUser(user, hash, now);
      }
      r := Success(SetupResponse(secretKey.value, user.name));
    }

    /** `verifyMFASetup`: the code is checked against the secret the client
        sends, not the stored one. */
    method VerifyMfaSetup(user: UserDocument?, code: string, secretKey: string,
                          totp: (string, string) -> bool, hash: string -> string, now: int)
      returns (r: Result<MfaResponse, Fault>)
      requires store.Valid() && Loaded(store, user)
      modifies store, user
      ensures store.Valid() && Loaded(store, user)
      ensures store.sessions == old(store.sessions) && store.codes == old(store.codes)
      ensures user == null ==> r == Failure(Raised(NotAuthorized())) && store.users == old(store.users)
      ensures user != null && old(user.prefs.enable2FA) ==>
        r == Success(PreferenceReport("MFA already enabled", true)) && store.users == old(store.users)
      ensures user != null && !old(user.prefs.enable2FA) && !totp(secretKey, code) ==>
        r == Failure(Raised(InvalidMfaCode())) && store.users == old(store.users)
      ensures user != null && !old(user.prefs.enable2FA) && totp(secretKey, code) ==>
        && r == Success(PreferenceReport("MFA setup completed successfully", true))
        && store.users == old(store.users)[user.id :=
             WithPreferences(old(store.users[user.id]), old(user.prefs).(enable2FA := true), now)]
      ensures user != null ==>
        (store.users[user.id].prefs.enable2FA <==> old(user.prefs.enable2FA) || totp(secretKey, code))
    {
      if user == null {
        return Failure(Raised(NotAuthorized()));
      }
      if user.prefs.enable2FA {
        return Success(PreferenceReport("MFA already enabled", user.prefs.enable2FA));
      }
      var isValid := totp(secretKey, code);
      if !isValid {
        return Failure(Raised(InvalidMfaCode()));
      }
      user.SetEnable2FA(true);
      store.SaveUser(user, hash, now);
      r := Success(PreferenceReport("MFA setup completed successfully", user.prefs.enable2FA));
    }

    /** `revokeMFA`. */
    method RevokeMfa(user: UserDocument?, hash: string -> string, now: int)
      returns (r: Result<MfaResponse, Fault>)
      requires store.Valid() && Loaded(store, user)
      modifies store, user
      ensures store.Valid() && Loaded(store, user)
      ensures store.sessions == old(store.sessions) && store.codes == old(store.codes)
      ensures user == null ==> r == Failure(Raised(NotAuthorized())) && store.users == old(store.users)
      ensures user != null && !old(user.prefs.enable2FA) ==>
        r == Success(PreferenceReport("MFA is not enabled", false)) && store.users == old(store.users)
      ensures user != null && old(user.prefs.enable2FA) ==>
        && r == Success(PreferenceReport("MFA revoke successfully", false))
        && store.users == old(store.users)[user.id :=
             WithPreferences(old(store.users[user.id]), old(user.prefs).(enable2FA := false, twoFactorSecret := None), now)]
      ensures user != null ==> !store.users[user.id].prefs.enable2FA
    {
      if user == null {
        return Failure(Raised(NotAuthorized()));
      }
      if !user.prefs.enable2FA {
        return Success(PreferenceReport("MFA is not enabled", user.prefs.enable2FA));
      }
      user.SetTwoFactorSecret(None);
      user.SetEnable2FA(false);
      store.SaveUser(user, hash, now);
      r := Success(PreferenceReport("MFA revoke successfully", user.prefs.enable2FA));
    }

    /** `verifyMFAForLogin`: the failures come in a fixed order (no user, MFA
        off or no secret, bad code), and only success opens a session. */
    method VerifyMfaForLogin(code: string, email: string, userAgent: Option<string>,
                             totp: (string, string) -> bool, cfg: Jwt.JwtConfig, now: int)
      returns (r: Result<MfaLoginResult, Fault>)
      requires store.Valid()
      modifies store
      ensures store.Valid()
      ensures store.users == old(store.users) && store.codes == old(store.codes)
      ensures !old(EmailTaken(store.users, email)) ==>
        r == Failure(Raised(NotFoundException(Some("User not found"), None))) && store.sessions == old(store.sessions)
      ensures old(EmailTaken(store.users, email)) ==>
        var u := UserByEmail(old(store.users), email);
        && (!u.prefs.enable2FA || !Truthy(u.prefs.twoFactorSecret) ==>
              && r == Failure(Raised(UnauthorizedException(Some("MFA not enabled for this user"), None)))
              && store.sessions == old(store.sessions))
        && (u.prefs.enable2FA && Truthy(u.prefs.twoFactorSecret) && !totp(u.prefs.twoFactorSecret.value, code) ==>
              r == Failure(Raised(InvalidMfaCode())) && store.sessions == old(store.sessions))
        && (u.prefs.enable2FA && Truthy(u.prefs.twoFactorSecret) && totp(u.prefs.twoFactorSecret.value, code) ==>
              var sid := old(store.nextId);
              && store.sessions == old(store.sessions)[sid := Session(sid, u.id, userAgent, now, DateTime.ThirtyDaysFromNow(now))]
              && r == Success(MfaLoginResult(u, AuthService.AccessTokenFor(cfg, u.id, sid), AuthService.RefreshTokenFor(cfg, sid))))
      ensures r.Success? <==> store.sessions != old(store.sessions)
    {
      var user := store.FindUserByEmail(email);
      if user == null {
        return Failure(Raised(NotFoundException(Some("User not found"), None)));
      }
      if !user.prefs.enable2FA || !Truthy(user.prefs.twoFactorSecret) {
        return Failure(Raised(UnauthorizedException(Some("MFA not enabled for this user"), None)));
      }
      var isValid := totp(user.prefs.twoFactorSecret.value, code);
      if !isValid {
        return Failure(Raised(InvalidMfaCode()));
      }
      var session := store.CreateSession(user.id, userAgent, now);
      var accessToken := Jwt.SignJwtToken(cfg, Jwt.AccessPayload(user.id, session.id), None);
      var refreshToken := Jwt.SignJwtToken(cfg, Jwt.RefreshPayload(session.id), Some(Jwt.RefreshTokenSignOptions(cfg)));
      r := Success(MfaLoginResult(user.Value(), accessToken, refreshToken));
    }
  }
}
