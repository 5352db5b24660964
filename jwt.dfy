/** Token signing and verification: which secret and which options reach the
    signer, and how a verification outcome becomes `{payload}` or `{error}`.
    Signing is symbolic: a token records its payload, the secret it was signed
    with and the options the signer received. The library's verification is
    the parameter `verify`; `IdealVerify` is a reference verifier used to
    state the round trips. */
module Jwt {
  import opened Common
  import Env

  /** The JWT section of the application configuration. */
  datatype JwtConfig = JwtConfig(secret: string, expiresIn: string, refreshSecret: string, refreshExpiresIn: string)

  /** The configuration reads the four JWT keys of the environment. */
  function ConfigFrom(e: Env.Env): JwtConfig
  {
    JwtConfig(e.jwtSecret, e.jwtExpiresIn, e.jwtRefreshSecret, e.jwtRefreshExpiresIn)
  }

  datatype Payload =
    | AccessPayload(userId: Id, sessionId: Id)
    | RefreshPayload(sessionId: Id)

  /** The signer options the core sets; an absent field is a missing key. */
  datatype SignOptions = SignOptions(audience: Option<seq<string>>, expiresIn: Option<string>)

  /** Signer options together with the secret to sign with. */
  datatype SignOptsAndSecret = SignOptsAndSecret(secret: string, opts: SignOptions)

  const Audience: seq<string> := ["user"]

  const SignDefaults: SignOptions := SignOptions(Some(Audience), None)

  /** `{...base, ...over}`: a key present in `over` wins. */
  function SpreadSign(base: SignOptions, over: SignOptions): SignOptions
  {
    SignOptions(
      if over.audience.Some? then over.audience else base.audience,
      if over.expiresIn.Some? then over.expiresIn else base.expiresIn)
  }

  /** The access pair: the access secret and lifetime, and no audience of its
      own, so the default applies when it is spread. */
  function AccessTokenSignOptions(cfg: JwtConfig): (o: SignOptsAndSecret)
    ensures o.secret == cfg.secret && o.opts.expiresIn == Some(cfg.expiresIn)
    ensures SpreadSign(SignDefaults, o.opts).audience == Some(Audience)
  {
    SignOptsAndSecret(cfg.secret, SignOptions(None, Some(cfg.expiresIn)))
  }

  /** The refresh pair: the refresh secret and lifetime, and no audience of
      its own, so the default applies when it is spread. */
  function RefreshTokenSignOptions(cfg: JwtConfig): (o: SignOptsAndSecret)
    ensures o.secret == cfg.refreshSecret && o.opts.expiresIn == Some(cfg.refreshExpiresIn)
    ensures SpreadSign(SignDefaults, o.opts).audience == Some(Audience)
  {
    SignOptsAndSecret(cfg.refreshSecret, SignOptions(None, Some(cfg.refreshExpiresIn)))
  }

  /** A signed token. */
  datatype Token = Token(payload: Payload, secret: string, options: SignOptions)

  /** `signJwtToken`: the caller's options, or the access options, with the
      secret split off and the rest spread over the defaults. */
  function SignJwtToken(cfg: JwtConfig, payload: Payload, options: Option<SignOptsAndSecret>): (t: Token)
    ensures t.payload == payload
    ensures options.None? ==> t.secret == cfg.secret && t.options == SignOptions(Some(Audience), Some(cfg.expiresIn))
    ensures options.Some? ==> t.secret == options.value.secret
    ensures options.Some? ==> t.options.expiresIn == options.value.opts.expiresIn
    ensures options.Some? && options.value.opts.audience.Some? ==> t.options.audience == options.value.opts.audience
    ensures options.Some? && options.value.opts.audience.None? ==> t.options.audience == Some(Audience)
  {
    var chosen := if options.Some? then options.value else AccessTokenSignOptions(cfg);
    Token(payload, chosen.secret, SpreadSign(SignDefaults, chosen.opts))
  }

  datatype VerifyOptions = VerifyOptions(audience: Option<seq<string>>)

  /** Verify options with an optional secret. */
  datatype VerifyOptsAndSecret = VerifyOptsAndSecret(secret: Option<string>, opts: VerifyOptions)

  const VerifyDefaults: VerifyOptions := VerifyOptions(Some(Audience))

  /** What the library's `verify` does: return a payload or throw. */
  datatype LibOutcome = Decoded(payload: Payload) | Threw(message: string)

  /** The result of `verifyJwtToken`: `{payload}` or `{error}`. */
  datatype VerifyResult = Verified(payload: Payload) | Rejected(error: string)

  function VerifySecret(cfg: JwtConfig, options: Option<VerifyOptsAndSecret>): string
  {
    if options.Some? && options.value.secret.Some? then options.value.secret.value else cfg.secret
  }

  function VerifyOptionsFor(options: Option<VerifyOptsAndSecret>): VerifyOptions
  {
    if options.Some? && options.value.opts.audience.Some? then options.value.opts else VerifyDefaults
  }

  /** `verifyJwtToken`: never throws; the library's payload or its message. */
  function VerifyJwtToken(cfg: JwtConfig, token: Token, options: Option<VerifyOptsAndSecret>,
                          verify: (Token, string, VerifyOptions) -> LibOutcome): (r: VerifyResult)
    ensures var outcome := verify(token, VerifySecret(cfg, options), VerifyOptionsFor(options));
            && (r.Verified? <==> outcome.Decoded?)
            && (r.Verified? ==> r.payload == outcome.payload)
            && (r.Rejected? ==> r.error == outcome.message)
  {
    var secret := VerifySecret(cfg, options);
    match verify(token, secret, VerifyOptionsFor(options))
    case Decoded(p) => Verified(p)
    case Threw(m) => Rejected(m)
  }

  /** The secret defaults to the access secret; the audience to ["user"]. */
  lemma VerifyDefaultsChosen(cfg: JwtConfig, s: string)
    ensures VerifySecret(cfg, None) == cfg.secret
    ensures VerifySecret(cfg, Some(VerifyOptsAndSecret(None, VerifyOptions(None)))) == cfg.secret
    ensures VerifySecret(cfg, Some(VerifyOptsAndSecret(Some(s), VerifyOptions(None)))) == s
    ensures VerifyOptionsFor(None) == VerifyOptions(Some(Audience))
  {
  }

  /** Whether a token's audience meets the expected one. */
  predicate AudienceMatches(tokenAudience: Option<seq<string>>, expected: Option<seq<string>>)
  {
    expected.None? ||
    (tokenAudience.Some? && exists a :: a in tokenAudience.value && a in expected.value)
  }

  /** Reference verifier: a token verifies under a secret only when it was
      signed with that secret and its audience meets the expected one. */
  function IdealVerify(token: Token, secret: string, opts: VerifyOptions): LibOutcome
  {
    if token.secret != secret then Threw("invalid signature")
    else if !AudienceMatches(token.options.audience, opts.audience) then Threw("jwt audience invalid")
    else Decoded(token.payload)
  }

  /** An access token signed with the defaults verifies with the defaults and
      yields its payload. */
  lemma AccessTokenRoundTrip(cfg: JwtConfig, userId: Id, sessionId: Id)
    ensures VerifyJwtToken(cfg, SignJwtToken(cfg, AccessPayload(userId, sessionId), None), None, IdealVerify)
         == Verified(AccessPayload(userId, sessionId))
  {
    assert "user" in Audience;
  }

  /** A refresh token verifies when the refresh secret is supplied. */
  lemma RefreshTokenRoundTrip(cfg: JwtConfig, sessionId: Id)
    ensures VerifyJwtToken(cfg, SignJwtToken(cfg, RefreshPayload(sessionId), Some(RefreshTokenSignOptions(cfg))),
                           Some(VerifyOptsAndSecret(Some(cfg.refreshSecret), VerifyOptions(None))), IdealVerify)
         == Verified(RefreshPayload(sessionId))
  {
    assert "user" in Audience;
  }

  /** With distinct secrets the two kinds are not interchangeable: a refresh
      token fails default verification and an access token fails verification
      with the refresh secret. */
  lemma TokenKindsSeparated(cfg: JwtConfig, userId: Id, sessionId: Id)
    requires cfg.secret != cfg.refreshSecret
    ensures VerifyJwtToken(cfg, SignJwtToken(cfg, RefreshPayload(sessionId), Some(RefreshTokenSignOptions(cfg))),
                           None, IdealVerify).Rejected?
    ensures VerifyJwtToken(cfg, SignJwtToken(cfg, AccessPayload(userId, sessionId), None),
                           Some(VerifyOptsAndSecret(Some(cfg.refreshSecret), VerifyOptions(None))), IdealVerify).Rejected?
  {
  }

  /** Nothing in the configuration keeps the two secrets apart: when they are
      equal, a refresh token passes the default verification. */
  lemma EqualSecretsMixKinds(cfg: JwtConfig, sessionId: Id)
    requires cfg.secret == cfg.refreshSecret
    ensures VerifyJwtToken(cfg, SignJwtToken(cfg, RefreshPayload(sessionId), Some(RefreshTokenSignOptions(cfg))),
                           None, IdealVerify) == Verified(RefreshPayload(sessionId))
  {
    assert "user" in Audience;
  }

  /** A caller's audience overrides the default on signing, and a token whose
      audience lacks "user" is refused by the default verification. */
  lemma CallerAudienceOverrides(cfg: JwtConfig, p: Payload, secret: string, aud: seq<string>)
    requires "user" !in aud
    ensures SignJwtToken(cfg, p, Some(SignOptsAndSecret(secret, SignOptions(Some(aud), None)))).options.audience == Some(aud)
    ensures VerifyJwtToken(cfg, SignJwtToken(cfg, p, Some(SignOptsAndSecret(cfg.secret, SignOptions(Some(aud), None)))),
                           None, IdealVerify).Rejected?
  {
  }

  /** The refresh options pair the refresh secret with the refresh lifetime,
      the access options the access secret with the access lifetime, each
      read from its own key of the environment. */
  lemma OptionsReadTheirOwnKeys(e: Env.Env)
    ensures RefreshTokenSignOptions(ConfigFrom(e)) == SignOptsAndSecret(e.jwtRefreshSecret, SignOptions(None, Some(e.jwtRefreshExpiresIn)))
    ensures AccessTokenSignOptions(ConfigFrom(e)) == SignOptsAndSecret(e.jwtSecret, SignOptions(None, Some(e.jwtExpiresIn)))
  {
  }
}
