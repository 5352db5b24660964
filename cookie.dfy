/** Cookie options for the two tokens and the calls that set and clear the
    cookies on a response. `calculateExpirationDate`, which turns a configured
    lifetime such as "15m" into a date, is imported by the cookie utilities
    but defined nowhere in the date utilities, so it is the parameter
    `expirationDate`. */
module Cookie {
  import opened Common
  import Env
  import Jwt

  datatype SameSite = Strict | Lax

  datatype CookieOptions = CookieOptions(
    httpOnly: bool,
    secure: bool,
    sameSite: SameSite,
    expires: Option<int>,
    path: Option<string>)

  /** `REFRESH_PATH`. */
  function RefreshPath(e: Env.Env): string
  {
    e.basePath + "/auth/refresh"
  }

  /** The options both builders start from. */
  function Defaults(e: Env.Env): CookieOptions
  {
    CookieOptions(true, e.envNode == Env.Prod, if e.envNode == Env.Prod then Strict else Lax, None, None)
  }

  /** The refresh cookie expires after `JWT.REFRESH_EXPIRES_IN`. */
  function GetRefreshTokenCookieOptions(e: Env.Env, expirationDate: string -> int): (o: CookieOptions)
    ensures o.httpOnly
    ensures o.secure <==> e.envNode == Env.Prod
    ensures o.sameSite == (if e.envNode == Env.Prod then Strict else Lax)
    ensures o.expires == Some(expirationDate(Jwt.ConfigFrom(e).refreshExpiresIn))
    ensures o.path == Some(RefreshPath(e))
  {
    var expires := expirationDate(e.jwtRefreshExpiresIn);
    Defaults(e).(expires := Some(expires), path := Some(RefreshPath(e)))
  }

  /** The access cookie expires after `JWT.EXPIRES_IN`. */
  function GetAccessTokenCookieOptions(e: Env.Env, expirationDate: string -> int): (o: CookieOptions)
    ensures o.httpOnly
    ensures o.secure <==> e.envNode == Env.Prod
    ensures o.sameSite == (if e.envNode == Env.Prod then Strict else Lax)
    ensures o.expires == Some(expirationDate(Jwt.ConfigFrom(e).expiresIn))
    ensures o.path == Some("/")
  {
    var expires := expirationDate(e.jwtExpiresIn);
    Defaults(e).(expires := Some(expires), path := Some("/"))
  }

  /** The two builders agree on every security attribute, are `secure`
      exactly when `strict`, and scope the cookies to different paths; their
      expiries differ only through the two configured lifetimes. */
  lemma BuildersShareDefaults(e: Env.Env, expirationDate: string -> int)
    ensures var a := GetAccessTokenCookieOptions(e, expirationDate);
            var r := GetRefreshTokenCookieOptions(e, expirationDate);
            && a.httpOnly == r.httpOnly == true
            && a.secure == r.secure
            && a.sameSite == r.sameSite
            && (a.secure <==> a.sameSite == Strict)
            && a.path != r.path
            && (e.jwtExpiresIn == e.jwtRefreshExpiresIn ==> a.expires == r.expires)
  {
    var p := RefreshPath(e);
    assert |p| >= 13;
  }

  /** One cookie instruction on a response. */
  datatype CookieOp =
    | WriteCookie(name: string, value: Jwt.Token, options: Option<CookieOptions>)
    | EraseCookie(name: string, path: Option<string>)

  /** The part of an HTTP response these helpers touch: the cookie
      instructions written so far, in order. */
  class Response {
    var cookies: seq<CookieOp>

    constructor ()
      ensures cookies == []
    {
      cookies := [];
    }

    /** `res.cookie(name, value, options?)`. */
    method Cookie(name: string, value: Jwt.Token, options: Option<CookieOptions>)
      modifies this
      ensures cookies == old(cookies) + [WriteCookie(name, value, options)]
    {
      cookies := cookies + [WriteCookie(name, value, options)];
    }

    /** `res.clearCookie(name, {path}?)`. */
    method ClearCookie(name: string, path: Option<string>)
      modifies this
      ensures cookies == old(cookies) + [EraseCookie(name, path)]
    {
      cookies := cookies + [EraseCookie(name, path)];
    }
  }

  /** The instructions `setAuthenticationCookies` writes: both cookies with
      no options at all. */
  function AuthCookieWrites(accessToken: Jwt.Token, refreshToken: Jwt.Token): seq<CookieOp>
  {
    [WriteCookie("accessToken", accessToken, None), WriteCookie("refreshToken", refreshToken, None)]
  }

  /** The instructions `clearAuthenticationCookies` writes. */
  function AuthCookieClears(e: Env.Env): seq<CookieOp>
  {
    [EraseCookie("accessToken", None), EraseCookie("refreshToken", Some(RefreshPath(e)))]
  }

  method SetAuthenticationCookies(res: Response, accessToken: Jwt.Token, refreshToken: Jwt.Token)
    returns (r: Response)
    modifies res
    ensures r == res
    ensures res.cookies == old(res.cookies) + AuthCookieWrites(accessToken, refreshToken)
  {
    res.Cookie("accessToken", accessToken, None);
    res.Cookie("refreshToken", refreshToken, None);
    r := res;
  }

  method ClearAuthenticationCookies(e: Env.Env, res: Response)
    modifies res
    ensures res.cookies == old(res.cookies) + AuthCookieClears(e)
  {
    res.ClearCookie("accessToken", None);
    res.ClearCookie("refreshToken", Some(RefreshPath(e)));
  }

  /** The refresh cookie is written without a path but cleared at
      `REFRESH_PATH`, so the clearing instruction names a different cookie
      scope from the one that was set. */
  lemma RefreshCookieScopeMismatch(e: Env.Env, accessToken: Jwt.Token, refreshToken: Jwt.Token)
    ensures AuthCookieWrites(accessToken, refreshToken)[1].name == AuthCookieClears(e)[1].name == "refreshToken"
    ensures AuthCookieWrites(accessToken, refreshToken)[1].options.None?
    ensures AuthCookieClears(e)[1].path == Some(RefreshPath(e))
    ensures AuthCookieClears(e)[0].path.None?
  {
  }
}
