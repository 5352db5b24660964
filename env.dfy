/** The environment schema (`env.ts`) and the override-or-lookup accessor
    (`get-env.ts`). The process environment is the input map; the URL check
    of `APP_ORIGIN` is the parameter `isUrl`. */
module Env {
  import opened Common

  datatype NodeEnv = Dev | Prod | Test

  /** The validated environment, every schema key with defaults filled in. */
  datatype Env = Env(
    port: nat,
    apiBaseUrl: string,
    envNode: NodeEnv,
    mongoUri: string,
    basePath: string,
    appOrigin: string,
    jwtSecret: string,
    jwtExpiresIn: string,
    jwtRefreshSecret: string,
    jwtRefreshExpiresIn: string,
    resendApiKey: string,
    mailerSender: string)

  const DefaultPort: nat := 8080

  /** The keys that are plain required strings. */
  const RequiredStringKeys: seq<string> :=
    ["API_BASE_URL", "MONGO_URI", "BASE_PATH", "APP_ORIGIN", "JWT_SECRET", "JWT_EXPIRES_IN",
     "JWT_REFRESH_SECRET", "JWT_REFRESH_EXPIRES_IN", "RESEND_API_KEY", "MAILER_SENDER"]

  /** The message of the error thrown on an invalid environment: the formatted
      zod error is an object, which a template string renders as
      "[object Object]". */
  const InvalidEnvMessage: string := "Invalid environment variables [object Object]"

  predicate IsDigit(c: char)
  {
    '0' <= c <= '9'
  }

  predicate AllDigits(s: string)
  {
    forall i :: 0 <= i < |s| ==> IsDigit(s[i])
  }

  /** The value of a string of decimal digits ("" is 0, as `Number("")` is). */
  function DigitsValue(s: string): nat
    requires AllDigits(s)
  {
    if s == [] then 0
    else 10 * DigitsValue(s[..|s| - 1]) + (s[|s| - 1] as int - '0' as int)
  }

  /** Numeric coercion of `PORT`, for the decimal forms. */
  function CoerceNumber(s: string): Option<nat>
  {
    if AllDigits(s) then Some(DigitsValue(s)) else None
  }

  /** The decimal rendering of a natural number. */
  function DecimalString(n: nat): (s: string)
    ensures AllDigits(s) && s != []
  {
    if n < 10 then [('0' as int + n) as char]
    else DecimalString(n / 10) + [('0' as int + n % 10) as char]
  }

  /** Rendering a number and coercing it back gives the number. */
  lemma {:induction false} CoerceDecimalString(n: nat)
    ensures CoerceNumber(DecimalString(n)) == Some(n)
    ensures DigitsValue(DecimalString(n)) == n
  {
    var s := DecimalString(n);
    if n < 10 {
      assert s[..|s| - 1] == [];
      assert DigitsValue(s[..|s| - 1]) == 0;
      assert s[|s| - 1] as int - '0' as int == n;
      assert DigitsValue(s) == 10 * DigitsValue(s[..|s| - 1]) + (s[|s| - 1] as int - '0' as int);
    } else {
      CoerceDecimalString(n / 10);
      assert s[..|s| - 1] == DecimalString(n / 10);
      assert s[|s| - 1] as int - '0' as int == n % 10;
    }
  }

  /** `PORT`: absent gives 8080, present is coerced and must be a number. */
  function ParsePort(input: map<string, string>): Option<nat>
  {
    if "PORT" in input then CoerceNumber(input["PORT"]) else Some(DefaultPort)
  }

  /** `ENV_NODE`: absent gives "dev", present must be one of the three. */
  function ParseNodeEnv(input: map<string, string>): Option<NodeEnv>
  {
    if "ENV_NODE" !in input then Some(Dev)
    else if input["ENV_NODE"] == "dev" then Some(Dev)
    else if input["ENV_NODE"] == "prod" then Some(Prod)
    else if input["ENV_NODE"] == "test" then Some(Test)
    else None
  }

  /** What the schema accepts. */
  predicate Acceptable(input: map<string, string>, isUrl: string -> bool)
  {
    && (forall k :: k in RequiredStringKeys ==> k in input)
    && ParsePort(input).Some?
    && ParseNodeEnv(input).Some?
    && isUrl(input["APP_ORIGIN"])
  }

  /** `envSchema.safeParse` followed by the throw on failure. */
  function ParseEnv(input: map<string, string>, isUrl: string -> bool): (r: Result<Env, string>)
    ensures r.Success? <==> Acceptable(input, isUrl)
    ensures r.Failure? ==> r.error == InvalidEnvMessage
    ensures r.Success? ==>
      && r.value.port == (if "PORT" in input then DigitsValue(input["PORT"]) else DefaultPort)
      && ("ENV_NODE" !in input ==> r.value.envNode == Dev)
      && ("ENV_NODE" in input ==> NodeEnvName(r.value.envNode) == input["ENV_NODE"])
      && r.value.apiBaseUrl == input["API_BASE_URL"]
      && r.value.mongoUri == input["MONGO_URI"]
      && r.value.basePath == input["BASE_PATH"]
      && r.value.appOrigin == input["APP_ORIGIN"]
      && r.value.jwtSecret == input["JWT_SECRET"]
      && r.value.jwtExpiresIn == input["JWT_EXPIRES_IN"]
      && r.value.jwtRefreshSecret == input["JWT_REFRESH_SECRET"]
      && r.value.jwtRefreshExpiresIn == input["JWT_REFRESH_EXPIRES_IN"]
      && r.value.resendApiKey == input["RESEND_API_KEY"]
      && r.value.mailerSender == input["MAILER_SENDER"]
  {
    if !Acceptable(input, isUrl) then Failure(InvalidEnvMessage)
    else
      Success(Env(
        ParsePort(input).value, input["API_BASE_URL"], ParseNodeEnv(input).value,
        input["MONGO_URI"], input["BASE_PATH"], input["APP_ORIGIN"], input["JWT_SECRET"],
        input["JWT_EXPIRES_IN"], input["JWT_REFRESH_SECRET"], input["JWT_REFRESH_EXPIRES_IN"],
        input["RESEND_API_KEY"], input["MAILER_SENDER"]))
  }

  function NodeEnvName(m: NodeEnv): string
  {
    match m
    case Dev => "dev"
    case Prod => "prod"
    case Test => "test"
  }

  /** A process environment that spells out every field of `e`. */
  function Render(e: Env): map<string, string>
  {
    map[
      "PORT" := DecimalString(e.port),
      "API_BASE_URL" := e.apiBaseUrl,
      "ENV_NODE" := NodeEnvName(e.envNode),
      "MONGO_URI" := e.mongoUri,
      "BASE_PATH" := e.basePath,
      "APP_ORIGIN" := e.appOrigin,
      "JWT_SECRET" := e.jwtSecret,
      "JWT_EXPIRES_IN" := e.jwtExpiresIn,
      "JWT_REFRESH_SECRET" := e.jwtRefreshSecret,
      "JWT_REFRESH_EXPIRES_IN" := e.jwtRefreshExpiresIn,
      "RESEND_API_KEY" := e.resendApiKey,
      "MAILER_SENDER" := e.mailerSender]
  }

  /** Round trip: validating a rendered environment gives it back, provided
      its origin is a URL. */
  lemma ParseRendered(e: Env, isUrl: string -> bool)
    requires isUrl(e.appOrigin)
    ensures ParseEnv(Render(e), isUrl) == Success(e)
  {
    CoerceDecimalString(e.port);
    var input := Render(e);
    assert ParsePort(input) == Some(e.port);
    assert ParseNodeEnv(input) == Some(e.envNode);
  }

  /** Removing any one required string key makes validation fail. */
  lemma MissingKeyRejected(input: map<string, string>, isUrl: string -> bool, k: string)
    requires k in RequiredStringKeys
    ensures ParseEnv(input - {k}, isUrl) == Failure(InvalidEnvMessage)
  {
  }

  /** Leaving out `PORT` and `ENV_NODE` fills in 8080 and "dev". */
  lemma DefaultsFilledIn(input: map<string, string>, isUrl: string -> bool)
    requires Acceptable(input, isUrl)
    ensures ParseEnv(input - {"PORT", "ENV_NODE"}, isUrl).Success?
    ensures ParseEnv(input - {"PORT", "ENV_NODE"}, isUrl).value.port == DefaultPort
    ensures ParseEnv(input - {"PORT", "ENV_NODE"}, isUrl).value.envNode == Dev
  {
    var rest := input - {"PORT", "ENV_NODE"};
    forall k | k in RequiredStringKeys ensures k in rest {
      assert k != "PORT" && k != "ENV_NODE";
    }
    assert rest["APP_ORIGIN"] == input["APP_ORIGIN"];
  }

  // ---- get-env.ts ----

  /** The schema keys. */
  datatype Key =
    | PortKey | ApiBaseUrlKey | EnvNodeKey | MongoUriKey | BasePathKey | AppOriginKey
    | JwtSecretKey | JwtExpiresInKey | JwtRefreshSecretKey | JwtRefreshExpiresInKey
    | ResendApiKeyKey | MailerSenderKey

  /** A value of the validated environment. */
  datatype EnvValue = NumberValue(n: int) | TextValue(s: string) | ModeValue(mode: NodeEnv)

  function Lookup(e: Env, key: Key): EnvValue
  {
    match key
    case PortKey => NumberValue(e.port)
    case ApiBaseUrlKey => TextValue(e.apiBaseUrl)
    case EnvNodeKey => ModeValue(e.envNode)
    case MongoUriKey => TextValue(e.mongoUri)
    case BasePathKey => TextValue(e.basePath)
    case AppOriginKey => TextValue(e.appOrigin)
    case JwtSecretKey => TextValue(e.jwtSecret)
    case JwtExpiresInKey => TextValue(e.jwtExpiresIn)
    case JwtRefreshSecretKey => TextValue(e.jwtRefreshSecret)
    case JwtRefreshExpiresInKey => TextValue(e.jwtRefreshExpiresIn)
    case ResendApiKeyKey => TextValue(e.resendApiKey)
    case MailerSenderKey => TextValue(e.mailerSender)
  }

  /** JavaScript truthiness: 0 and "" are falsy; a mode name never is. */
  predicate IsTruthy(v: EnvValue)
  {
    match v
    case NumberValue(n) => n != 0
    case TextValue(s) => s != ""
    case ModeValue(_) => true
  }

  /** `getEnv(key, value?)`: a truthy override wins; no override, or a falsy
      one such as "" or 0, reads the environment. */
  function GetEnv(e: Env, key: Key, value: Option<EnvValue>): (v: EnvValue)
    ensures value.Some? && IsTruthy(value.value) ==> v == value.value
    ensures value.None? ==> v == Lookup(e, key)
    ensures value == Some(TextValue("")) || value == Some(NumberValue(0)) ==> v == Lookup(e, key)
  {
    if value.Some? && IsTruthy(value.value) then value.value else Lookup(e, key)
  }

  /** Feeding the result back as the override changes nothing. */
  lemma GetEnvIdempotent(e: Env, key: Key, value: Option<EnvValue>)
    ensures GetEnv(e, key, Some(GetEnv(e, key, value))) == GetEnv(e, key, value)
  {
  }
}
