# Auth backend model

A Dafny model of the authentication core of the pedro5g/auth project, a
TypeScript backend with a Next.js frontend. The model covers:

- **Register and login** against three stores: users, sessions and
  email-verification codes.
- **The MFA state machine** over a user's `{enable2FA, twoFactorSecret}`:
  - setup stores a secret;
  - confirmation sets the flag after a good TOTP code;
  - revoke clears both;
  - login by TOTP opens a session.
- **The persistent records and their schema rules**: the user (defaults,
  required fields, unique email, the pre-save hook that hashes a modified
  password, `comparePassword`, the `toJSON` redaction), the session, the
  verification code and the magic-link record.
- **The pure helpers**: code generation, expiry arithmetic, JWT option and
  secret selection, the error classes, cookie options and the set/clear
  calls, the environment schema, `getEnv`, the current-session marking in the
  session controller, and the frontend middleware's routing decision.

How the model is put together:

- **Stores.** `Store.Store` holds the three collections as maps keyed by id.
  Its `nextId` counter stands for the ObjectId generator. `Valid()` states
  that every record sits under its own id and that the unique indexes on user
  `email` and on verification `code` hold. Every store method keeps `Valid()`.
- **Documents.** A loaded or new user is a `UserModel.UserDocument` object
  that tracks the set of paths modified since loading. Saving writes only
  those paths, sets `updatedAt` when anything changed, and runs the pre-save
  hook first.
- **Inputs from outside.** These are parameters:
  - the clock (`now`, milliseconds since the epoch);
  - bcrypt, as a deterministic `hash: string -> string`, with
    `comparePassword` holding when the plaintext hashes to the stored value;
  - the random UUID behind a verification code;
  - the generated TOTP secret and the TOTP check `totp(secret, token)`;
  - the library's `jwt.verify`;
  - the URL check for `APP_ORIGIN`;
  - the cookie expiry dates;
  - whether the frontend's refresh request throws.
- **Symbolic values.** A signed token is the value
  `Jwt.Token(payload, secret, options)`, which records what the signer
  received. The otpauth URL and the QR image are likewise symbolic values.
- **Errors.** A thrown `AppError` or a store failure is the `Failure` side of
  a `Result`.

Where the code and its declarations disagree, the model follows the code:

- `minutesFromNow` is imported by the auth service but defined nowhere in
  `date-time.ts`. The model assumes it adds whole minutes (`now + m * 60000`).
- `calculateExpirationDate` is imported by `cookie.ts` but not defined either,
  so each cookie builder takes it as a function parameter and applies it to
  the lifetime key the source reads.
- The session model is exported as `SessionSchema` and imported as
  `SessionModel` by the MFA service. Both names denote the one `sessions` map.
- `isEmailVerified` is declared on the user document type but is not in the
  schema, so it is not a stored field.
- `verifyMFASetup` checks the code against the secret the client sends, not
  the stored one. The model does the same, so the flag can be set for a user
  with no stored secret. `verifyMFAForLogin` then refuses that user as "MFA
  not enabled".
- The refresh cookie is written with no path but cleared at `REFRESH_PATH`.
- The middleware's public list spells "/rest-password", while the page is
  `reset-password`. The model keeps the list as written, so the reset page is
  not treated as public.
- The environment error message interpolates an object. It reads
  "Invalid environment variables [object Object]".

## Model

| member | source | states |
|---|---|---|
| `Errors.NewAppError` | backend/src/core/utils/app-error.ts:8-17 | the message is kept; the status is 500 when none is given and otherwise stored unchanged; the error code is stored as given and stays absent when not supplied |
| `Errors.NotFoundException` | backend/src/core/utils/catch-errors.ts:5-13 | status 404; message defaults to "Resource Not Found"; a supplied code replaces the default `RESOURCE_NOT_FOUND` |
| `Errors.BadRequestException` | backend/src/core/utils/catch-errors.ts:14-18 | status 400; message defaults to "Bad Request"; a supplied code replaces the default `BAD_REQUEST` |
| `Errors.UnauthorizedException` | backend/src/core/utils/catch-errors.ts:19-27 | status 401; message defaults to "Unauthorized Access"; a supplied code replaces the default `ACCESS_UNAUTHORIZED` |
| `Errors.InternalServerException` | backend/src/core/utils/catch-errors.ts:28-39 | status 500; message defaults to "Internal Server Error"; a supplied code replaces the default `INTERNAL_SERVER_ERROR` |
| `Errors.HttpException` | backend/src/core/utils/catch-errors.ts:40-48 | the given status and code pass through unchanged; message defaults to "Http Exception Error" |
| `Errors.NamedExceptionsFollowTable` | backend/src/core/utils/catch-errors.ts:5-48 | each of the four named exceptions carries the status of its class and the default code that belongs to that status, while an `HttpException` built with that same status and no code has no code at all |
| `Uuid.Take` | backend/src/core/utils/uuid.ts:10 | `substring(0, n)` is a prefix of its input of length `min(n, length)` |
| `Uuid.StripHyphensHasNone` | backend/src/core/utils/uuid.ts:10 | `replace(/-/g, "")` leaves no '-' |
| `Uuid.StripHyphensLength` | backend/src/core/utils/uuid.ts:10 | the stripped string keeps exactly the non-hyphen characters |
| `Uuid.StripHyphensKeepsPlain` | backend/src/core/utils/uuid.ts:10 | stripping leaves a string without '-' unchanged |
| `Uuid.StripHyphensAppend` | backend/src/core/utils/uuid.ts:10 | stripping distributes over concatenation, so the characters keep their order |
| `Uuid.StripHyphenThen` | backend/src/core/utils/uuid.ts:10 | a hyphen followed by a hyphen-free group strips to that group |
| `Uuid.StripFiveGroups` | backend/src/core/utils/uuid.ts:10 | five hyphen-free groups joined by hyphens strip to their concatenation |
| `Uuid.HexHasNoHyphen` | backend/src/core/utils/uuid.ts:3-6 | a run of hex digits holds no '-' |
| `Uuid.CanonicalUuidStripped` | backend/src/core/utils/uuid.ts:3-10 | a canonical UUID strips to its 32 hex digits in order |
| `Uuid.CanonicalUuidCode` | backend/src/core/utils/uuid.ts:3-10 | for a canonical UUID the code is exactly its first 25 hex digits |
| `Uuid.ExampleGroups` | backend/src/core/utils/uuid.ts:6 | the documented example UUID splits into five hyphen-free groups |
| `Uuid.GenerateUniqueCode` | backend/src/core/utils/uuid.ts:9-11 | for any input the code holds no '-', is a prefix of the hyphen-free input, and has 25 characters, or all of them when fewer |
| `Uuid.DocumentedExample` | backend/src/core/utils/uuid.ts:6 | 76a3f066-b53e-4e40-94a4-78be682f2110 maps to 76a3f066b53e4e4094a478be6 |
| `DateTime.ThirtyDaysFromNow` | backend/src/core/utils/date-time.ts:5-7 | the expiry is the clock reading plus 2,592,000,000 ms, so strictly later |
| `DateTime.ThirtyDaysMonotone` | backend/src/core/utils/date-time.ts:5-7 | a later reading gives a later expiry, by the same difference |
| `DateTime.MinutesFromNow` | backend/src/modules/auth/auth.service.ts:32-36 | the result lies exactly `m` minutes (60,000 ms each) after the reading, and in the future when `m` is positive |
| `Env.DecimalString` | backend/src/core/env/env.ts:6 | the decimal rendering of a port is a non-empty run of digits |
| `Env.CoerceDecimalString` | backend/src/core/env/env.ts:6 | coercing a rendered number gives the number back |
| `Env.ParseEnv` | backend/src/core/env/env.ts:5-27 | validation succeeds exactly when every required key is present, `PORT` coerces, `ENV_NODE` is one of the three modes and `APP_ORIGIN` is a URL; a failure carries the thrown message; a success holds every key's value, with 8080 and "dev" as defaults; a present `ENV_NODE` is kept as given |
| `Env.ParseRendered` | backend/src/core/env/env.ts:5-27 | validating an environment written out in full gives it back |
| `Env.MissingKeyRejected` | backend/src/core/env/env.ts:7-25 | removing any required string key makes validation throw |
| `Env.DefaultsFilledIn` | backend/src/core/env/env.ts:6-8 | leaving out `PORT` and `ENV_NODE` fills in 8080 and "dev" |
| `Env.GetEnv` | backend/src/core/utils/get-env.ts:5-10 | a truthy override is returned as is; no override, or the falsy "" or 0, reads the environment |
| `Env.GetEnvIdempotent` | backend/src/core/utils/get-env.ts:5-10 | passing the result back as the override changes nothing, and the environment is only read |
| `Jwt.AccessTokenSignOptions` | backend/src/core/utils/jwt.ts:23-26 | the access pair carries `JWT.SECRET` and `JWT.EXPIRES_IN` and sets no audience, so the default ["user"] survives the spread |
| `Jwt.RefreshTokenSignOptions` | backend/src/core/utils/jwt.ts:28-31 | the refresh pair carries `JWT.REFRESH_SECRET` and `JWT.REFRESH_EXPIRES_IN` and sets no audience, so the default ["user"] survives the spread |
| `Jwt.SignJwtToken` | backend/src/core/utils/jwt.ts:19-42 | with no options the token is signed with `JWT.SECRET` and `JWT.EXPIRES_IN` and audience ["user"]; caller options are spread last, their secret is split off, and an absent audience falls back to ["user"] |
| `Jwt.VerifyJwtToken` | backend/src/core/utils/jwt.ts:44-57 | never throws: the payload exactly when the library decodes, otherwise the library's message |
| `Jwt.VerifyDefaultsChosen` | backend/src/core/utils/jwt.ts:49-50 | verification uses `JWT.SECRET` when no secret is supplied and the audience ["user"] by default |
| `Jwt.AccessTokenRoundTrip` | backend/src/core/utils/jwt.ts:33-57 | an access token signed with the defaults verifies with the defaults and yields its payload |
| `Jwt.RefreshTokenRoundTrip` | backend/src/core/utils/jwt.ts:28-57 | a refresh token verifies once the refresh secret is supplied |
| `Jwt.TokenKindsSeparated` | backend/src/core/utils/jwt.ts:23-31 | with distinct secrets, a refresh token fails default verification and an access token fails verification with the refresh secret |
| `Jwt.EqualSecretsMixKinds` | backend/src/core/utils/jwt.ts:23-31 | with equal secrets, a refresh token passes default verification |
| `Jwt.CallerAudienceOverrides` | backend/src/core/utils/jwt.ts:38-41 | a caller's audience overrides the default, and a token without "user" in it fails default verification |
| `Jwt.OptionsReadTheirOwnKeys` | backend/src/core/utils/jwt.ts:23-31 | the access pair and the refresh pair each read their own two configuration keys |
| `Cookie.GetRefreshTokenCookieOptions` | backend/src/core/utils/cookie.ts:11-27 | always `httpOnly`; `secure` exactly in prod; `sameSite` strict in prod and lax otherwise; expires at the date computed from `JWT.REFRESH_EXPIRES_IN`; path `BASE_PATH + "/auth/refresh"` |
| `Cookie.GetAccessTokenCookieOptions` | backend/src/core/utils/cookie.ts:13-36 | the same defaults, expiring at the date computed from `JWT.EXPIRES_IN`, with path "/" |
| `Cookie.BuildersShareDefaults` | backend/src/core/utils/cookie.ts:13-36 | the two builders agree on every security attribute, `secure` holds exactly when `sameSite` is strict, and their paths differ; equal configured lifetimes give equal expiries |
| `Cookie.Response.Cookie` | backend/src/core/utils/cookie.ts:43 | `res.cookie` appends one cookie write to the response |
| `Cookie.Response.ClearCookie` | backend/src/core/utils/cookie.ts:49-51 | `res.clearCookie` appends one cookie erase to the response |
| `Cookie.SetAuthenticationCookies` | backend/src/core/utils/cookie.ts:38-46 | writes the access cookie then the refresh cookie, both with no options, and returns the same response |
| `Cookie.ClearAuthenticationCookies` | backend/src/core/utils/cookie.ts:48-52 | clears the access cookie at the default path and the refresh cookie at `REFRESH_PATH` |
| `Cookie.RefreshCookieScopeMismatch` | backend/src/core/utils/cookie.ts:43-51 | the refresh cookie is written with no path but cleared at `REFRESH_PATH` |
| `UserModel.DefaultPreferences` | backend/src/db/models/user.model.ts:21-25 | a new user has `enable2FA` false, `emailNotification` true and no `twoFactorSecret` |
| `UserModel.NewUserRecord` | backend/src/db/models/user.model.ts:27-38 | name, email and password are required and the failure lists the missing ones; otherwise the record holds the inputs, default preferences and both timestamps at creation time |
| `UserModel.ApplyModified` | backend/src/db/models/user.model.ts:27-44 | a save writes exactly the modified paths: with nothing modified the record is untouched; otherwise each of the six writable fields (name, email, password, `enable2FA`, `emailNotification`, `twoFactorSecret`) takes the document's value when its path is modified and keeps the stored one when not, `_id` and `createdAt` never change and `updatedAt` becomes the clock reading |
| `UserModel.UserDocument.Hydrate` | backend/src/db/models/user.model.ts:10-19 | a loaded document equals the stored record and has nothing modified |
| `UserModel.UserDocument.New` | backend/src/db/models/user.model.ts:10-19 | a new document has every path modified |
| `UserModel.UserDocument.SetTwoFactorSecret` | backend/src/modules/mfa/mfa.service.ts:29 | assigning `userPreferences.twoFactorSecret` changes only that field and marks only its path modified |
| `UserModel.UserDocument.SetEnable2FA` | backend/src/modules/mfa/mfa.service.ts:79 | assigning `userPreferences.enable2FA` changes only that flag and marks only its path modified |
| `UserModel.UserDocument.PreSave` | backend/src/db/models/user.model.ts:39-44 | the hook replaces the password with its hash exactly when the password was modified, so a later save never hashes twice |
| `UserModel.Redact` | backend/src/db/models/user.model.ts:52-58 | the transform removes `password` and `userPreferences.twoFactorSecret` and keeps every other key and value |
| `UserModel.ToJsonTransform` | backend/src/db/models/user.model.ts:52-58 | the transform deletes the two keys from `ret` in place and returns that same object |
| `UserModel.RedactedUserIsPublic` | backend/src/db/models/user.model.ts:52-58 | a serialised user, once redacted, is exactly its public view: no password hash, no TOTP secret, nothing else lost |
| `SessionModel.NewSession` | backend/src/db/models/session.model.ts:11-25 | `userId` is required; `userAgent` is optional; `createdAt` defaults to the clock; `expiredAt` defaults to thirty days after the clock |
| `SessionModel.FreshSessionLifetime` | backend/src/db/models/session.model.ts:19-24 | with a clock that does not run backwards, a fresh session expires at least thirty days after it was created |
| `VerificationModel.NewVerificationCode` | backend/src/db/models/verification.model.ts:13-35 | `userId`, `type` and `expiredAt` are required, with no default for `expiredAt`; `code` defaults to a generated code; `createdAt` defaults to the clock; the failure lists the missing paths |
| `VerificationModel.DefaultCodeShape` | backend/src/db/models/verification.model.ts:20-25 | a code generated from a canonical UUID has 25 characters and no '-', so it always passes the required check |
| `VerificationModel.InsertKeepsUnique` | backend/src/db/models/verification.model.ts:20-25 | adding a record whose code is not taken keeps codes unique |
| `AuthLinkModel.NewAuthLink` | backend/src/db/models/auth-link.model.ts:10-23 | `userId`, `code` and `expiredAt` are required; `createdAt` defaults to the clock; the failure lists the missing paths |
| `AuthLinkModel.SharedCodesAccepted` | backend/src/db/models/auth-link.model.ts:17 | `code` has no default and no uniqueness: two links with the same code are both accepted |
| `Store.UserByEmail` | backend/src/db/models/user.model.ts:30 | the user found by email is a stored user with that email |
| `Store.Store.FreshId` | backend/src/modules/auth/auth.service.ts:30 | each created document gets a new `_id`, one past the previous one |
| `Store.Store.UserExists` | backend/src/modules/auth/auth.service.ts:15 | `exists({email})` holds exactly when some stored user has that email |
| `Store.Store.FindUserByEmail` | backend/src/modules/mfa/mfa.service.ts:123 | `findOne({email})` gives null exactly when no user has that email; otherwise it gives a fresh, unmodified document of that user |
| `Store.Store.CreateUser` | backend/src/db/models/user.model.ts:27-44 | validation first, then the pre-save hook hashes the password of the new document, then the unique email index; each failure leaves the users unchanged, and success adds one record with the hashed password and default preferences; the stored hash matches the given password under `comparePassword` |
| `Store.Store.CreateVerificationCode` | backend/src/db/models/verification.model.ts:13-35 | builds the record with its defaults; refuses a code already taken; otherwise adds exactly that record and keeps codes unique |
| `Store.Store.CreateSession` | backend/src/db/models/session.model.ts:11-25 | adds exactly one session under a new id, built with its defaults |
| `Store.Store.SaveUser` | backend/src/db/models/user.model.ts:39-44 | `user.save()` on a loaded document runs the hook, writes the modified paths, and leaves the document clean with the same `updatedAt` as the record; when the document was loaded from the record and only its modified paths differ, the record afterwards equals the document |
| `Store.Store.CreatedUserKeepsPassword` | backend/src/db/models/user.model.ts:39-50 | the hook hashes a password exactly once: after `create`, `findOne({email})` and a save of changed two-factor preferences, `comparePassword(password)` holds on the document and on the stored record; the flow fails exactly when validation or the unique email index refuses the user |
| `AuthService.InvalidCredentials` | backend/src/modules/auth/auth.service.ts:46-60 | the login failure is BadRequest 400 with `AUTH_USER_NOT_FOUND` and "Invalid email or password" |
| `AuthService.EmailAlreadyExists` | backend/src/modules/auth/auth.service.ts:17-22 | the register failure is BadRequest 400 with `AUTH_EMAIL_ALREADY_EXISTS` |
| `AuthService.AuthService.Register` | backend/src/modules/auth/auth.service.ts:12-39 | a taken email fails and creates no user and no code; otherwise exactly one user (hashed password, default preferences) and one `EMAIL_VERIFICATION` code for it expiring in 45 minutes; `confirmPassword` is unused; no session is created; the created user is returned |
| `AuthService.AuthService.Login` | backend/src/modules/auth/auth.service.ts:41-84 | an unknown email and a wrong password fail with the same error value, `InvalidCredentials`, and leave the sessions untouched; success adds exactly one session for the user with the given user agent, expiring in thirty days, and returns the access token `{userId, sessionId}`, the refresh token `{sessionId}` signed with the refresh options, and `mfaRequired` false |
| `AuthService.SessionTokensRoundTrip` | backend/src/modules/auth/auth.service.ts:62-76 | a session's access token verifies to `{userId, sessionId}` and its refresh token, under the refresh secret, to `{sessionId}` |
| `MfaService.NotAuthorized` | backend/src/modules/mfa/mfa.service.ts:17-19 | no user is Unauthorized 401, "User not authorized" |
| `MfaService.InvalidMfaCode` | backend/src/modules/mfa/mfa.service.ts:75-77 | a bad code is BadRequest 400, "Invalid MFA code. Please try again" |
| `MfaService.SetupResponse` | backend/src/modules/mfa/mfa.service.ts:33-46 | the setup answer carries the secret and a QR image of the otpauth URL for that secret, labelled with the user's name and issued by "auth.com" |
| `MfaService.MfaService.GenerateMfaSetup` | backend/src/modules/mfa/mfa.service.ts:14-47 | no user fails Unauthorized; an enabled user gets only "MFA already enabled" with nothing saved; an existing secret is reused without a save; otherwise the generated secret is stored and saved; `enable2FA` stays false, and the secret returned is the secret stored; afterwards the document equals its stored record and has nothing modified |
| `MfaService.MfaService.VerifyMfaSetup` | backend/src/modules/mfa/mfa.service.ts:49-87 | an enabled user short-circuits without a code check and reports true; otherwise the flag is set and saved exactly when the code checks against the supplied `secretKey`, and a bad code fails BadRequest with nothing saved; afterwards the document equals its stored record and has nothing modified |
| `MfaService.MfaService.RevokeMfa` | backend/src/modules/mfa/mfa.service.ts:89-116 | a user without MFA is left unchanged; otherwise the secret is cleared, the flag turned off, and the record saved; afterwards the document equals its stored record and has nothing modified |
| `MfaService.MfaService.VerifyMfaForLogin` | backend/src/modules/mfa/mfa.service.ts:118-167 | fails in order: NotFound (no user), Unauthorized (flag off or no secret), BadRequest (bad code against the stored secret); a session is created exactly on success, with the access and refresh tokens of that session |
| `SessionController.MarkCurrent` | backend/src/modules/session/session.controller.ts:15-18 | same length and order; every session's fields copied; `isCurrent: true` exactly on sessions whose id is the request's session id, and absent elsewhere |
| `SessionController.OneCurrentSession` | backend/src/modules/session/session.controller.ts:10-24 | with distinct session ids, exactly one session is marked current when the request's session is in the list, and none otherwise |
| `SessionController.SessionIdMissing` | backend/src/modules/session/session.controller.ts:29-31 | the missing-id failure is NotFound 404 with "Session ID not fount. Please log in" |
| `SessionController.GetSession` | backend/src/modules/session/session.controller.ts:26-39 | fails NotFound exactly when the session id is absent (an id is never empty, so falsy means absent), before any lookup; otherwise the same id goes on to the session service |
| `RouteGuard.RoutesDisjoint` | frontend/middleware.ts:3-11 | no path is both protected and public |
| `RouteGuard.Middleware` | frontend/middleware.ts:13-46 | the middleware follows the decision table on every input. Protected, no access cookie: with a refresh cookie it tries a refresh, continues if the request completes and redirects to "/" if it throws; without one it redirects to "/". Protected with an access cookie continues. Public with an access cookie redirects to "/home"; otherwise it continues. Unlisted paths continue |
| `RouteGuard.MiddlewareShape` | frontend/middleware.ts:13-46 | redirects go only to "/" or "/home"; the refresh is attempted exactly for a protected path with a refresh cookie and no access cookie; an unlisted path always continues |
| `RouteGuard.ExactMatching` | frontend/middleware.ts:15-16 | route matching is exact, so "/home/" and "/reset-password" fall outside both lists and continue |

## Left out

- The controllers (`auth.controller.ts`, `mfa.controller.ts`), Express and Passport wiring, the error-handling middleware and `app-config.ts`. They are response plumbing and configuration renaming. `Jwt.ConfigFrom` stands in for the configuration object.
- The auth service's `refreshToken`, `verifyEmail`, `forgotPassword`, `resetPassword`, `logout`, `loginByMagicLink` and `magicAuthenticate`, and the session service. Their implementations are not part of this model.
- bcrypt is a deterministic `hash` parameter. Real bcrypt salts each hash, so only the comparison is faithful, not the hash values.
- The jsonwebtoken, speakeasy and qrcode libraries, and `randomUUID`. They are parameters or symbolic values, and token expiry is not modelled (`expiresIn` is recorded, not enforced).
- The mailer, the database connection, the logger and dotenv loading are I/O. `env.ts` takes its input map as a parameter.
- `Env.ParseEnv`: coercing `PORT` covers absent, "" and decimal digits only. Other forms that `Number()` accepts (signs, spaces, hex, exponents, fractions) are reported invalid, because JavaScript number parsing is not modelled.
- The `ErrorCode` enumeration, the HTTP status table and the verification-kind enumeration are not part of this model. Their members appear as datatype constructors and constants.
- Mongoose's `__v` version key and the `_id` of the embedded preferences document.
- `Store.Store.SaveUser`: covers only saves whose changes are confined to the preferences, which is every save the services make. Saving a changed name, email or password on a loaded document (re-validation, the unique index, rehashing) is not modelled.
- `Store.Store.CreateSession`: both clock defaults read one instant `now`, while the source reads the clock twice (the `createdAt` default and `thirtyDaysFromNow`); `SessionModel.NewSession` takes the two readings separately.
- `SessionController.GetSession`: the request's session id is an option, so the empty string, which the source would also treat as missing, is not a separate input; session ids are never empty.
- `request.user` is loaded by `findById(userId, { password: false })`, so the real document lacks the password; the MFA model's `Loaded` documents carry it. No MFA outcome reads the password, and a save writes only modified paths, so nothing observable differs.
- Concurrency: every operation runs to completion before the next starts, so the read-then-write of the MFA secret cannot race.
- The middleware's refresh request is reduced to whether it throws. Its URL and response are not modelled.
- The `toJSON` transform is modelled on the serialised object; Mongoose's conversion of a document to that object is the function `UserModel.Serialize`.
