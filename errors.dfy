/** The error taxonomy of the backend: the `AppError` base record and the
    four HTTP exceptions built on it, plus the persistence failures that
    escape from the document store as plain exceptions. */
module Errors {
  import opened Common

  /** The error codes the core raises. The enumeration file itself is not
      part of this model; these are the members the core refers to. */
  datatype ErrorCode =
    | AuthEmailAlreadyExists   // AUTH_EMAIL_ALREADY_EXISTS
    | AuthUserNotFound         // AUTH_USER_NOT_FOUND
    | AuthTokenNotFound        // AUTH_TOKEN_NOT_FOUND
    | ResourceNotFoundCode     // RESOURCE_NOT_FOUND
    | BadRequestCode           // BAD_REQUEST
    | AccessUnauthorized       // ACCESS_UNAUTHORIZED
    | InternalServerErrorCode  // INTERNAL_SERVER_ERROR

  // HTTP status numbers used by the exceptions (standard values).
  const StatusBadRequest: int := 400
  const StatusUnauthorized: int := 401
  const StatusNotFound: int := 404
  const StatusInternalServerError: int := 500

  /** An `AppError`: the message, an HTTP status and an optional error code.
      No field is assigned after construction. */
  datatype AppError = AppError(message: string, statusCode: int, errorCode: Option<ErrorCode>)

  /** A failure of a persistence call: schema validation lists every path
      that failed, a unique index names the duplicated path. */
  datatype StoreError =
    | ValidationFailed(paths: set<string>)
    | DuplicateKey(path: string)

  /** Whatever an operation of the core can throw. */
  datatype Fault =
    | Raised(error: AppError)
    | StoreFault(cause: StoreError)

  /** `given || default` for a value that is either absent or truthy, and
      equally a default parameter value that replaces `undefined`. */
  function OrDefault<T>(given: Option<T>, default: T): T
  {
    if given.Some? then given.value else default
  }

  /** The `AppError` constructor; `statusCode` defaults to 500. */
  function NewAppError(message: string, statusCode: Option<int>, errorCode: Option<ErrorCode>): (e: AppError)
    ensures e.message == message
    ensures statusCode.None? ==> e.statusCode == StatusInternalServerError
    ensures statusCode.Some? ==> e.statusCode == statusCode.value
    ensures e.errorCode == errorCode
  {
    AppError(message, OrDefault(statusCode, StatusInternalServerError), errorCode)
  }

  function NotFoundException(message: Option<string>, errorCode: Option<ErrorCode>): (e: AppError)
    ensures e.statusCode == StatusNotFound
    ensures message.None? ==> e.message == "Resource Not Found"
    ensures message.Some? ==> e.message == message.value
    ensures e.errorCode == Some(if errorCode.Some? then errorCode.value else ResourceNotFoundCode)
  {
    NewAppError(OrDefault(message, "Resource Not Found"), Some(StatusNotFound),
                Some(OrDefault(errorCode, ResourceNotFoundCode)))
  }

  function BadRequestException(message: Option<string>, errorCode: Option<ErrorCode>): (e: AppError)
    ensures e.statusCode == StatusBadRequest
    ensures message.None? ==> e.message == "Bad Request"
    ensures message.Some? ==> e.message == message.value
    ensures e.errorCode == Some(if errorCode.Some? then errorCode.value else BadRequestCode)
  {
    NewAppError(OrDefault(message, "Bad Request"), Some(StatusBadRequest),
                Some(OrDefault(errorCode, BadRequestCode)))
  }

  function UnauthorizedException(message: Option<string>, errorCode: Option<ErrorCode>): (e: AppError)
    ensures e.statusCode == StatusUnauthorized
    ensures message.None? ==> e.message == "Unauthorized Access"
    ensures message.Some? ==> e.message == message.value
    ensures e.errorCode == Some(if errorCode.Some? then errorCode.value else AccessUnauthorized)
  {
    NewAppError(OrDefault(message, "Unauthorized Access"), Some(StatusUnauthorized),
                Some(OrDefault(errorCode, AccessUnauthorized)))
  }

  function InternalServerException(message: Option<string>, errorCode: Option<ErrorCode>): (e: AppError)
    ensures e.statusCode == StatusInternalServerError
    ensures message.None? ==> e.message == "Internal Server Error"
    ensures message.Some? ==> e.message == message.value
    ensures e.errorCode == Some(if errorCode.Some? then errorCode.value else InternalServerErrorCode)
  {
    NewAppError(OrDefault(message, "Internal Server Error"), Some(StatusInternalServerError),
                Some(OrDefault(errorCode, InternalServerErrorCode)))
  }

  /** `HttpException` passes status and code through; the code may stay absent. */
  function HttpException(message: Option<string>, statusCode: int, errorCode: Option<ErrorCode>): (e: AppError)
    ensures e.statusCode == statusCode
    ensures e.errorCode == errorCode
    ensures message.None? ==> e.message == "Http Exception Error"
    ensures message.Some? ==> e.message == message.value
  {
    NewAppError(OrDefault(message, "Http Exception Error"), Some(statusCode), errorCode)
  }

  /** Reference table: the code each status carries when none is given. */
  function DefaultCodeFor(status: int): Option<ErrorCode>
  {
    if status == StatusNotFound then Some(ResourceNotFoundCode)
    else if status == StatusBadRequest then Some(BadRequestCode)
    else if status == StatusUnauthorized then Some(AccessUnauthorized)
    else if status == StatusInternalServerError then Some(InternalServerErrorCode)
    else None
  }

  /** The four named exceptions always carry a code; with none supplied it is
      the one the status table assigns, and a supplied code wins. An
      `HttpException` built without a code, even with one of those four
      statuses, carries none. */
  lemma NamedExceptionsFollowTable(message: Option<string>, code: Option<ErrorCode>)
    ensures var es := [NotFoundException(message, code), BadRequestException(message, code),
                       UnauthorizedException(message, code), InternalServerException(message, code)];
            forall i :: 0 <= i < |es| ==>
              && es[i].errorCode.Some?
              && (code.None? ==> es[i].errorCode == DefaultCodeFor(es[i].statusCode))
              && (code.Some? ==> es[i].errorCode == code)
              && HttpException(message, es[i].statusCode, None).errorCode.None?
              && HttpException(message, es[i].statusCode, None).errorCode != DefaultCodeFor(es[i].statusCode)
  {
  }
}
