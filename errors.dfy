/** `ApiError` and the `createError` factories (backend/src/utils/errors.js). */
module Errors {
  import opened Wrappers

  /** An `ApiError`: the HTTP status and the message it was built with. */
  datatype ApiError = ApiError(statusCode: int, message: string)

  /** The seven factories of `createError`. */
  datatype ErrorKind = BadRequest | Unauthorized | Forbidden | NotFound | Conflict | TooManyRequests | Internal

  function StatusOf(k: ErrorKind): int {
    match k
    case BadRequest => 400
    case Unauthorized => 401
    case Forbidden => 403
    case NotFound => 404
    case Conflict => 409
    case TooManyRequests => 429
    case Internal => 500
  }

  function DefaultMessage(k: ErrorKind): string {
    match k
    case BadRequest => "请求参数错误"
    case Unauthorized => "未授权访问"
    case Forbidden => "权限不足"
    case NotFound => "资源不存在"
    case Conflict => "资源冲突"
    case TooManyRequests => "请求过于频繁"
    case Internal => "服务器内部错误"
  }

  /**
   * `createError.<kind>(message)`. JavaScript substitutes a default parameter
   * only for `undefined`, so a supplied empty string is kept.
   */
  function CreateError(k: ErrorKind, message: Option<string>): (e: ApiError)
    ensures e.statusCode == StatusOf(k)
    ensures message.Some? ==> e.message == message.value
    ensures message.None? ==> e.message == DefaultMessage(k)
  {
    ApiError(StatusOf(k), message.GetOr(DefaultMessage(k)))
  }

  /** Shorthands for the factories the controllers call with a message. */
  function BadRequestError(message: string): ApiError { CreateError(BadRequest, Some(message)) }
  function UnauthorizedError(message: string): ApiError { CreateError(Unauthorized, Some(message)) }
  function ForbiddenError(message: string): ApiError { CreateError(Forbidden, Some(message)) }
  function NotFoundError(message: string): ApiError { CreateError(NotFound, Some(message)) }
  function ConflictError(message: string): ApiError { CreateError(Conflict, Some(message)) }
  function InternalError(message: string): ApiError { CreateError(Internal, Some(message)) }

  /** The factory that produces a given status, if any: the inverse of `StatusOf`. */
  function KindOfStatus(code: int): (r: Option<ErrorKind>)
    ensures r.Some? ==> StatusOf(r.value) == code
  {
    if code == 400 then Some(BadRequest)
    else if code == 401 then Some(Unauthorized)
    else if code == 403 then Some(Forbidden)
    else if code == 404 then Some(NotFound)
    else if code == 409 then Some(Conflict)
    else if code == 429 then Some(TooManyRequests)
    else if code == 500 then Some(Internal)
    else None
  }

  /** Distinct factories give distinct statuses, so the status identifies the factory. */
  lemma StatusIdentifiesKind(k: ErrorKind)
    ensures KindOfStatus(StatusOf(k)) == Some(k)
  {
  }

  /** Only `internal` is a server error; every other factory gives a 4xx status. */
  lemma ServerErrorOnlyInternal(k: ErrorKind)
    ensures StatusOf(k) >= 500 <==> k == Internal
    ensures 400 <= StatusOf(k) < 500 <==> k != Internal
  {
  }
}
