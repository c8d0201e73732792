/**
 * The frontend's HTTP client (frontend/src/api/index.js): the request
 * interceptor that attaches the bearer token from the `token` cookie, the
 * response interceptor that unwraps `{ success, message, data }`, and the
 * error interceptor that picks the message shown to the visitor, ends the
 * session on a 401 and always rejects. The transport, the toast widget and
 * the endpoint wrappers are not modelled.
 */
module ApiClient {
  import opened Wrappers
  import opened Js
  import opened Strings
  import opened UserStore
  import opened ErrorHandler
  import AuthMiddleware

  // -------------------------------------------------------------------------
  // Request interceptor

  const AuthorizationHeader := "Authorization"

  /** The outgoing request's `config`; only its headers matter here. */
  class RequestConfig {
    var headers: map<string, string>

    constructor(headers0: map<string, string>)
      ensures headers == headers0
    {
      headers := headers0;
    }
  }

  /** `Cookies.get('token')` is set and not empty. */
  predicate HasToken(cookies: map<string, string>) {
    TokenCookie in cookies && cookies[TokenCookie] != ""
  }

  /**
   * The request interceptor: with a token cookie, `Authorization` becomes
   * `Bearer <token>`, and the server's middleware reads back exactly that
   * token; without one the headers are left as they were.
   */
  method AttachToken(config: RequestConfig, cookies: map<string, string>)
    modifies config
    ensures HasToken(cookies) ==>
      config.headers == old(config.headers)[AuthorizationHeader := AuthMiddleware.BearerPrefix + cookies[TokenCookie]]
    ensures !HasToken(cookies) ==> config.headers == old(config.headers)
    ensures HasToken(cookies) ==>
      AuthMiddleware.TokenOf(Some(config.headers[AuthorizationHeader])) == Some(cookies[TokenCookie])
  {
    if HasToken(cookies) {
      var token := cookies[TokenCookie];
      config.headers := config.headers[AuthorizationHeader := AuthMiddleware.BearerPrefix + token];
      AuthMiddleware.BearerHeaderYieldsToken(token);
    }
  }

  // -------------------------------------------------------------------------
  // Response interceptor, success path

  const RequestFailed := "请求失败"

  /** `response.data` as the server sends it. */
  datatype Body = Body(success: JsValue, message: JsValue, data: JsValue)

  /** What a request resolves to: `{ data, message }`. */
  datatype Resolved = Resolved(data: JsValue, message: JsValue)

  /** `message || '请求失败'`, as `new Error` turns it into text. */
  function MessageOr(message: JsValue, fallback: string): (s: string)
    ensures Truthy(message) && message.Str? ==> s == message.s
    ensures !Truthy(message) ==> s == fallback
    ensures fallback != "" ==> s != ""
  {
    if Truthy(message) then ToJsString(message) else fallback
  }

  /**
   * A body whose `success` is truthy resolves to its data and message;
   * any other body is rejected with its message, or `'请求失败'` without one,
   * which is also what the visitor is shown.
   */
  function Unwrap(body: Body): (r: Result<Resolved, string>)
    ensures r.Success? <==> Truthy(body.success)
    ensures r.Success? ==> r.value.data == body.data && r.value.message == body.message
    ensures r.Failure? ==> r.error != ""
    ensures r.Failure? && body.message.Str? && body.message.s != "" ==> r.error == body.message.s
    ensures r.Failure? && !Truthy(body.message) ==> r.error == RequestFailed
  {
    if Truthy(body.success) then Success(Resolved(body.data, body.message))
    else Failure(MessageOr(body.message, RequestFailed))
  }

  // -------------------------------------------------------------------------
  // Response interceptor, error path

  /** `error.response.data`: absent, or a body with a `message` key. */
  datatype ResponseData = NoData | WithMessage(message: JsValue)

  /** What axios rejects with: a response with a status, or none and an error code. */
  datatype HttpError = WithResponse(status: int, data: ResponseData) | NoResponse(code: Option<string>)

  const SessionExpired := "登录已过期，请重新登录"
  const PermissionDenied := "权限不足"
  const ResourceMissing := "请求的资源不存在"
  const ServerFailed := "服务器内部错误"
  const TimedOut := "请求超时"
  const NetworkFailed := "网络错误"
  const TimeoutCode := "ECONNABORTED"
  const LoginPath := "/auth/login"

  /** The message for a failed request, by its status or its error code. */
  function ErrorMessage(err: HttpError): string {
    match err
    case WithResponse(status, data) =>
      if status == 401 then SessionExpired
      else if status == 403 then PermissionDenied
      else if status == 404 then ResourceMissing
      else if status == 500 then ServerFailed
      else if data.WithMessage? && Truthy(data.message) then ToJsString(data.message)
      else RequestFailed
    case NoResponse(code) =>
      if code == Some(TimeoutCode) then TimedOut else NetworkFailed
  }

  /** What the error interceptor did: the message it showed, where it navigated, what it rejected with. */
  datatype Rejection = Rejection(shown: string, navigatedTo: Option<string>, error: HttpError)

  /**
   * The error interceptor: shows `ErrorMessage(err)`, and on a 401 also
   * clears the session and goes to the login page; the store is left alone
   * otherwise. It never resolves: the original error is rejected.
   */
  method OnError(err: HttpError, store: Store) returns (r: Rejection)
    modifies store
    ensures r.error == err
    ensures r.shown == ErrorMessage(err)
    ensures err.WithResponse? && err.status == 401 ==>
      && r.navigatedTo == Some(LoginPath)
      && store.token.None? && store.user.None? && store.admin.None?
      && store.cookies == old(store.cookies) - {TokenCookie}
      && store.storage == old(store.storage) - {UserKey, AdminKey}
    ensures !(err.WithResponse? && err.status == 401) ==>
      && r.navigatedTo.None?
      && store.token == old(store.token) && store.user == old(store.user) && store.admin == old(store.admin)
      && store.cookies == old(store.cookies) && store.storage == old(store.storage)
  {
    var message := RequestFailed;
    var navigatedTo: Option<string> := None;
    if err.WithResponse? {
      var status, data := err.status, err.data;
      if status == 401 {
        message := SessionExpired;
        store.ClearAuth();
        navigatedTo := Some(LoginPath);
      } else if status == 403 {
        message := PermissionDenied;
      } else if status == 404 {
        message := ResourceMissing;
      } else if status == 500 {
        message := ServerFailed;
      } else if data.WithMessage? && Truthy(data.message) {
        message := ToJsString(data.message);
      }
    } else if err.code == Some(TimeoutCode) {
      message := TimedOut;
    } else {
      message := NetworkFailed;
    }
    return Rejection(message, navigatedTo, err);
  }

  /** The four fixed statuses are shown with their own message, whatever the server said. */
  lemma FixedStatusesOverrideServer(status: int, data: ResponseData, other: ResponseData)
    requires status in {401, 403, 404, 500}
    ensures ErrorMessage(WithResponse(status, data)) == ErrorMessage(WithResponse(status, other))
    ensures ErrorMessage(WithResponse(status, data)) !in {RequestFailed, TimedOut, NetworkFailed}
  {
  }

  /** Every failed request is shown some non-empty message. */
  lemma ErrorMessageNonEmpty(err: HttpError)
    ensures ErrorMessage(err) != ""
  {
    match err
    case WithResponse(status, data) =>
      if data.WithMessage? && Truthy(data.message) {
        var m := data.message;
        if m.Num? {
          assert |IntToString(m.n)| >= 1;
        }
      }
    case NoResponse(_) =>
  }

  /** The server's error body as the client receives it. */
  function Received(resp: ErrorResponse): HttpError {
    WithResponse(resp.status, WithMessage(Str(resp.message)))
  }

  /**
   * For any thrown error the server's handler answers with a status other
   * than the four fixed ones, the visitor sees the server's message (or
   * `'请求失败'` when it is empty); for the fixed ones, the client's own.
   */
  lemma ServerMessageReachesVisitor(err: Thrown)
    ensures var resp := Handle(err);
      resp.status !in {401, 403, 404, 500} ==>
        ErrorMessage(Received(resp)) == (if resp.message != "" then resp.message else RequestFailed)
    ensures var resp := Handle(err);
      resp.status == 401 ==> ErrorMessage(Received(resp)) == SessionExpired
  {
  }
}
