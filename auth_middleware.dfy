/**
 * The authentication middleware (backend/src/middleware/auth.js): reading
 * the bearer token, the required check that attaches an active user or
 * admin to the request, the optional check that never rejects, and the
 * admin role check. `jwt.verify` is a parameter: what it makes of a token.
 */
module AuthMiddleware {
  import opened Wrappers
  import opened Strings
  import opened Errors
  import opened ErrorHandler
  import opened AccountModel

  // -------------------------------------------------------------------------
  // The token

  const BearerPrefix := "Bearer "

  /**
   * `req.header('Authorization')?.replace('Bearer ', '')`: the first
   * `"Bearer "` anywhere in the header is cut out.
   */
  function TokenOf(header: Option<string>): (t: Option<string>)
    ensures t.None? <==> header.None?
    ensures header.Some? && !Contains(header.value, BearerPrefix) ==> t == header
  {
    match header
    case None => None
    case Some(h) => Some(ReplaceFirst(h, BearerPrefix, ""))
  }

  /** A header of the form `Bearer <token>` yields the token. */
  lemma BearerHeaderYieldsToken(token: string)
    ensures TokenOf(Some(BearerPrefix + token)) == Some(token)
  {
    ReplaceFirstOfPrefix(BearerPrefix, token, "");
    assert "" + token == token;
  }

  /** `!token`: no header, or nothing left once the prefix is cut. */
  predicate MissingToken(t: Option<string>) {
    t.None? || t.value == []
  }

  /**
   * What `jwt.verify` makes of a token: its `id` and `type` claims (the
   * ones `generateToken({ id, type })` signs), or the name of the error it
   * throws.
   */
  datatype Verification = Decoded(id: int, kind: Option<string>) | Rejected(name: string)

  const MalformedTokenName := "JsonWebTokenError"
  const ExpiredTokenName := "TokenExpiredError"

  const NoToken := ApiError(401, "未提供认证令牌")
  const BadToken := ApiError(401, "无效的认证令牌")
  const ExpiredToken := ApiError(401, "认证令牌已过期")
  const AdminInvalid := ApiError(401, "管理员账户无效或已被禁用")
  const UserInvalid := ApiError(401, "用户账户无效或已被禁用")

  /** The catch block: the two token errors become 401s, any other error is passed on as it is. */
  function TokenFailure(name: string): (e: Thrown)
    ensures name == MalformedTokenName ==> e == Api(BadToken)
    ensures name == ExpiredTokenName ==> e == Api(ExpiredToken)
    ensures name != MalformedTokenName && name != ExpiredTokenName ==> e == Other(name, [])
    ensures e.Api? ==> e.error.statusCode == 401
  {
    if name == MalformedTokenName then Api(BadToken)
    else if name == ExpiredTokenName then Api(ExpiredToken)
    else Other(name, [])
  }

  // -------------------------------------------------------------------------
  // auth(userType)

  /** `findByPk(id)` found an account and its status is 1. */
  predicate ActiveUserAt(users: seq<User>, id: int) {
    id >= 0 && UserIndexById(users, id).Some? && IsActiveUser(users[UserIndexById(users, id).value])
  }

  predicate ActiveAdminAt(admins: seq<Admin>, id: int) {
    id >= 0 && AdminIndexById(admins, id).Some? && IsActiveAdmin(admins[AdminIndexById(admins, id).value])
  }

  /** `auth(userType)` with its default `'user'`: only `'admin'` checks the admin table. */
  predicate ForAdmins(userType: Option<string>) {
    userType == Some("admin")
  }

  /** The `type` claim of the tokens issued for the accounts `auth(userType)` admits. */
  function ExpectedKind(userType: Option<string>): string {
    if ForAdmins(userType) then "admin" else "user"
  }

  /**
   * `auth(userType)` as written: the token's `id` is looked up in the table
   * `userType` names, and its `type` claim is never read.
   */
  function AuthenticateAsWritten(users: seq<User>, admins: seq<Admin>, userType: Option<string>,
                                 header: Option<string>, verify: string -> Verification, req: Caller)
    : (r: Result<Caller, Thrown>)
    ensures r.Success? <==>
      && !MissingToken(TokenOf(header)) && verify(TokenOf(header).value).Decoded?
      && (if ForAdmins(userType) then ActiveAdminAt(admins, verify(TokenOf(header).value).id)
          else ActiveUserAt(users, verify(TokenOf(header).value).id))
    ensures r.Success? && ForAdmins(userType) ==>
      r.value.admin.Some? && r.value.admin.value.id == verify(TokenOf(header).value).id
  {
    var token := TokenOf(header);
    if MissingToken(token) then Failure(Api(NoToken))
    else match verify(token.value)
      case Rejected(name) => Failure(TokenFailure(name))
      case Decoded(id, _) =>
        if ForAdmins(userType) then
          if ActiveAdminAt(admins, id) then Success(req.(admin := Some(admins[AdminIndexById(admins, id).value])))
          else Failure(Api(AdminInvalid))
        else
          if ActiveUserAt(users, id) then Success(req.(user := Some(users[UserIndexById(users, id).value])))
          else Failure(Api(UserInvalid))
  }

  /**
   * As written, a user's token passes the admin check whenever an active
   * admin happens to have the same id as the user (both tables number their
   * rows from 1), and the request then carries that admin.
   */
  lemma AsWrittenUserTokenPassesAsAdmin(users: seq<User>, admins: seq<Admin>, header: Option<string>,
                                        verify: string -> Verification, req: Caller, id: int)
    requires !MissingToken(TokenOf(header))
    requires verify(TokenOf(header).value) == Decoded(id, Some("user"))
    requires ActiveUserAt(users, id) && ActiveAdminAt(admins, id)
    ensures AuthenticateAsWritten(users, admins, Some("admin"), header, verify, req).Success?
    ensures AuthenticateAsWritten(users, admins, Some("admin"), header, verify, req).value.admin
            == Some(admins[AdminIndexById(admins, id).value])
  {
  }

  /**
   * `auth(userType)` with the token's `type` checked: a request passes only
   * with a token that verifies, was issued for the kind of account
   * `userType` names, and carries the id of an existing account of that
   * kind with status 1; it then carries that account as `req.admin` (admin
   * type) or `req.user` (any other type), and nothing else about it changes.
   * A token of the other kind is refused as an invalid token.
   */
  function Authenticate(users: seq<User>, admins: seq<Admin>, userType: Option<string>,
                        header: Option<string>, verify: string -> Verification, req: Caller)
    : (r: Result<Caller, Thrown>)
    ensures MissingToken(TokenOf(header)) ==> r == Failure(Api(NoToken))
    ensures !MissingToken(TokenOf(header)) && verify(TokenOf(header).value).Rejected? ==>
      r == Failure(TokenFailure(verify(TokenOf(header).value).name))
    ensures r.Success? <==>
      && !MissingToken(TokenOf(header)) && verify(TokenOf(header).value).Decoded?
      && verify(TokenOf(header).value).kind == Some(ExpectedKind(userType))
      && (if ForAdmins(userType) then ActiveAdminAt(admins, verify(TokenOf(header).value).id)
          else ActiveUserAt(users, verify(TokenOf(header).value).id))
    ensures !MissingToken(TokenOf(header)) && verify(TokenOf(header).value).Decoded?
            && verify(TokenOf(header).value).kind != Some(ExpectedKind(userType)) ==>
      r == Failure(Api(BadToken))
    ensures r.Failure? && !MissingToken(TokenOf(header)) && verify(TokenOf(header).value).Decoded?
            && verify(TokenOf(header).value).kind == Some(ExpectedKind(userType)) ==>
      r.error == Api(if ForAdmins(userType) then AdminInvalid else UserInvalid)
    ensures r.Failure? && r.error.Api? ==> r.error.error.statusCode == 401
    ensures r.Success? && ForAdmins(userType) ==>
      && r.value == req.(admin := r.value.admin)
      && r.value.admin.Some? && IsActiveAdmin(r.value.admin.value)
      && r.value.admin.value.id == verify(TokenOf(header).value).id
      && r.value.admin.value in admins
    ensures r.Success? && !ForAdmins(userType) ==>
      && r.value == req.(user := r.value.user)
      && r.value.user.Some? && IsActiveUser(r.value.user.value)
      && r.value.user.value.id == verify(TokenOf(header).value).id
      && r.value.user.value in users
  {
    var token := TokenOf(header);
    if MissingToken(token) then Failure(Api(NoToken))
    else match verify(token.value)
      case Rejected(name) => Failure(TokenFailure(name))
      case Decoded(id, kind) =>
        if kind != Some(ExpectedKind(userType)) then Failure(Api(BadToken))
        else if ForAdmins(userType) then
          if ActiveAdminAt(admins, id) then Success(req.(admin := Some(admins[AdminIndexById(admins, id).value])))
          else Failure(Api(AdminInvalid))
        else
          if ActiveUserAt(users, id) then Success(req.(user := Some(users[UserIndexById(users, id).value])))
          else Failure(Api(UserInvalid))
  }

  /**
   * Where the corrected check admits a request, the check as written admits
   * it too and attaches the same account: the correction only refuses more.
   */
  lemma CorrectionOnlyRefuses(users: seq<User>, admins: seq<Admin>, userType: Option<string>,
                              header: Option<string>, verify: string -> Verification, req: Caller)
    requires Authenticate(users, admins, userType, header, verify, req).Success?
    ensures AuthenticateAsWritten(users, admins, userType, header, verify, req)
            == Authenticate(users, admins, userType, header, verify, req)
  {
  }

  // -------------------------------------------------------------------------
  // optionalAuth

  /**
   * `optionalAuth` as written: never rejects, and attaches the active user
   * whose id the token carries, whatever kind of account it was issued for.
   */
  function OptionalAuthAsWritten(users: seq<User>, header: Option<string>, verify: string -> Verification,
                                 req: Caller): (r: Caller)
    ensures r == req || r == req.(user := r.user)
    ensures (!MissingToken(TokenOf(header)) && verify(TokenOf(header).value).Decoded?
             && ActiveUserAt(users, verify(TokenOf(header).value).id)) ==> r.user.Some?
  {
    var token := TokenOf(header);
    if MissingToken(token) then req
    else match verify(token.value)
      case Rejected(_) => req
      case Decoded(id, _) =>
        if ActiveUserAt(users, id) then req.(user := Some(users[UserIndexById(users, id).value])) else req
  }

  /** As written, an admin's token makes a guest request carry the user with the admin's id. */
  lemma AsWrittenAdminTokenActsAsUser(users: seq<User>, header: Option<string>,
                                      verify: string -> Verification, req: Caller, id: int)
    requires req.user.None?
    requires !MissingToken(TokenOf(header))
    requires verify(TokenOf(header).value) == Decoded(id, Some("admin"))
    requires ActiveUserAt(users, id)
    ensures OptionalAuthAsWritten(users, header, verify, req).user == Some(users[UserIndexById(users, id).value])
  {
  }

  /**
   * `optionalAuth` with the token's `type` checked: it never rejects. The
   * request gains `req.user` only when the token verifies as a user token
   * to an existing active user; otherwise, whatever went wrong, it
   * continues unchanged as a guest request.
   */
  function OptionalAuth(users: seq<User>, header: Option<string>, verify: string -> Verification, req: Caller)
    : (r: Caller)
    ensures r == req || r == req.(user := r.user)
    ensures r != req ==>
      && !MissingToken(TokenOf(header)) && verify(TokenOf(header).value).Decoded?
      && verify(TokenOf(header).value).kind == Some("user")
      && r.user.Some? && IsActiveUser(r.user.value) && r.user.value in users
      && r.user.value.id == verify(TokenOf(header).value).id
    ensures (!MissingToken(TokenOf(header)) && verify(TokenOf(header).value).Decoded?
             && verify(TokenOf(header).value).kind == Some("user")
             && ActiveUserAt(users, verify(TokenOf(header).value).id)) ==> r.user.Some?
  {
    var token := TokenOf(header);
    if MissingToken(token) then req
    else match verify(token.value)
      case Rejected(_) => req
      case Decoded(id, kind) =>
        if kind == Some("user") && ActiveUserAt(users, id) then req.(user := Some(users[UserIndexById(users, id).value]))
        else req
  }

  /** Where `auth()` would admit a user, `optionalAuth` attaches the same one. */
  lemma OptionalAgreesWithRequired(users: seq<User>, admins: seq<Admin>, header: Option<string>,
                                   verify: string -> Verification, req: Caller)
    requires Authenticate(users, admins, None, header, verify, req).Success?
    ensures OptionalAuth(users, header, verify, req) == Authenticate(users, admins, None, header, verify, req).value
  {
  }

  // -------------------------------------------------------------------------
  // checkRole(roles)

  /** `checkRole`'s argument: one role name or a list of them. */
  datatype Roles = OneRole(role: string) | RoleList(roles: seq<string>)

  const AdminRequired := ApiError(401, "需要管理员权限")
  const NoPermission := ApiError(403, "权限不足")

  /**
   * `checkRole(roles)`: 401 without an admin on the request, 403 for an
   * admin whose role is not listed; a single role name means the list of
   * that one name.
   */
  method CheckRole(roles: Roles, req: Caller) returns (r: Result<(), ApiError>)
    ensures req.admin.None? ==> r == Failure(AdminRequired)
    ensures req.admin.Some? && roles.OneRole? ==> (r.Success? <==> req.admin.value.role == roles.role)
    ensures req.admin.Some? && roles.RoleList? ==> (r.Success? <==> req.admin.value.role in roles.roles)
    ensures req.admin.Some? && r.Failure? ==> r.error == NoPermission
  {
    if req.admin.None? {
      return Failure(AdminRequired);
    }
    var allowed: seq<string>;
    if roles.OneRole? {
      allowed := [roles.role];
    } else {
      allowed := roles.roles;
    }
    if req.admin.value.role !in allowed {
      return Failure(NoPermission);
    }
    return Success(());
  }
}
