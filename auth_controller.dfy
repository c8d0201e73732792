/**
 * Accounts (backend/src/controllers/authController.js): registration,
 * user and admin login, token refresh, logout, password change, and the
 * two password-reset endpoints. bcrypt's `hash` and `compare` are
 * parameters, the client address and the clock are inputs, and a token is
 * represented by the claims `generateToken` signs.
 */
module AuthController {
  import opened Wrappers
  import opened Js
  import opened Errors
  import opened ErrorHandler
  import opened AccountModel
  import opened Database
  import opened Logger

  /** A request body field in a truthiness test: absent and empty both fail. */
  predicate Given(s: Option<string>) {
    s.Some? && s.value != []
  }

  const MinPasswordLength := 6

  const MissingCredentials := BadRequestError("用户名和密码不能为空")
  const PasswordTooShort := BadRequestError("密码长度至少6位")
  const UsernameTaken := ConflictError("用户名已存在")
  const EmailInUse := ConflictError("邮箱已被使用")
  const WrongCredentials := UnauthorizedError("用户名或密码错误")
  const AccountDisabled := ForbiddenError("账户已被禁用")

  /** The claims `generateToken({ id, type })` signs. */
  datatype TokenClaims = TokenClaims(id: nat, kind: string)

  /** The reference to a missing `req.user || req.admin` the handlers make. */
  const NoAccount := Other("TypeError", [])

  // -------------------------------------------------------------------------
  // register

  datatype RegisterRequest = RegisterRequest(
    username: Option<string>, password: Option<string>, email: Option<string>, phone: Option<string>)

  /** The user a registration response shows: no password hash, no API key. */
  datatype NewUserView = NewUserView(
    id: nat, username: string, email: Option<string>, balance: int, level: string, createdAt: nat)

  datatype Registered = Registered(token: TokenClaims, user: NewUserView)

  const DefaultLevel := "普通"

  /** `users.email` holds `email`, the lookup the email check makes. */
  predicate EmailHeld(users: seq<User>, email: Option<string>) {
    Given(email) && EmailTaken(users, email.value)
  }

  /**
   * The registration guards in their order, and the row a registration
   * inserts: an active user with a fresh id, the hashed password, the given
   * contact fields, the client address, an `sk_` API key and the column
   * defaults.
   */
  function SignUp(users: seq<User>, body: RegisterRequest, hash: string -> string,
                  clientIp: Option<string>, randomHex: string, now: nat)
    : (r: Result<User, ApiError>)
    ensures !Given(body.username) || !Given(body.password) ==> r == Failure(MissingCredentials)
    ensures Given(body.username) && Given(body.password) && |body.password.value| < MinPasswordLength ==>
      r == Failure(PasswordTooShort)
    ensures (Given(body.username) && Given(body.password) && |body.password.value| >= MinPasswordLength
             && UserIndexByName(users, body.username.value).Some?) ==> r == Failure(UsernameTaken)
    ensures r.Success? <==>
      && Given(body.username) && Given(body.password) && |body.password.value| >= MinPasswordLength
      && UserIndexByName(users, body.username.value).None? && !EmailHeld(users, body.email)
    ensures r.Failure? && r.error != MissingCredentials && r.error != PasswordTooShort && r.error != UsernameTaken ==>
      r.error == EmailInUse && EmailHeld(users, body.email)
    ensures r.Success? ==>
      var u := r.value;
      && u.username == body.username.value && u.passwordHash == hash(body.password.value)
      && u.email == body.email && u.phone == body.phone
      && u.id > MaxUserId(users) && IsActiveUser(u)
      && u.balance == 0 && u.level == DefaultLevel
      && u.apiKey == Some("sk_" + randomHex) && u.regIp == clientIp
      && u.lastLoginIp.None? && u.lastLoginTime.None? && u.createdAt == now
  {
    if !Given(body.username) || !Given(body.password) then Failure(MissingCredentials)
    else if |body.password.value| < MinPasswordLength then Failure(PasswordTooShort)
    else if UserIndexByName(users, body.username.value).Some? then Failure(UsernameTaken)
    else if EmailHeld(users, body.email) then Failure(EmailInUse)
    else Success(User(MaxUserId(users) + 1, body.username.value, hash(body.password.value),
                      body.email, body.phone, 0, DefaultLevel, 1, Some("sk_" + randomHex),
                      clientIp, None, None, now))
  }

  /** The log entry's data: `{ username, email }`, where an absent email is left out. */
  function RegisterLogData(u: User): map<string, JsValue> {
    map["username" := Str(u.username)] + (if u.email.Some? then map["email" := Str(u.email.value)] else map[])
  }

  /** A new user keeps usernames and ids unique. */
  lemma AppendKeepsUsersUnique(users: seq<User>, u: User)
    requires UserIndexByName(users, u.username).None? && u.id > MaxUserId(users)
    ensures UniqueUsernames(users) ==> UniqueUsernames(users + [u])
    ensures UniqueUserIds(users) ==> UniqueUserIds(users + [u])
  {
    var all := users + [u];
    forall i | 0 <= i < |users|
      ensures all[i].username != u.username && all[i].id != u.id
    {
      assert all[i] == users[i];
    }
  }

  /**
   * `register`: on success exactly one user is added and the response
   * carries a user token and the new user without secrets; on any failure
   * nothing is stored.
   */
  method Register(db: Db, c: Caller, body: RegisterRequest, hash: string -> string,
                  clientIp: Option<string>, randomHex: string, now: nat, logFails: bool)
    returns (r: Result<Registered, ApiError>)
    modifies db`users, db`logs
    ensures var s := SignUp(old(db.users), body, hash, clientIp, randomHex, now);
      && (r.Success? <==> s.Success?)
      && (s.Failure? ==> r == Failure(s.error) && db.users == old(db.users) && db.logs == old(db.logs))
      && (s.Success? ==>
        && db.users == old(db.users) + [s.value]
        && r.value.token == TokenClaims(s.value.id, "user")
        && r.value.user == NewUserView(s.value.id, s.value.username, s.value.email, 0, DefaultLevel, now)
        && (!logFails ==>
              db.logs == old(db.logs) + [EntryFor(c, "register", Some("user"), Some(s.value.id), Some(RegisterLogData(s.value)))])
        && (logFails ==> db.logs == old(db.logs)))
    ensures old(db.Valid()) ==> db.Valid()
  {
    var s := SignUp(db.users, body, hash, clientIp, randomHex, now);
    if s.Failure? {
      return Failure(s.error);
    }
    var u := s.value;
    AppendKeepsUsersUnique(db.users, u);
    db.users := db.users + [u];
    LogAction(db, c, "register", Some("user"), Some(u.id), Some(RegisterLogData(u)), logFails);
    r := Success(Registered(TokenClaims(u.id, "user"), NewUserView(u.id, u.username, u.email, u.balance, u.level, u.createdAt)));
  }

  // -------------------------------------------------------------------------
  // login and adminLogin

  datatype Credentials = Credentials(username: Option<string>, password: Option<string>)

  /**
   * The login guards: both fields given, a user with that name, an active
   * account, then the password. Yields the user's row position.
   */
  function SignIn(users: seq<User>, body: Credentials, compare: (string, string) -> bool)
    : (r: Result<nat, ApiError>)
    ensures !Given(body.username) || !Given(body.password) ==> r == Failure(MissingCredentials)
    ensures Given(body.username) && Given(body.password) ==>
      match UserIndexByName(users, body.username.value)
      case None => r == Failure(WrongCredentials)
      case Some(i) =>
        if !IsActiveUser(users[i]) then r == Failure(AccountDisabled)
        else if !compare(body.password.value, users[i].passwordHash) then r == Failure(WrongCredentials)
        else r == Success(i)
    ensures r.Success? ==>
      && r.value < |users| && users[r.value].username == body.username.value
      && IsActiveUser(users[r.value]) && compare(body.password.value, users[r.value].passwordHash)
  {
    if !Given(body.username) || !Given(body.password) then Failure(MissingCredentials)
    else match UserIndexByName(users, body.username.value)
      case None => Failure(WrongCredentials)
      case Some(i) =>
        if !IsActiveUser(users[i]) then Failure(AccountDisabled)
        else if !compare(body.password.value, users[i].passwordHash) then Failure(WrongCredentials)
        else Success(i)
  }

  /** An unknown username and a wrong password get the very same answer. */
  lemma UnknownUserLooksLikeWrongPassword(users1: seq<User>, users2: seq<User>, body: Credentials,
                                          compare: (string, string) -> bool)
    requires Given(body.username) && Given(body.password)
    requires UserIndexByName(users1, body.username.value).None?
    requires UserIndexByName(users2, body.username.value).Some?
    requires IsActiveUser(users2[UserIndexByName(users2, body.username.value).value])
    requires !compare(body.password.value, users2[UserIndexByName(users2, body.username.value).value].passwordHash)
    ensures SignIn(users1, body, compare) == SignIn(users2, body, compare)
  {
  }

  /** A disabled account is refused before the password is looked at: any password gets the same 403. */
  lemma DisabledIgnoresPassword(users: seq<User>, name: string, p1: string, p2: string,
                                compare: (string, string) -> bool)
    requires name != [] && p1 != [] && p2 != []
    requires UserIndexByName(users, name).Some? && !IsActiveUser(users[UserIndexByName(users, name).value])
    ensures SignIn(users, Credentials(Some(name), Some(p1)), compare) == Failure(AccountDisabled)
    ensures SignIn(users, Credentials(Some(name), Some(p2)), compare) == Failure(AccountDisabled)
  {
  }

  /** The user a login response shows, with the API key but no password hash. */
  datatype LoginUserView = LoginUserView(
    id: nat, username: string, email: Option<string>, balance: int, level: string, apiKey: Option<string>)

  datatype LoggedIn = LoggedIn(token: TokenClaims, user: LoginUserView)

  /** The row after `user.update({ last_login_ip, last_login_time })`. */
  function AfterUserLogin(u: User, clientIp: Option<string>, now: nat): User {
    u.(lastLoginIp := clientIp, lastLoginTime := Some(now))
  }

  /** Recording a login changes neither usernames nor ids. */
  lemma UserLoginKeepsUnique(users: seq<User>, i: nat, u: User)
    requires i < |users| && u.username == users[i].username && u.id == users[i].id
    ensures UniqueUsernames(users) ==> UniqueUsernames(users[i := u])
    ensures UniqueUserIds(users) ==> UniqueUserIds(users[i := u])
  {
  }

  /** An admin's last-login update keeps admin usernames and ids unique. */
  lemma AdminLoginKeepsUnique(admins: seq<Admin>, i: nat, a: Admin)
    requires i < |admins| && a.username == admins[i].username && a.id == admins[i].id
    ensures UniqueAdminUsernames(admins) ==> UniqueAdminUsernames(admins[i := a])
    ensures UniqueAdminIds(admins) ==> UniqueAdminIds(admins[i := a])
  {
  }

  /**
   * `login`: on success only that user's last-login address and time
   * change, and the response carries a user token; on failure nothing changes.
   */
  method Login(db: Db, c: Caller, body: Credentials, compare: (string, string) -> bool,
               clientIp: Option<string>, now: nat, logFails: bool)
    returns (r: Result<LoggedIn, ApiError>)
    modifies db`users, db`logs
    ensures var s := SignIn(old(db.users), body, compare);
      && (r.Success? <==> s.Success?)
      && (s.Failure? ==> r == Failure(s.error) && db.users == old(db.users) && db.logs == old(db.logs))
      && (s.Success? ==>
        var u := old(db.users)[s.value];
        && db.users == old(db.users)[s.value := AfterUserLogin(u, clientIp, now)]
        && r.value == LoggedIn(TokenClaims(u.id, "user"),
                               LoginUserView(u.id, u.username, u.email, u.balance, u.level, u.apiKey))
        && (!logFails ==>
              db.logs == old(db.logs) + [EntryFor(c, "login", Some("user"), Some(u.id), Some(map["username" := Str(u.username)]))])
        && (logFails ==> db.logs == old(db.logs)))
    ensures old(db.Valid()) ==> db.Valid()
  {
    var s := SignIn(db.users, body, compare);
    if s.Failure? {
      return Failure(s.error);
    }
    var i := s.value;
    var u := db.users[i];
    UserLoginKeepsUnique(db.users, i, AfterUserLogin(u, clientIp, now));
    db.users := db.users[i := AfterUserLogin(u, clientIp, now)];
    LogAction(db, c, "login", Some("user"), Some(u.id), Some(map["username" := Str(u.username)]), logFails);
    r := Success(LoggedIn(TokenClaims(u.id, "user"), LoginUserView(u.id, u.username, u.email, u.balance, u.level, u.apiKey)));
  }

  /** `adminLogin`'s guards: the same chain over the admin table. */
  function AdminSignIn(admins: seq<Admin>, body: Credentials, compare: (string, string) -> bool)
    : (r: Result<nat, ApiError>)
    ensures !Given(body.username) || !Given(body.password) ==> r == Failure(MissingCredentials)
    ensures Given(body.username) && Given(body.password) ==>
      match AdminIndexByName(admins, body.username.value)
      case None => r == Failure(WrongCredentials)
      case Some(i) =>
        if !IsActiveAdmin(admins[i]) then r == Failure(AccountDisabled)
        else if !compare(body.password.value, admins[i].passwordHash) then r == Failure(WrongCredentials)
        else r == Success(i)
    ensures r.Success? ==>
      && r.value < |admins| && admins[r.value].username == body.username.value
      && IsActiveAdmin(admins[r.value]) && compare(body.password.value, admins[r.value].passwordHash)
  {
    if !Given(body.username) || !Given(body.password) then Failure(MissingCredentials)
    else match AdminIndexByName(admins, body.username.value)
      case None => Failure(WrongCredentials)
      case Some(i) =>
        if !IsActiveAdmin(admins[i]) then Failure(AccountDisabled)
        else if !compare(body.password.value, admins[i].passwordHash) then Failure(WrongCredentials)
        else Success(i)
  }

  datatype AdminView = AdminView(id: nat, username: string, email: Option<string>, role: string)

  datatype AdminLoggedIn = AdminLoggedIn(token: TokenClaims, admin: AdminView)

  /**
   * `adminLogin`: on success only that admin's last-login address and time
   * change, and the response carries an admin token; on failure nothing changes.
   */
  method AdminLogin(db: Db, c: Caller, body: Credentials, compare: (string, string) -> bool,
                    clientIp: Option<string>, now: nat, logFails: bool)
    returns (r: Result<AdminLoggedIn, ApiError>)
    modifies db`admins, db`logs
    ensures var s := AdminSignIn(old(db.admins), body, compare);
      && (r.Success? <==> s.Success?)
      && (s.Failure? ==> r == Failure(s.error) && db.admins == old(db.admins) && db.logs == old(db.logs))
      && (s.Success? ==>
        var a := old(db.admins)[s.value];
        && db.admins == old(db.admins)[s.value := a.(lastLoginIp := clientIp, lastLoginTime := Some(now))]
        && r.value == AdminLoggedIn(TokenClaims(a.id, "admin"), AdminView(a.id, a.username, a.email, a.role))
        && (!logFails ==>
              db.logs == old(db.logs) + [EntryFor(c, "admin_login", Some("admin"), Some(a.id), Some(map["username" := Str(a.username)]))])
        && (logFails ==> db.logs == old(db.logs)))
    ensures old(db.Valid()) ==> db.Valid()
  {
    var s := AdminSignIn(db.admins, body, compare);
    if s.Failure? {
      return Failure(s.error);
    }
    var i := s.value;
    var a := db.admins[i];
    AdminLoginKeepsUnique(db.admins, i, a.(lastLoginIp := clientIp, lastLoginTime := Some(now)));
    db.admins := db.admins[i := a.(lastLoginIp := clientIp, lastLoginTime := Some(now))];
    LogAction(db, c, "admin_login", Some("admin"), Some(a.id), Some(map["username" := Str(a.username)]), logFails);
    r := Success(AdminLoggedIn(TokenClaims(a.id, "admin"), AdminView(a.id, a.username, a.email, a.role)));
  }

  // -------------------------------------------------------------------------
  // refreshToken and logout

  /** `req.user ? 'user' : 'admin'`. */
  function AccountKind(c: Caller): string {
    if c.user.Some? then "user" else "admin"
  }

  /** `(req.user || req.admin).id`, when there is either. */
  function AccountId(c: Caller): (id: Option<nat>)
    ensures id.None? <==> c.user.None? && c.admin.None?
    ensures c.user.Some? ==> id == Some(c.user.value.id)
    ensures c.user.None? && c.admin.Some? ==> id == Some(c.admin.value.id)
  {
    if c.user.Some? then Some(c.user.value.id)
    else if c.admin.Some? then Some(c.admin.value.id)
    else None
  }

  /**
   * `refreshToken`: a fresh token for the user on the request, else for the
   * admin; with neither, the handler fails on the missing account.
   */
  function RefreshToken(c: Caller): (r: Result<TokenClaims, Thrown>)
    ensures c.user.Some? ==> r == Success(TokenClaims(c.user.value.id, "user"))
    ensures c.user.None? && c.admin.Some? ==> r == Success(TokenClaims(c.admin.value.id, "admin"))
    ensures c.user.None? && c.admin.None? ==> r == Failure(NoAccount)
  {
    match AccountId(c)
    case None => Failure(NoAccount)
    case Some(id) => Success(TokenClaims(id, AccountKind(c)))
  }

  /**
   * `logout`: records one `logout` entry whose resource is the account
   * kind and whose resource id is the account's id; no token is revoked.
   */
  method Logout(db: Db, c: Caller, logFails: bool) returns (r: Result<(), Thrown>)
    modifies db`logs
    ensures AccountId(c).None? ==> r == Failure(NoAccount) && db.logs == old(db.logs)
    ensures AccountId(c).Some? ==> r == Success(())
    ensures AccountId(c).Some? && !logFails ==>
      db.logs == old(db.logs) + [EntryFor(c, "logout", Some(AccountKind(c)), AccountId(c), None)]
    ensures logFails ==> db.logs == old(db.logs)
  {
    var id := AccountId(c);
    if id.None? {
      return Failure(NoAccount);
    }
    LogAction(db, c, "logout", Some(AccountKind(c)), id, None, logFails);
    r := Success(());
  }

  // -------------------------------------------------------------------------
  // changePassword

  datatype PasswordChange = PasswordChange(oldPassword: Option<string>, newPassword: Option<string>)

  const MissingPasswords := BadRequestError("旧密码和新密码不能为空")
  const NewPasswordTooShort := BadRequestError("新密码长度至少6位")
  const WrongOldPassword := UnauthorizedError("旧密码错误")

  /** The stored hash of the account on the request (`req.user || req.admin`). */
  function CallerHash(c: Caller): Option<string> {
    if c.user.Some? then Some(c.user.value.passwordHash)
    else if c.admin.Some? then Some(c.admin.value.passwordHash)
    else None
  }

  /** The `changePassword` guards, in order. */
  function PasswordCheck(c: Caller, body: PasswordChange, compare: (string, string) -> bool)
    : (r: Result<(), Thrown>)
    ensures r.Success? <==>
      && Given(body.oldPassword) && Given(body.newPassword) && |body.newPassword.value| >= MinPasswordLength
      && CallerHash(c).Some? && compare(body.oldPassword.value, CallerHash(c).value)
    ensures !Given(body.oldPassword) || !Given(body.newPassword) ==> r == Failure(Api(MissingPasswords))
    ensures Given(body.oldPassword) && Given(body.newPassword) && |body.newPassword.value| < MinPasswordLength ==>
      r == Failure(Api(NewPasswordTooShort))
    ensures Given(body.oldPassword) && Given(body.newPassword) && |body.newPassword.value| >= MinPasswordLength ==>
      (CallerHash(c).None? ==> r == Failure(NoAccount))
      && (CallerHash(c).Some? && !compare(body.oldPassword.value, CallerHash(c).value) ==> r == Failure(Api(WrongOldPassword)))
  {
    if !Given(body.oldPassword) || !Given(body.newPassword) then Failure(Api(MissingPasswords))
    else if |body.newPassword.value| < MinPasswordLength then Failure(Api(NewPasswordTooShort))
    else match CallerHash(c)
      case None => Failure(NoAccount)
      case Some(h) => if !compare(body.oldPassword.value, h) then Failure(Api(WrongOldPassword)) else Success(())
  }

  /** `User.update({ password: h }, { where: { id } })`: every row with that id gets the new hash. */
  function SetUserPassword(users: seq<User>, id: nat, h: string): (r: seq<User>)
    ensures |r| == |users|
    ensures forall i :: 0 <= i < |users| ==>
      r[i] == if users[i].id == id then users[i].(passwordHash := h) else users[i]
  {
    if users == [] then []
    else [if users[0].id == id then users[0].(passwordHash := h) else users[0]] + SetUserPassword(users[1..], id, h)
  }

  function SetAdminPassword(admins: seq<Admin>, id: nat, h: string): (r: seq<Admin>)
    ensures |r| == |admins|
    ensures forall i :: 0 <= i < |admins| ==>
      r[i] == if admins[i].id == id then admins[i].(passwordHash := h) else admins[i]
  {
    if admins == [] then []
    else [if admins[0].id == id then admins[0].(passwordHash := h) else admins[0]] + SetAdminPassword(admins[1..], id, h)
  }

  /** Changing a hash touches neither usernames nor ids. */
  lemma SetPasswordKeepsUnique(users: seq<User>, id: nat, h: string)
    ensures UniqueUsernames(users) ==> UniqueUsernames(SetUserPassword(users, id, h))
    ensures UniqueUserIds(users) ==> UniqueUserIds(SetUserPassword(users, id, h))
  {
    var r := SetUserPassword(users, id, h);
    assert forall i :: 0 <= i < |users| ==> r[i].username == users[i].username && r[i].id == users[i].id;
  }

  /** Changing an admin's hash touches neither admin usernames nor ids. */
  lemma SetAdminPasswordKeepsUnique(admins: seq<Admin>, id: nat, h: string)
    ensures UniqueAdminUsernames(admins) ==> UniqueAdminUsernames(SetAdminPassword(admins, id, h))
    ensures UniqueAdminIds(admins) ==> UniqueAdminIds(SetAdminPassword(admins, id, h))
  {
    var r := SetAdminPassword(admins, id, h);
    assert forall i :: 0 <= i < |admins| ==> r[i].username == admins[i].username && r[i].id == admins[i].id;
  }

  /**
   * `changePassword`: only when every guard passes is the hash of the
   * caller's account replaced, in the users table for a user and in the
   * admins table for an admin; otherwise nothing changes.
   */
  method ChangePassword(db: Db, c: Caller, body: PasswordChange, compare: (string, string) -> bool,
                        hash: string -> string, logFails: bool)
    returns (r: Result<(), Thrown>)
    modifies db`users, db`admins, db`logs
    ensures r == PasswordCheck(c, body, compare)
    ensures r.Failure? ==> db.users == old(db.users) && db.admins == old(db.admins) && db.logs == old(db.logs)
    ensures r.Success? && c.user.Some? ==>
      db.users == SetUserPassword(old(db.users), c.user.value.id, hash(body.newPassword.value))
      && db.admins == old(db.admins)
    ensures r.Success? && c.user.None? ==>
      db.admins == SetAdminPassword(old(db.admins), c.admin.value.id, hash(body.newPassword.value))
      && db.users == old(db.users)
    ensures r.Success? && !logFails ==>
      db.logs == old(db.logs) + [EntryFor(c, "change_password", Some(AccountKind(c)), AccountId(c), None)]
    ensures r.Success? && logFails ==> db.logs == old(db.logs)
    ensures old(db.Valid()) ==> db.Valid()
  {
    r := PasswordCheck(c, body, compare);
    if r.Failure? {
      return;
    }
    var h := hash(body.newPassword.value);
    if c.user.Some? {
      StoreUserPassword(db, c.user.value.id, h);
    } else {
      StoreAdminPassword(db, c.admin.value.id, h);
    }
    LogAction(db, c, "change_password", Some(AccountKind(c)), AccountId(c), None, logFails);
  }

  /** `User.update({ password }, { where: { id } })` on the store. */
  method StoreUserPassword(db: Db, id: nat, h: string)
    modifies db`users
    ensures db.users == SetUserPassword(old(db.users), id, h)
    ensures old(db.Valid()) ==> db.Valid()
  {
    SetPasswordKeepsUnique(db.users, id, h);
    db.users := SetUserPassword(db.users, id, h);
  }

  /** `Admin.update({ password }, { where: { id } })` on the store. */
  method StoreAdminPassword(db: Db, id: nat, h: string)
    modifies db`admins
    ensures db.admins == SetAdminPassword(old(db.admins), id, h)
    ensures old(db.Valid()) ==> db.Valid()
  {
    SetAdminPasswordKeepsUnique(db.admins, id, h);
    db.admins := SetAdminPassword(db.admins, id, h);
  }

  // -------------------------------------------------------------------------
  // forgotPassword and resetPassword

  const MissingEmail := BadRequestError("邮箱不能为空")
  const ResetLinkMaybeSent := "如果邮箱存在，重置密码链接已发送"
  const ResetLinkSent := "重置密码链接已发送到您的邮箱"

  /**
   * `forgotPassword` as written: both answers are successes, but the
   * message for a registered email differs from the one for an unknown email.
   */
  function ForgotPasswordAsWritten(users: seq<User>, email: Option<string>): (r: Result<string, ApiError>)
    ensures !Given(email) ==> r == Failure(MissingEmail)
    ensures Given(email) ==> r.Success?
  {
    if !Given(email) then Failure(MissingEmail)
    else if EmailTaken(users, email.value) then Success(ResetLinkSent)
    else Success(ResetLinkMaybeSent)
  }

  /** As written, the answer tells whether an account with that email exists. */
  lemma AsWrittenRevealsAccount(users: seq<User>, email: string)
    requires email != []
    ensures ForgotPasswordAsWritten(users, Some(email)) == Success(ResetLinkSent) <==> EmailTaken(users, email)
    ensures ForgotPasswordAsWritten(users, Some(email)) == Success(ResetLinkMaybeSent) <==> !EmailTaken(users, email)
  {
    assert ResetLinkSent != ResetLinkMaybeSent by {
      assert ResetLinkSent[0] != ResetLinkMaybeSent[0];
    }
  }

  /** `forgotPassword` as its own comment intends: one answer whether or not the email is registered. */
  function ForgotPassword(users: seq<User>, email: Option<string>): (r: Result<string, ApiError>)
    ensures !Given(email) ==> r == Failure(MissingEmail)
    ensures Given(email) ==> r == Success(ResetLinkMaybeSent)
  {
    if !Given(email) then Failure(MissingEmail) else Success(ResetLinkMaybeSent)
  }

  /** The corrected answer is the same for any two user tables. */
  lemma ForgotPasswordHidesAccount(users1: seq<User>, users2: seq<User>, email: Option<string>)
    ensures ForgotPassword(users1, email) == ForgotPassword(users2, email)
  {
  }

  datatype PasswordReset = PasswordReset(token: Option<string>, newPassword: Option<string>)

  const MissingResetFields := BadRequestError("重置令牌和新密码不能为空")
  const ResetDone := "密码重置成功"

  /**
   * `resetPassword`: only the two guards; the token is never checked and
   * no table is read or written, yet it reports success.
   */
  function ResetPassword(body: PasswordReset): (r: Result<string, ApiError>)
    ensures r.Success? <==> Given(body.token) && Given(body.newPassword) && |body.newPassword.value| >= MinPasswordLength
    ensures !Given(body.token) || !Given(body.newPassword) ==> r == Failure(MissingResetFields)
    ensures Given(body.token) && Given(body.newPassword) && |body.newPassword.value| < MinPasswordLength ==>
      r == Failure(PasswordTooShort)
    ensures r.Success? ==> r.value == ResetDone
  {
    if !Given(body.token) || !Given(body.newPassword) then Failure(MissingResetFields)
    else if |body.newPassword.value| < MinPasswordLength then Failure(PasswordTooShort)
    else Success(ResetDone)
  }
}
