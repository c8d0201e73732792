/**
 * The columns of `users` and `admins` (backend/src/models/User.js,
 * backend/src/models/Admin.js) that the controllers and middleware use, and
 * the authenticated identity a request carries (`req.user`, `req.admin`).
 */
module AccountModel {
  import opened Wrappers

  datatype User = User(
    id: nat,
    username: string,
    passwordHash: string,
    email: Option<string>,
    phone: Option<string>,
    balance: int,
    level: string,
    status: int,             // TINYINT: 1 active, 0 disabled
    apiKey: Option<string>,
    regIp: Option<string>,
    lastLoginIp: Option<string>,
    lastLoginTime: Option<nat>,
    createdAt: nat)

  datatype Admin = Admin(
    id: nat,
    username: string,
    passwordHash: string,
    email: Option<string>,
    role: string,            // 'super_admin' | 'admin' | 'operator'
    status: int,
    lastLoginIp: Option<string>,
    lastLoginTime: Option<nat>)

  predicate IsActiveUser(u: User) { u.status == 1 }
  predicate IsActiveAdmin(a: Admin) { a.status == 1 }

  /** What the auth middleware leaves on a request, plus the request facts the logger reads. */
  datatype Caller = Caller(user: Option<User>, admin: Option<Admin>, ip: string, userAgent: Option<string>)

  /** The unique index on `users.username`. */
  ghost predicate UniqueUsernames(users: seq<User>) {
    forall i, j :: 0 <= i < j < |users| ==> users[i].username != users[j].username
  }

  ghost predicate UniqueUserIds(users: seq<User>) {
    forall i, j :: 0 <= i < j < |users| ==> users[i].id != users[j].id
  }

  /** `User.findOne({ where: { username } })`, returning the row's position. */
  function UserIndexByName(users: seq<User>, username: string): (r: Option<nat>)
    ensures r.Some? ==> r.value < |users| && users[r.value].username == username
    ensures r.None? <==> forall i :: 0 <= i < |users| ==> users[i].username != username
  {
    if users == [] then None
    else if users[|users| - 1].username == username then Some(|users| - 1)
    else UserIndexByName(users[..|users| - 1], username)
  }

  /** `User.findOne({ where: { email } })` succeeds. */
  predicate EmailTaken(users: seq<User>, email: string) {
    exists i :: 0 <= i < |users| && users[i].email == Some(email)
  }

  /** `User.findByPk(id)`, returning the row's position. */
  function UserIndexById(users: seq<User>, id: nat): (r: Option<nat>)
    ensures r.Some? ==> r.value < |users| && users[r.value].id == id
    ensures r.None? <==> forall i :: 0 <= i < |users| ==> users[i].id != id
  {
    if users == [] then None
    else if users[|users| - 1].id == id then Some(|users| - 1)
    else UserIndexById(users[..|users| - 1], id)
  }

  function MaxUserId(users: seq<User>): (m: nat)
    ensures forall i :: 0 <= i < |users| ==> users[i].id <= m
  {
    if users == [] then 0
    else
      var m := MaxUserId(users[1..]);
      if users[0].id > m then users[0].id else m
  }

  /** The unique index on `admins.username`. */
  ghost predicate UniqueAdminUsernames(admins: seq<Admin>) {
    forall i, j :: 0 <= i < j < |admins| ==> admins[i].username != admins[j].username
  }

  /** The primary key of `admins`. */
  ghost predicate UniqueAdminIds(admins: seq<Admin>) {
    forall i, j :: 0 <= i < j < |admins| ==> admins[i].id != admins[j].id
  }

  function AdminIndexByName(admins: seq<Admin>, username: string): (r: Option<nat>)
    ensures r.Some? ==> r.value < |admins| && admins[r.value].username == username
    ensures r.None? <==> forall i :: 0 <= i < |admins| ==> admins[i].username != username
  {
    if admins == [] then None
    else if admins[|admins| - 1].username == username then Some(|admins| - 1)
    else AdminIndexByName(admins[..|admins| - 1], username)
  }

  function AdminIndexById(admins: seq<Admin>, id: nat): (r: Option<nat>)
    ensures r.Some? ==> r.value < |admins| && admins[r.value].id == id
    ensures r.None? <==> forall i :: 0 <= i < |admins| ==> admins[i].id != id
  {
    if admins == [] then None
    else if admins[|admins| - 1].id == id then Some(|admins| - 1)
    else AdminIndexById(admins[..|admins| - 1], id)
  }
}
