/**
 * The browser-side session (frontend/src/stores/user.js): the token and
 * the signed-in user or admin, mirrored into the `token` cookie and the
 * `user`/`admin` entries of local storage. The API calls the actions await
 * are inputs: what the server answered.
 */
module UserStore {
  import opened Wrappers
  import opened Js

  /** A profile object as the server sends it. */
  type Profile = map<string, JsValue>

  /**
   * A value `JSON.parse` returns: a profile object, or any other JSON value
   * (null, a boolean, a number, a string, or an array, which is an `Object`).
   */
  datatype Loaded = Record(profile: Profile) | Plain(value: JsValue)

  /**
   * A local-storage entry: text that `JSON.parse` reads as `Json(v)`, or
   * text on which it throws.
   */
  datatype Stored = Json(parsed: Loaded) | Text(text: string)

  const TokenCookie := "token"
  const UserKey := "user"
  const AdminKey := "admin"

  /** What a successful login or registration answered: `response.data`'s token and profile. */
  datatype AuthReply = AuthReply(token: string, profile: Profile)

  /** A store field as a JavaScript value: null when unset. */
  function JsOf(f: Option<Loaded>): JsValue {
    match f
    case None => Null
    case Some(Record(_)) => Object
    case Some(Plain(v)) => v
  }

  /** The field `this.x = JSON.parse(entry)` leaves: unset when the entry holds `null`. */
  function FieldOf(v: Loaded): (f: Option<Loaded>)
    ensures f.None? <==> v == Plain(Null)
    ensures f.Some? ==> f.value == v
    ensures JsOf(f) == (if v.Record? then Object else v.value)
  {
    if v == Plain(Null) then None else Some(v)
  }

  /** The own properties `{ ...v }` copies out of a loaded value. */
  function SpreadOf(v: Loaded): Profile {
    match v
    case Record(p) => p
    case Plain(_) => map[]
  }

  /** `if (entry)`: an entry that is present and not the empty string. */
  predicate Present(storage: map<string, Stored>, key: string) {
    key in storage && storage[key] != Text("")
  }

  /** Local storage never holds both a user and an admin profile. */
  predicate StorageExclusive(storage: map<string, Stored>) {
    !(Present(storage, UserKey) && Present(storage, AdminKey))
  }

  class Store {
    var token: Option<string>
    var user: Option<Loaded>
    var admin: Option<Loaded>
    var cookies: map<string, string>
    var storage: map<string, Stored>

    /** The initial state: no token, no user, no admin, over whatever the browser already holds. */
    constructor(cookies0: map<string, string>, storage0: map<string, Stored>)
      ensures token.None? && user.None? && admin.None?
      ensures cookies == cookies0 && storage == storage0
      ensures !IsLoggedIn() && !IsAdmin()
    {
      token, user, admin := None, None, None;
      cookies, storage := cookies0, storage0;
    }

    /** `isLoggedIn`: `!!state.token`, so a set token counts only when it is not empty. */
    predicate IsLoggedIn(): (b: bool)
      reads this
      ensures b <==> Truthy(if token.Some? then Str(token.value) else Null)
    {
      token.Some? && token.value != ""
    }

    /** `isAdmin`: `!!state.admin`; a profile object is always truthy, a loaded plain value only when JavaScript says so. */
    predicate IsAdmin(): (b: bool)
      reads this
      ensures b <==> Truthy(JsOf(admin))
      ensures admin.Some? && admin.value.Record? ==> b
      ensures admin.None? ==> !b
    {
      match admin
      case None => false
      case Some(Record(_)) => true
      case Some(Plain(v)) => Truthy(v)
    }

    /** `userInfo`: `state.user || state.admin`, the user when truthy, else the admin. */
    function UserInfo(): (p: Option<Loaded>)
      reads this
      ensures Truthy(JsOf(p)) <==> Truthy(JsOf(user)) || Truthy(JsOf(admin))
      ensures Truthy(JsOf(user)) ==> p == user
      ensures !Truthy(JsOf(user)) ==> p == admin
    {
      if user.Some? && (user.value.Record? || Truthy(user.value.value)) then user else admin
    }

    /** At most one of user and admin is signed in. */
    ghost predicate Exclusive()
      reads this
    {
      !(user.Some? && admin.Some?)
    }

    /** The cookie and local storage hold exactly the session's token and profiles. */
    ghost predicate Persisted()
      reads this
    {
      && (TokenCookie in cookies <==> token.Some?)
      && (token.Some? ==> cookies[TokenCookie] == token.value)
      && (UserKey in storage <==> user.Some?)
      && (user.Some? ==> user.value != Plain(Null) && storage[UserKey] == Json(user.value))
      && (AdminKey in storage <==> admin.Some?)
      && (admin.Some? ==> admin.value != Plain(Null) && storage[AdminKey] == Json(admin.value))
    }

    /**
     * `initUserState`: load whatever the cookie and local storage hold. A
     * present entry takes whatever `JSON.parse` gives, a profile or any other
     * JSON value (`null` unsets the field), and stays in storage; only an
     * entry on which the parse throws is removed. Absent or empty entries
     * leave the field as it was. Both a user and an admin may be loaded.
     */
    method InitUserState()
      modifies this
      ensures cookies == old(cookies)
      ensures token == (if TokenCookie in cookies && cookies[TokenCookie] != "" then Some(cookies[TokenCookie]) else old(token))
      ensures user == (if Present(old(storage), UserKey) && old(storage)[UserKey].Json?
                       then FieldOf(old(storage)[UserKey].parsed) else old(user))
      ensures admin == (if Present(old(storage), AdminKey) && old(storage)[AdminKey].Json?
                        then FieldOf(old(storage)[AdminKey].parsed) else old(admin))
      ensures forall k :: k in storage <==>
        (k in old(storage) && !(k in {UserKey, AdminKey} && Present(old(storage), k) && old(storage)[k].Text?))
      ensures forall k :: k in storage ==> storage[k] == old(storage)[k]
      ensures old(Persisted()) ==> token == old(token) && user == old(user) && admin == old(admin) && storage == old(storage)
    {
      if TokenCookie in cookies && cookies[TokenCookie] != "" {
        token := Some(cookies[TokenCookie]);
      }
      if Present(storage, UserKey) {
        match storage[UserKey]
        case Json(v) => user := FieldOf(v);
        case Text(_) => storage := storage - {UserKey};
      }
      if Present(storage, AdminKey) {
        match storage[AdminKey]
        case Json(v) => admin := FieldOf(v);
        case Text(_) => storage := storage - {AdminKey};
      }
    }

    /**
     * `login`: on a successful answer, token and user are set and admin is
     * cleared, the cookie and the `user` entry are written and the `admin`
     * entry removed; a failed answer is rethrown with nothing changed.
     */
    method Login(reply: Result<AuthReply, string>) returns (r: Result<AuthReply, string>)
      modifies this
      ensures r == reply
      ensures reply.Failure? ==> token == old(token) && user == old(user) && admin == old(admin)
                                 && cookies == old(cookies) && storage == old(storage)
      ensures reply.Success? ==>
        && token == Some(reply.value.token) && user == Some(Record(reply.value.profile)) && admin.None?
        && cookies == old(cookies)[TokenCookie := reply.value.token]
        && storage == (old(storage) - {AdminKey})[UserKey := Json(Record(reply.value.profile))]
      ensures reply.Success? ==> Exclusive()
      ensures reply.Success? && old(Persisted()) ==> Persisted()
      ensures old(Exclusive()) ==> Exclusive()
    {
      r := reply;
      if reply.Failure? {
        return;
      }
      token := Some(reply.value.token);
      user := Some(Record(reply.value.profile));
      admin := None;
      cookies := cookies[TokenCookie := reply.value.token];
      storage := storage[UserKey := Json(Record(reply.value.profile))];
      storage := storage - {AdminKey};
    }

    /**
     * `register` as written: like `login`, except that a stored `admin`
     * entry is left in place.
     */
    method RegisterAsWritten(reply: Result<AuthReply, string>) returns (r: Result<AuthReply, string>)
      modifies this
      ensures r == reply
      ensures reply.Failure? ==> token == old(token) && user == old(user) && admin == old(admin)
                                 && cookies == old(cookies) && storage == old(storage)
      ensures reply.Success? ==>
        && token == Some(reply.value.token) && user == Some(Record(reply.value.profile)) && admin.None?
        && cookies == old(cookies)[TokenCookie := reply.value.token]
        && storage == old(storage)[UserKey := Json(Record(reply.value.profile))]
    {
      r := reply;
      if reply.Failure? {
        return;
      }
      token := Some(reply.value.token);
      user := Some(Record(reply.value.profile));
      admin := None;
      cookies := cookies[TokenCookie := reply.value.token];
      storage := storage[UserKey := Json(Record(reply.value.profile))];
    }

    /** `register` with the `admin` entry removed as `login` removes it, so storage keeps mirroring the session. */
    method Register(reply: Result<AuthReply, string>) returns (r: Result<AuthReply, string>)
      modifies this
      ensures r == reply
      ensures reply.Failure? ==> token == old(token) && user == old(user) && admin == old(admin)
                                 && cookies == old(cookies) && storage == old(storage)
      ensures reply.Success? ==>
        && token == Some(reply.value.token) && user == Some(Record(reply.value.profile)) && admin.None?
        && cookies == old(cookies)[TokenCookie := reply.value.token]
        && storage == (old(storage) - {AdminKey})[UserKey := Json(Record(reply.value.profile))]
      ensures reply.Success? ==> Exclusive()
      ensures reply.Success? && old(Persisted()) ==> Persisted()
      ensures old(Exclusive()) ==> Exclusive()
    {
      r := reply;
      if reply.Failure? {
        return;
      }
      token := Some(reply.value.token);
      user := Some(Record(reply.value.profile));
      admin := None;
      cookies := cookies[TokenCookie := reply.value.token];
      storage := storage[UserKey := Json(Record(reply.value.profile))];
      storage := storage - {AdminKey};
    }

    /**
     * `adminLogin`: on a successful answer, token and admin are set and user
     * is cleared, the cookie and the `admin` entry are written and the
     * `user` entry removed; a failed answer is rethrown with nothing changed.
     */
    method AdminLogin(reply: Result<AuthReply, string>) returns (r: Result<AuthReply, string>)
      modifies this
      ensures r == reply
      ensures reply.Failure? ==> token == old(token) && user == old(user) && admin == old(admin)
                                 && cookies == old(cookies) && storage == old(storage)
      ensures reply.Success? ==>
        && token == Some(reply.value.token) && admin == Some(Record(reply.value.profile)) && user.None?
        && cookies == old(cookies)[TokenCookie := reply.value.token]
        && storage == (old(storage) - {UserKey})[AdminKey := Json(Record(reply.value.profile))]
      ensures reply.Success? ==> Exclusive() && IsAdmin()
      ensures reply.Success? && old(Persisted()) ==> Persisted()
      ensures old(Exclusive()) ==> Exclusive()
    {
      r := reply;
      if reply.Failure? {
        return;
      }
      token := Some(reply.value.token);
      admin := Some(Record(reply.value.profile));
      user := None;
      cookies := cookies[TokenCookie := reply.value.token];
      storage := storage[AdminKey := Json(Record(reply.value.profile))];
      storage := storage - {UserKey};
    }

    /** `clearAuth`: forget the session and its cookie and storage entries. */
    method ClearAuth()
      modifies this
      ensures token.None? && user.None? && admin.None?
      ensures cookies == old(cookies) - {TokenCookie}
      ensures storage == old(storage) - {UserKey, AdminKey}
      ensures !IsLoggedIn() && !IsAdmin() && Exclusive()
      ensures old(Persisted()) ==> Persisted()
    {
      token, user, admin := None, None, None;
      cookies := cookies - {TokenCookie};
      storage := storage - {UserKey, AdminKey};
    }

    /**
     * `logout`: whatever the server answers, the session ends cleared; the
     * answer itself is not an input because it is ignored.
     */
    method Logout()
      modifies this
      ensures token.None? && user.None? && admin.None?
      ensures cookies == old(cookies) - {TokenCookie}
      ensures storage == old(storage) - {UserKey, AdminKey}
    {
      ClearAuth();
    }

    /**
     * `updateUser`: when the user is truthy, `{ ...this.user, ...data }`
     * with the new values winning, written back to storage; nothing happens
     * otherwise.
     */
    method UpdateUser(data: Profile)
      modifies this
      ensures token == old(token) && admin == old(admin) && cookies == old(cookies)
      ensures !Truthy(JsOf(old(user))) ==> user == old(user) && storage == old(storage)
      ensures Truthy(JsOf(old(user))) ==>
        && user.Some? && user.value.Record?
        && user.value.profile.Keys == SpreadOf(old(user).value).Keys + data.Keys
        && (forall k :: k in data ==> user.value.profile[k] == data[k])
        && (forall k :: k in SpreadOf(old(user).value) && k !in data ==> user.value.profile[k] == SpreadOf(old(user).value)[k])
        && storage == old(storage)[UserKey := Json(user.value)]
      ensures old(user).Some? && old(user).value.Record? ==> user.Some? && user.value.profile.Keys >= old(user).value.profile.Keys
      ensures old(Exclusive()) ==> Exclusive()
      ensures old(Persisted()) ==> Persisted()
    {
      if user.Some? && (user.value.Record? || Truthy(user.value.value)) {
        user := Some(Record(SpreadOf(user.value) + data));
        storage := storage[UserKey := Json(user.value)];
      }
    }

    /**
     * `updateAdmin`: when the admin is truthy, `{ ...this.admin, ...data }`
     * with the new values winning, written back to storage; nothing happens
     * otherwise.
     */
    method UpdateAdmin(data: Profile)
      modifies this
      ensures token == old(token) && user == old(user) && cookies == old(cookies)
      ensures !Truthy(JsOf(old(admin))) ==> admin == old(admin) && storage == old(storage)
      ensures Truthy(JsOf(old(admin))) ==>
        && admin.Some? && admin.value.Record?
        && admin.value.profile.Keys == SpreadOf(old(admin).value).Keys + data.Keys
        && (forall k :: k in data ==> admin.value.profile[k] == data[k])
        && (forall k :: k in SpreadOf(old(admin).value) && k !in data ==> admin.value.profile[k] == SpreadOf(old(admin).value)[k])
        && storage == old(storage)[AdminKey := Json(admin.value)]
      ensures old(admin).Some? && old(admin).value.Record? ==> admin.Some? && admin.value.profile.Keys >= old(admin).value.profile.Keys
      ensures old(Exclusive()) ==> Exclusive()
      ensures old(Persisted()) ==> Persisted()
    {
      if admin.Some? && (admin.value.Record? || Truthy(admin.value.value)) {
        admin := Some(Record(SpreadOf(admin.value) + data));
        storage := storage[AdminKey := Json(admin.value)];
      }
    }
  }

  /**
   * A page load over storage that never holds both profiles signs in at
   * most one of user and admin.
   */
  method Reload(cookies: map<string, string>, storage: map<string, Stored>) returns (s: Store)
    requires StorageExclusive(storage)
    ensures fresh(s)
    ensures s.Exclusive()
  {
    s := new Store(cookies, storage);
    s.InitUserState();
  }

  /**
   * Entries that parse to values other than objects are kept and assigned:
   * a stored admin of `1` signs in an admin whose shown account is `1`, and
   * a stored user of `null` leaves the user unset.
   */
  method LoadPlainEntries() returns (kept: bool, isAdmin: bool, shown: Option<Loaded>, user: Option<Loaded>)
    ensures kept && isAdmin
    ensures shown == Some(Plain(Num(1))) && user.None?
  {
    var s := new Store(map[], map[UserKey := Json(Plain(Null)), AdminKey := Json(Plain(Num(1)))]);
    s.InitUserState();
    kept := UserKey in s.storage && AdminKey in s.storage;
    isAdmin := s.IsAdmin();
    shown := s.UserInfo();
    user := s.user;
  }

  /**
   * With `register` as written, an admin who then registers a user account
   * and reloads the page is signed in as both: the user's token comes back
   * with the old admin profile, and `isAdmin` holds.
   */
  method StaleAdminAfterRegister() returns (userLoaded: bool, adminLoaded: bool)
    ensures userLoaded && adminLoaded
  {
    var s := new Store(map[], map[]);
    var a := s.AdminLogin(Success(AuthReply("admin-token", map["role" := Str("admin")])));
    var u := s.RegisterAsWritten(Success(AuthReply("user-token", map["username" := Str("buyer")])));
    var reloaded := new Store(s.cookies, s.storage);
    reloaded.InitUserState();
    userLoaded := reloaded.user.Some?;
    adminLoaded := reloaded.IsAdmin() && reloaded.IsLoggedIn();
  }

  /** With the corrected `register`, the same steps leave storage with the user profile only. */
  method RegisterAfterAdminLeavesUserOnly() returns (userLoaded: bool, adminLoaded: bool)
    ensures userLoaded && !adminLoaded
  {
    var s := new Store(map[], map[]);
    var a := s.AdminLogin(Success(AuthReply("admin-token", map["role" := Str("admin")])));
    var u := s.Register(Success(AuthReply("user-token", map["username" := Str("buyer")])));
    var reloaded := new Store(s.cookies, s.storage);
    reloaded.InitUserState();
    userLoaded := reloaded.user.Some?;
    adminLoaded := reloaded.IsAdmin();
  }
}
