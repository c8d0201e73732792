/**
 * The frontend router (frontend/src/router/index.js): the route table with
 * its `meta` flags, the `beforeEach` guard that sets the page title and
 * sends visitors to the login page or home, and `scrollBehavior`. Matching
 * a URL to a route is left to vue-router and is not modelled: a navigation
 * target is given as the matched route and its full path.
 */
module Router {
  import opened Wrappers
  import opened UserStore

  // -------------------------------------------------------------------------
  // The route table

  /** A route's `meta`; an absent key is `None`. */
  datatype Meta = Meta(title: Option<string>, requiresAuth: Option<bool>, requiresAdmin: Option<bool>)

  datatype ChildRecord = ChildRecord(path: string, name: string, meta: Meta)

  /** A top-level route record; `children` are nested under its path. */
  datatype RouteRecord = RouteRecord(path: string, name: string, meta: Meta, children: seq<ChildRecord>)

  /** A route as navigation sees it: its full path pattern and its `to.meta`. */
  datatype Route = Route(path: string, name: string, meta: Meta)

  function Titled(title: string): Meta {
    Meta(Some(title), None, None)
  }

  function Leaf(path: string, name: string, meta: Meta): RouteRecord {
    RouteRecord(path, name, meta, [])
  }

  const HomePage := Leaf("/", "Home", Titled("首页"))
  const OrderDetailPage := Leaf("/order/:orderNo", "OrderDetail", Titled("订单详情"))
  const PaymentPage := Leaf("/payment/:order_no", "Payment", Meta(Some("订单支付"), Some(true), None))
  const LoginPage := Leaf("/auth/login", "Login", Titled("用户登录"))

  /** The user centre: a layout that requires a login, with its pages nested under `/user`. */
  const UserLayout := RouteRecord("/user", "UserLayout", Meta(None, Some(true), None), [
    ChildRecord("profile", "UserProfile", Titled("个人资料")),
    ChildRecord("orders", "UserOrders", Titled("我的订单")),
    ChildRecord("balance", "UserBalance", Titled("余额管理"))
  ])

  /** The back office: a layout that requires a login and an admin, with its pages nested under `/admin`. */
  const AdminLayout := RouteRecord("/admin", "AdminLayout", Meta(None, Some(true), Some(true)), [
    ChildRecord("dashboard", "AdminDashboard", Titled("管理后台")),
    ChildRecord("goods", "AdminGoods", Titled("商品管理")),
    ChildRecord("orders", "AdminOrders", Titled("订单管理")),
    ChildRecord("users", "AdminUsers", Titled("用户管理")),
    ChildRecord("categories", "AdminCategories", Titled("分类管理"))
  ])

  const AdminLoginPage := Leaf("/admin/login", "AdminLogin", Titled("管理员登录"))

  /** `routes`, in declaration order. */
  const Routes: seq<RouteRecord> := [
    HomePage,
    Leaf("/goods", "Goods", Titled("商品列表")),
    Leaf("/goods/:id", "GoodDetail", Titled("商品详情")),
    Leaf("/category/:id", "Category", Titled("分类商品")),
    OrderDetailPage,
    PaymentPage,
    Leaf("/search", "Search", Titled("搜索结果")),
    LoginPage,
    Leaf("/auth/register", "Register", Titled("用户注册")),
    UserLayout,
    AdminLayout,
    AdminLoginPage,
    Leaf("/:pathMatch(.*)*", "NotFound", Titled("页面不存在"))
  ]

  /** vue-router's `to.meta`: the parent's keys, overridden by the child's own. */
  function MergeMeta(parent: Meta, child: Meta): (m: Meta)
    ensures m.title == (if child.title.Some? then child.title else parent.title)
    ensures m.requiresAuth == (if child.requiresAuth.Some? then child.requiresAuth else parent.requiresAuth)
    ensures m.requiresAdmin == (if child.requiresAdmin.Some? then child.requiresAdmin else parent.requiresAdmin)
  {
    Meta(
      if child.title.Some? then child.title else parent.title,
      if child.requiresAuth.Some? then child.requiresAuth else parent.requiresAuth,
      if child.requiresAdmin.Some? then child.requiresAdmin else parent.requiresAdmin)
  }

  function ChildRoutes(parent: RouteRecord, children: seq<ChildRecord>): (rs: seq<Route>)
    ensures |rs| == |children|
    ensures forall i :: 0 <= i < |rs| ==>
      rs[i] == Route(parent.path + "/" + children[i].path, children[i].name, MergeMeta(parent.meta, children[i].meta))
  {
    if children == [] then []
    else [Route(parent.path + "/" + children[0].path, children[0].name, MergeMeta(parent.meta, children[0].meta))]
         + ChildRoutes(parent, children[1..])
  }

  /** Every record and every child of it, each child with its parent's path prefix and merged meta. */
  function Flatten(records: seq<RouteRecord>): seq<Route> {
    if records == [] then []
    else [Route(records[0].path, records[0].name, records[0].meta)]
         + ChildRoutes(records[0], records[0].children) + Flatten(records[1..])
  }

  /** `if (to.meta.requiresAuth)`, `if (to.meta.requiresAdmin)`. */
  predicate Flag(b: Option<bool>) {
    b == Some(true)
  }

  /**
   * Every child of a record that requires login (or admin) requires it too,
   * unless the child sets the key itself.
   */
  lemma {:induction false} ChildrenInheritGuards(records: seq<RouteRecord>, k: int, c: int)
    requires 0 <= k < |records| && 0 <= c < |records[k].children|
    ensures var parent := records[k]; var child := parent.children[c];
      var r := Route(parent.path + "/" + child.path, child.name, MergeMeta(parent.meta, child.meta));
      && r in Flatten(records)
      && (Flag(parent.meta.requiresAuth) && child.meta.requiresAuth.None? ==> Flag(r.meta.requiresAuth))
      && (Flag(parent.meta.requiresAdmin) && child.meta.requiresAdmin.None? ==> Flag(r.meta.requiresAdmin))
  {
    var parent := records[k];
    var child := parent.children[c];
    var r := Route(parent.path + "/" + child.path, child.name, MergeMeta(parent.meta, child.meta));
    if k == 0 {
      var rs := ChildRoutes(parent, parent.children);
      assert rs[c] == r;
      assert Flatten(records) == [Route(parent.path, parent.name, parent.meta)] + rs + Flatten(records[1..]);
    } else {
      ChildrenInheritGuards(records[1..], k - 1, c);
      assert records[1..][k - 1] == parent;
    }
  }

  /** The table as navigation sees it. */
  function Table(): seq<Route> {
    Flatten(Routes)
  }

  /** Every top-level record is a route of its own, with its own meta. */
  lemma {:induction false} RecordsInTable(records: seq<RouteRecord>, k: int)
    requires 0 <= k < |records|
    ensures Route(records[k].path, records[k].name, records[k].meta) in Flatten(records)
  {
    if k > 0 {
      RecordsInTable(records[1..], k - 1);
      assert records[1..][k - 1] == records[k];
    }
  }

  /** Paying for an order needs a login; viewing an order by its number does not. */
  lemma PaymentGuardedOrderDetailOpen()
    ensures var payment := Route("/payment/:order_no", "Payment", PaymentPage.meta);
      payment in Table() && Flag(payment.meta.requiresAuth)
    ensures var detail := Route("/order/:orderNo", "OrderDetail", OrderDetailPage.meta);
      detail in Table() && !Flag(detail.meta.requiresAuth)
  {
    RecordsInTable(Routes, 4);
    assert Routes[4] == OrderDetailPage;
    RecordsInTable(Routes, 5);
    assert Routes[5] == PaymentPage;
  }

  /** Every page under the admin layout requires a login and an admin. */
  lemma AdminPagesGuarded(c: int)
    requires 0 <= c < |AdminLayout.children|
    ensures var child := AdminLayout.children[c];
      var r := Route(AdminLayout.path + "/" + child.path, child.name, MergeMeta(AdminLayout.meta, child.meta));
      r in Table() && Flag(r.meta.requiresAuth) && Flag(r.meta.requiresAdmin)
  {
    var children := AdminLayout.children;
    assert children[c].meta.requiresAuth.None? && children[c].meta.requiresAdmin.None?;
    assert Routes[10] == AdminLayout;
    ChildrenInheritGuards(Routes, 10, c);
  }

  /** Every page under the user layout requires a login but no admin. */
  lemma UserPagesGuarded(c: int)
    requires 0 <= c < |UserLayout.children|
    ensures var child := UserLayout.children[c];
      var r := Route(UserLayout.path + "/" + child.path, child.name, MergeMeta(UserLayout.meta, child.meta));
      r in Table() && Flag(r.meta.requiresAuth) && !Flag(r.meta.requiresAdmin)
  {
    var children := UserLayout.children;
    assert children[c].meta.requiresAuth.None? && children[c].meta.requiresAdmin.None?;
    assert Routes[9] == UserLayout;
    ChildrenInheritGuards(Routes, 9, c);
  }

  /**
   * The pages the guard redirects to, and the admin login page, need no
   * login, so a redirect is never redirected again.
   */
  lemma RedirectTargetsOpen()
    ensures var home := Route("/", "Home", HomePage.meta);
      home in Table() && !Flag(home.meta.requiresAuth)
    ensures var login := Route("/auth/login", "Login", LoginPage.meta);
      login in Table() && !Flag(login.meta.requiresAuth)
    ensures var adminLogin := Route("/admin/login", "AdminLogin", AdminLoginPage.meta);
      adminLogin in Table() && !Flag(adminLogin.meta.requiresAuth)
  {
    RecordsInTable(Routes, 0);
    assert Routes[0] == HomePage;
    RecordsInTable(Routes, 7);
    assert Routes[7] == LoginPage;
    RecordsInTable(Routes, 11);
    assert Routes[11] == AdminLoginPage;
  }

  // -------------------------------------------------------------------------
  // beforeEach

  /** The browser document whose title the guard sets. */
  class Document {
    var title: string

    constructor(title0: string)
      ensures title == title0
    {
      title := title0;
    }
  }

  const TitleSuffix := " - 发卡网系统"

  /** Where `next` sends a navigation. */
  datatype Nav = Proceed | ToLogin(redirect: string) | ToHome

  /**
   * `beforeEach`: a non-empty title becomes the document title with the site
   * suffix; a route requiring login, visited without a token, goes to Login
   * with the target's full path as `redirect`; a route requiring an admin as
   * well, visited by a signed-in non-admin, goes Home; every other
   * navigation proceeds. `requiresAdmin` is only read under `requiresAuth`.
   */
  method BeforeEach(doc: Document, to: Route, fullPath: string, store: Store) returns (nav: Nav)
    modifies doc
    ensures (to.meta.title.Some? && to.meta.title.value != "") ==> doc.title == to.meta.title.value + TitleSuffix
    ensures !(to.meta.title.Some? && to.meta.title.value != "") ==> doc.title == old(doc.title)
    ensures nav.ToLogin? <==> Flag(to.meta.requiresAuth) && !store.IsLoggedIn()
    ensures nav.ToLogin? ==> nav.redirect == fullPath
    ensures nav.ToHome? <==>
      Flag(to.meta.requiresAuth) && store.IsLoggedIn() && Flag(to.meta.requiresAdmin) && !store.IsAdmin()
    ensures nav.Proceed? <==>
      !Flag(to.meta.requiresAuth) || (store.IsLoggedIn() && (!Flag(to.meta.requiresAdmin) || store.IsAdmin()))
  {
    if to.meta.title.Some? && to.meta.title.value != "" {
      doc.title := to.meta.title.value + TitleSuffix;
    }
    if Flag(to.meta.requiresAuth) {
      if !store.IsLoggedIn() {
        return ToLogin(fullPath);
      }
      if Flag(to.meta.requiresAdmin) && !store.IsAdmin() {
        return ToHome;
      }
    }
    return Proceed;
  }

  // -------------------------------------------------------------------------
  // scrollBehavior

  datatype ScrollPosition = ScrollPosition(left: Option<int>, top: int)

  /** `scrollBehavior`: back to where the page was left, else to the top. */
  function ScrollTarget(saved: Option<ScrollPosition>): (p: ScrollPosition)
    ensures saved.Some? ==> p == saved.value
    ensures saved.None? ==> p.top == 0 && p.left.None?
  {
    if saved.Some? then saved.value else ScrollPosition(None, 0)
  }
}
