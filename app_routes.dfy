/**
 * The route table and its guard: which page each address shows, which addresses sit behind
 * `ProtectedRoute`, and what the guard does for a visitor who is signed out, signed in, or an
 * administrator.
 */
module AppRoutes {
  import opened Wrappers
  import Text

  /** The pages the table names. */
  datatype Page =
    | AdminDashboard | ProductManagement | OrderManagement | UserManagement | Analytics | Settings
    | Home | Products | Blog | ProductDetail(id: string) | Cart | Checkout | Login | Register
    | ForgotPassword

  /** How a route is wrapped: not at all, in `ProtectedRoute`, or in `ProtectedRoute adminOnly`. */
  datatype Guard = Open | SignedIn | AdminOnly

  /** What the guard renders. */
  datatype Decision = ToLogin | ToHome | Children

  /** `ProtectedRoute`: the sign-in check comes first, then the administrator check. */
  function Protect(adminOnly: bool, isAuthenticated: bool, isAdmin: bool): (d: Decision)
    ensures d == ToLogin <==> !isAuthenticated
    ensures d == ToHome <==> isAuthenticated && adminOnly && !isAdmin
    ensures d == Children <==> isAuthenticated && (!adminOnly || isAdmin)
  {
    if !isAuthenticated then ToLogin
    else if adminOnly && !isAdmin then ToHome
    else Children
  }

  /** Path segments are matched ignoring ASCII case, as the router does by default. */
  predicate Is(segment: string, name: string) {
    Text.ToLower(segment) == name
  }

  /** The admin area's child routes; `[]` is the index route. */
  function AdminChild(rest: seq<string>): Option<Page> {
    if rest == [] then Some(AdminDashboard)
    else if |rest| != 1 then None
    else if Is(rest[0], "products") then Some(ProductManagement)
    else if Is(rest[0], "orders") then Some(OrderManagement)
    else if Is(rest[0], "users") then Some(UserManagement)
    else if Is(rest[0], "analytics") then Some(Analytics)
    else if Is(rest[0], "settings") then Some(Settings)
    else None
  }

  /** The public routes. */
  function PublicPage(path: seq<string>): Option<Page> {
    if path == [] then Some(Home)
    else if |path| == 2 && Is(path[0], "product") && path[1] != "" then Some(ProductDetail(path[1]))
    else if |path| != 1 then None
    else if Is(path[0], "products") then Some(Products)
    else if Is(path[0], "blog") then Some(Blog)
    else if Is(path[0], "cart") then Some(Cart)
    else if Is(path[0], "checkout") then Some(Checkout)
    else if Is(path[0], "login") then Some(Login)
    else if Is(path[0], "register") then Some(Register)
    else if Is(path[0], "forgot-password") then Some(ForgotPassword)
    else None
  }

  predicate IsAdminPage(p: Page) {
    p.AdminDashboard? || p.ProductManagement? || p.OrderManagement? || p.UserManagement?
    || p.Analytics? || p.Settings?
  }

  /** The page an address (as its non-empty segments) selects, with its guard; `None` when no
      route matches and only the header and footer are shown. */
  function Route(path: seq<string>): (r: Option<(Page, Guard)>)
    ensures r.Some? ==> (r.value.1 == AdminOnly <==> IsAdminPage(r.value.0))
    ensures r.Some? ==> (r.value.1 == SignedIn <==> r.value.0 == Checkout)
  {
    if path != [] && Is(path[0], "admin") && AdminChild(path[1..]).Some? then
      Some((AdminChild(path[1..]).value, AdminOnly))
    else
      var p := PublicPage(path);
      if p.None? then None
      else if p.value == Checkout then Some((Checkout, SignedIn))
      else Some((p.value, Open))
  }

  /** What a visitor sees at an address. */
  datatype Screen = Redirect(to: string) | Show(page: Page) | Blank

  function Visit(path: seq<string>, isAuthenticated: bool, isAdmin: bool): (sc: Screen)
    ensures sc == Blank <==> Route(path).None?
    ensures sc.Show? ==> sc.page == Route(path).value.0
    ensures sc.Show? && Route(path).value.1 == AdminOnly ==> isAuthenticated && isAdmin
    ensures sc.Show? && Route(path).value.1 == SignedIn ==> isAuthenticated
    ensures sc.Redirect? ==> (sc.to == "/login" <==> !isAuthenticated)
  {
    var r := Route(path);
    if r.None? then Blank
    else if r.value.1 == Open then Show(r.value.0)
    else
      match Protect(r.value.1 == AdminOnly, isAuthenticated, isAdmin)
      case ToLogin => Redirect("/login")
      case ToHome => Redirect("/")
      case Children => Show(r.value.0)
  }

  /** An administration page is shown only to a signed-in administrator; anyone signed out is
      sent to the sign-in page and a signed-in customer to the home page. */
  lemma AdminPagesNeedAdmin(path: seq<string>, isAuthenticated: bool, isAdmin: bool)
    requires Route(path).Some? && IsAdminPage(Route(path).value.0)
    ensures Visit(path, isAuthenticated, isAdmin).Show? <==> isAuthenticated && isAdmin
    ensures !isAuthenticated ==> Visit(path, isAuthenticated, isAdmin) == Redirect("/login")
    ensures isAuthenticated && !isAdmin ==> Visit(path, isAuthenticated, isAdmin) == Redirect("/")
  {
  }

  /** The checkout needs a signed-in visitor, administrator or not. */
  lemma CheckoutNeedsSignIn(path: seq<string>, isAuthenticated: bool, isAdmin: bool)
    requires Route(path).Some? && Route(path).value.0 == Checkout
    ensures Visit(path, isAuthenticated, isAdmin) ==
      if isAuthenticated then Show(Checkout) else Redirect("/login")
  {
  }

  /** Every other page is shown to everyone. */
  lemma OpenPagesAreShown(path: seq<string>, isAuthenticated: bool, isAdmin: bool)
    requires Route(path).Some? && !IsAdminPage(Route(path).value.0) && Route(path).value.0 != Checkout
    ensures Visit(path, isAuthenticated, isAdmin) == Show(Route(path).value.0)
  {
  }

  /** For a session in which only signed-in users are administrators, an administrator sees
      every page there is, and nobody is redirected to the home page on the way to the
      checkout. */
  lemma AdminSeesEverything(path: seq<string>, isAuthenticated: bool, isAdmin: bool)
    requires isAdmin ==> isAuthenticated
    requires Route(path).Some?
    ensures isAdmin ==> Visit(path, isAuthenticated, isAdmin) == Show(Route(path).value.0)
    ensures Visit(path, isAuthenticated, isAdmin) != Redirect("/") ==>
      Visit(path, isAuthenticated, isAdmin).Show? || !isAuthenticated
  {
  }

  /** The table's addresses. */
  lemma Addresses()
    ensures Route(["admin"]) == Some((AdminDashboard, AdminOnly))
    ensures Route(["admin", "users"]) == Some((UserManagement, AdminOnly))
    ensures Route(["checkout"]) == Some((Checkout, SignedIn))
    ensures Route(["product", "42"]) == Some((ProductDetail("42"), Open))
    ensures Route([]) == Some((Home, Open))
  {
    assert ["admin"][1..] == [];
    assert ["admin", "users"][1..] == ["users"];
    assert Text.ToLower("admin") == "admin";
    assert Text.ToLower("users") == "users";
    assert Text.ToLower("checkout") == "checkout";
    assert Text.ToLower("product") == "product";
  }
}
