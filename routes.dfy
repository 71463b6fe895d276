/**
 * Route selection in the root component's `render`: which page a path shows,
 * chosen by a react-router `Switch` whose children depend only on whether the
 * user is authenticated, and which session values each page receives.
 */
module Routes {
  import opened Wrappers
  import opened JsValues

  /** The page components the routes can render. */
  datatype Page = Login | Signup | Home | AddProduct | Products | Cart

  /** A child of a `Switch`: an exact `Route`, or a `Redirect` without `from`, which matches every path. */
  datatype Child = Route(path: string, page: Page) | Redirect(to: string)

  /** What a `Switch` produces for a path. */
  datatype View = Show(page: Page) | RedirectTo(target: string) | NoMatch

  predicate Matches(c: Child, path: string)
  {
    match c
    case Route(p, _) => p == path
    case Redirect(_) => true
  }

  function Element(c: Child): (v: View)
  {
    match c
    case Route(_, page) => Show(page)
    case Redirect(to) => RedirectTo(to)
  }

  /**
   * A `Switch` renders the first child that matches the path, and nothing when
   * no child matches.
   */
  function Switch(children: seq<Child>, path: string): (v: View)
    ensures v == NoMatch <==> forall i :: 0 <= i < |children| ==> !Matches(children[i], path)
    ensures v != NoMatch ==>
      exists i :: 0 <= i < |children| && Matches(children[i], path) && v == Element(children[i])
                  && forall j :: 0 <= j < i ==> !Matches(children[j], path)
  {
    if |children| == 0 then NoMatch
    else if Matches(children[0], path) then Element(children[0])
    else
      var v := Switch(children[1..], path);
      assert forall i :: 1 <= i < |children| ==> children[i] == children[1..][i - 1];
      v
  }

  /** The routes offered before login: the login form, the signup form, and a redirect of everything else to "/". */
  const AnonymousRoutes: seq<Child> := [Route("/", Login), Route("/signup", Signup), Redirect("/")]

  /** The routes offered after login; there is no fallback. */
  const AuthenticatedRoutes: seq<Child> :=
    [Route("/", Home), Route("/admin", AddProduct), Route("/products", Products), Route("/viewcart", Cart)]

  /** The four paths an authenticated user can open. */
  predicate IsAppPath(path: string)
  {
    path == "/" || path == "/admin" || path == "/products" || path == "/viewcart"
  }

  /**
   * What the root component shows at `path`. Unauthenticated: the login form at
   * "/", the signup form at "/signup", and a redirect to "/" anywhere else.
   * Authenticated: Home, AddProduct, Products and Cart at their four paths, and
   * nothing at all at any other path (no redirect).
   */
  function Render(isAuth: bool, path: string): (v: View)
    ensures !isAuth ==> (v == Show(Login) <==> path == "/")
    ensures !isAuth ==> (v == Show(Signup) <==> path == "/signup")
    ensures !isAuth ==> (v == RedirectTo("/") <==> path != "/" && path != "/signup")
    ensures isAuth ==> (v == Show(Home) <==> path == "/")
    ensures isAuth ==> (v == Show(AddProduct) <==> path == "/admin")
    ensures isAuth ==> (v == Show(Products) <==> path == "/products")
    ensures isAuth ==> (v == Show(Cart) <==> path == "/viewcart")
    ensures isAuth ==> (v == NoMatch <==> !IsAppPath(path))
  {
    if isAuth then Switch(AuthenticatedRoutes, path)
    else
      var v := Switch(AnonymousRoutes, path);
      assert Matches(AnonymousRoutes[2], path);
      v
  }

  /** Pages that are only reachable with a session. */
  predicate NeedsSession(page: Page)
  {
    page == Home || page == AddProduct || page == Products || page == Cart
  }

  /** A page is shown only to the side of the gate it belongs to, and only unauthenticated users are redirected. */
  lemma Gating(isAuth: bool, path: string)
    ensures Render(isAuth, path).Show? ==> (NeedsSession(Render(isAuth, path).page) <==> isAuth)
    ensures Render(isAuth, path).RedirectTo? ==> !isAuth
    ensures Render(isAuth, path) == NoMatch ==> isAuth
  {
  }

  /** Following the unauthenticated redirect lands on the login form: the redirect never loops. */
  lemma RedirectSettles(path: string)
    requires Render(false, path).RedirectTo?
    ensures Render(false, Render(false, path).target) == Show(Login)
  {
  }

  /** What a page receives: the session values (with or without `isAdmin`) together with the logout callback, or a form callback. */
  datatype Props =
    | SessionProps(userId: Value, token: Value, isAdmin: Option<Value>)
    | LoginForm
    | SignupForm

  /**
   * The props `render` passes: Login gets the login handler, Signup the signup
   * handler, and every page behind the gate gets `userId`, `token` and the
   * logout handler, and `isAdmin` as well except on AddProduct.
   */
  function PropsFor(page: Page, userId: Value, token: Value, isAdmin: Value): (p: Props)
    ensures p == LoginForm <==> page == Login
    ensures p == SignupForm <==> page == Signup
    ensures p.SessionProps? <==> NeedsSession(page)
    ensures p.SessionProps? ==> p.userId == userId && p.token == token
    ensures p.SessionProps? ==> (p.isAdmin == None <==> page == AddProduct)
    ensures p.SessionProps? && p.isAdmin.Some? ==> p.isAdmin.value == isAdmin
  {
    match page
    case Login => LoginForm
    case Signup => SignupForm
    case AddProduct => SessionProps(userId, token, None)
    case _ => SessionProps(userId, token, Some(isAdmin))
  }
}
