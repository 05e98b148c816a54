/** The route table of src/App.tsx and its `ProtectedRoute` wrapper: three
    public routes, fifteen routes each gated on one role, and a catch-all. */
module Routes {
  import opened Seqs
  import opened Types

  /** What `ProtectedRoute` renders: its child, or `<Navigate to="/login" />`. */
  datatype Outcome = RenderPage | RedirectToLogin

  /** `ProtectedRoute`: not signed in, or signed in under another role,
      sends the visitor to the login page. */
  function Admit(isAuthenticated: bool, currentUser: Option<User>, role: Role): (r: Outcome)
    ensures !isAuthenticated ==> r == RedirectToLogin
    ensures isAuthenticated && (currentUser.None? || currentUser.value.role != role) ==> r == RedirectToLogin
    ensures r == RenderPage <==> isAuthenticated && currentUser.Some? && currentUser.value.role == role
  {
    if !isAuthenticated then RedirectToLogin
    else if currentUser.None? || currentUser.value.role != role then RedirectToLogin
    else RenderPage
  }

  /** The protected entries of the route table, each with the role its
      `ProtectedRoute` names. */
  const ProtectedRoutes: seq<(string, Role)> := [
    ("/admin", Admin),
    ("/admin/create-shop-user", Admin),
    ("/admin/assign-products", Admin),
    ("/admin/assign-history", Admin),
    ("/admin/view-users", Admin),
    ("/admin/profile", Admin),
    ("/shopkeeper", Shopkeeper),
    ("/shopkeeper/assigned-products", Shopkeeper),
    ("/shopkeeper/assign-products", Shopkeeper),
    ("/shopkeeper/shop-users", Shopkeeper),
    ("/shopkeeper/profile", Shopkeeper),
    ("/customer", Customer),
    ("/customer/buy-products", Customer),
    ("/customer/purchase-history", Customer),
    ("/customer/profile", Customer)
  ]

  /** The routes anyone may visit. */
  const PublicRoutes: seq<string> := ["/", "/login", "/register"]

  /** The role a path is gated on; None for a public path and for the
      catch-all `*` route. */
  function RouteRole(path: string): (r: Option<Role>)
    ensures r.Some? <==> exists i :: 0 <= i < |ProtectedRoutes| && ProtectedRoutes[i].0 == path
    ensures r.Some? ==> exists i :: 0 <= i < |ProtectedRoutes| && ProtectedRoutes[i] == (path, r.value)
  {
    match IndexWhere(ProtectedRoutes, (e: (string, Role)) => e.0 == path)
    case None => None
    case Some(i) => Some(ProtectedRoutes[i].1)
  }

  /** What a request for `path` shows, given the session. */
  function Visit(path: string, isAuthenticated: bool, currentUser: Option<User>): (r: Outcome)
    ensures RouteRole(path).None? ==> r == RenderPage
    ensures RouteRole(path).Some? ==> r == Admit(isAuthenticated, currentUser, RouteRole(path).value)
  {
    match RouteRole(path)
    case None => RenderPage
    case Some(role) => Admit(isAuthenticated, currentUser, role)
  }

  /** The role a path's first segment names. */
  function PrefixRole(path: string): Option<Role>
  {
    if "/admin" <= path then Some(Admin)
    else if "/shopkeeper" <= path then Some(Shopkeeper)
    else if "/customer" <= path then Some(Customer)
    else None
  }

  /** Every protected route is gated on exactly the role its prefix names. */
  lemma GatedByPrefix()
    ensures forall i :: 0 <= i < |ProtectedRoutes| ==>
      PrefixRole(ProtectedRoutes[i].0) == Some(ProtectedRoutes[i].1)
    ensures forall path :: RouteRole(path).Some? ==> RouteRole(path) == PrefixRole(path)
  {
    forall i | 0 <= i < |ProtectedRoutes|
      ensures PrefixRole(ProtectedRoutes[i].0) == Some(ProtectedRoutes[i].1)
    {
      assert ProtectedRoutes[i].0[1] == match ProtectedRoutes[i].1
        case Admin => 'a' case Shopkeeper => 's' case Customer => 'c';
    }
  }

  /** The public routes are not gated. */
  lemma PublicRoutesOpen(isAuthenticated: bool, currentUser: Option<User>)
    ensures forall i :: 0 <= i < |PublicRoutes| ==>
      Visit(PublicRoutes[i], isAuthenticated, currentUser) == RenderPage
  {
    forall i | 0 <= i < |PublicRoutes|
      ensures RouteRole(PublicRoutes[i]).None?
    {
      forall j | 0 <= j < |ProtectedRoutes| ensures ProtectedRoutes[j].0 != PublicRoutes[i] {
        assert |ProtectedRoutes[j].0| > |PublicRoutes[i]| || ProtectedRoutes[j].0[1] != PublicRoutes[i][1];
      }
    }
  }

  /** Signed out, no protected route renders. */
  lemma SignedOutAdmitsNothing(currentUser: Option<User>, path: string)
    requires RouteRole(path).Some?
    ensures Visit(path, false, currentUser) == RedirectToLogin
  {
  }
}
