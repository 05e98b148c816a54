/** The sign-in page of src/pages/auth/Login.tsx: a role tab, demo
    credentials per role, and a submit that calls `login` and redirects to
    the role's dashboard. */
module LoginPage {
  import opened Seqs
  import opened Types
  import opened Store
  import opened Routes

  /** The page's form state. */
  datatype LoginForm = LoginForm(email: string, password: string, role: Role, error: string)

  /** Empty fields on the "customer" tab; the demo credentials are filled in
      only when a tab is chosen. */
  const InitialForm := LoginForm("", "", Customer, "")

  const LoginFailedMessage := "Invalid email or password. Please try again."

  /** Where a successful sign-in leads. */
  function RedirectPath(role: Role): (path: string)
    ensures RouteRole(path) == Some(role)
  {
    var path := match role
      case Admin => "/admin"
      case Shopkeeper => "/shopkeeper"
      case Customer => "/customer";
    assert ProtectedRoutes[match role case Admin => 0 case Shopkeeper => 6 case Customer => 11] == (path, role);
    GatedByPrefix();
    path
  }

  /** `setDefaultCredentials`: the demo email and password of each role. */
  function DefaultCredentials(role: Role): (string, string)
  {
    match role
    case Admin => ("admin@example.com", "password")
    case Shopkeeper => ("shop@example.com", "password")
    case Customer => ("customer@example.com", "password")
  }

  /** Choosing a tab sets the role and fills in that role's demo credentials. */
  function SelectTab(form: LoginForm, role: Role): (r: LoginForm)
    ensures r.role == role && r.error == form.error
    ensures (r.email, r.password) == DefaultCredentials(role)
  {
    form.(role := role, email := DefaultCredentials(role).0, password := DefaultCredentials(role).1)
  }

  /** Each role's demo credentials are those of the seeded user of that
      role, so signing in with them succeeds on the start-up state. */
  lemma DefaultCredentialsSignIn(role: Role, now: Time)
    ensures var (email, password) := DefaultCredentials(role);
      var u := FindByCredentials(SeedUsers(now), email, role, password);
      u.Some? && u.value.role == role && u.value.email == email
  {
    var users := SeedUsers(now);
    var k := match role case Admin => 0 case Shopkeeper => 1 case Customer => 2;
    var (email, password) := DefaultCredentials(role);
    assert CredentialsMatch(users[k], email, role, password);
    assert users[k] in users;
  }

  /** `handleSubmit`: signs in with the entered credentials under the
      selected role; on success the error is cleared and the role's
      dashboard is next, on failure the error message is set and the page
      stays. */
  method Submit(store: AppStore, form: LoginForm) returns (next: LoginForm, navigateTo: Option<string>)
    requires store.Valid()
    modifies store`currentUser, store`isAuthenticated
    ensures store.Valid()
    ensures navigateTo.Some? <==>
      exists u :: u in store.mockUsers && CredentialsMatch(u, form.email, form.role, form.password)
    ensures navigateTo.Some? ==>
      && navigateTo == Some(RedirectPath(form.role))
      && next == form.(error := "")
      && store.currentUser == FindByCredentials(store.mockUsers, form.email, form.role, form.password)
      && Visit(navigateTo.value, store.isAuthenticated, store.currentUser) == RenderPage
    ensures navigateTo.None? ==>
      && next == form.(error := LoginFailedMessage)
      && store.currentUser == old(store.currentUser)
      && store.isAuthenticated == old(store.isAuthenticated)
  {
    var ok := store.Login(form.email, form.password, form.role);
    if ok {
      next := form.(error := "");
      navigateTo := Some(RedirectPath(form.role));
    } else {
      next := form.(error := LoginFailedMessage);
      navigateTo := None;
    }
  }
}
