/** The authentication hook: it checks the stored session on mount, logs in
    and navigates to the product list when the login thunk fulfils, logs out
    and navigates to the login page, and decides where a guarded page
    redirects. Navigation is returned as the path pushed, `None` for no push. */
module UseAuth {
  import opened Wrappers
  import opened Storage
  import opened AuthActions
  import opened AuthSlice
  import opened Store

  const PRODUCTS_PATH: string := "/products"
  const LOGIN_PATH: string := "/login"

  /** `checkAuthAndRedirect`: a signed-in visitor of a page that turns
      signed-in users away goes to the product list, a signed-out visitor
      of a guarded page goes to `redirectPath`, and the two mixed cases stay. */
  function RedirectTarget(isAuthenticated: bool, redirectIfAuth: bool := false, redirectPath: string := LOGIN_PATH)
    : (r: Option<string>)
    ensures isAuthenticated && redirectIfAuth ==> r == Some(PRODUCTS_PATH)
    ensures !isAuthenticated && !redirectIfAuth ==> r == Some(redirectPath)
    ensures r.Some? <==> isAuthenticated == redirectIfAuth
  {
    if isAuthenticated && redirectIfAuth then Some(PRODUCTS_PATH)
    else if !isAuthenticated && !redirectIfAuth then Some(redirectPath)
    else None
  }

  /** With the defaults, a signed-out visitor goes to "/login" and a
      signed-in one stays. */
  lemma DefaultRedirect(isAuthenticated: bool)
    ensures RedirectTarget(isAuthenticated) == if isAuthenticated then None else Some("/login")
  {
  }

  /** `handleLogin`'s navigation: `unwrap` rejects on a rejected login, and a
      fulfilled one yields a credentials object, which is always truthy, so
      the push happens exactly when the thunk fulfils, token or not. */
  function LoginNavigation(outcome: Result<Credentials, string>): (r: Option<string>)
    ensures r.Some? <==> outcome.Success?
    ensures r.Some? ==> r.value == PRODUCTS_PATH
  {
    if outcome.Success? then Some(PRODUCTS_PATH) else None
  }

  /** The hook's mount effect: the stored session is checked. */
  method Mount(store: RootStore)
    requires store.Valid()
    modifies store.auth
    ensures store.Valid()
    ensures var stored := store.storage.GetItem(AUTH_TOKEN_KEY);
      Truthy(stored) ==>
        store.auth.State() == old(store.auth.State()).(
          isAuthenticated := true, token := stored, user := Some(AuthUser(RESTORED_USER)))
    ensures !Truthy(store.storage.GetItem(AUTH_TOKEN_KEY)) ==> store.auth.State() == old(store.auth.State())
  {
    var _ := store.DispatchCheckAuth();
  }

  /** `handleLogin`: the login is dispatched and its result unwrapped; a
      fulfilled login navigates to the product list. A server answer without
      a token navigates too, while the session stays as it was. */
  method HandleLogin(store: RootStore, username: string, response: Result<LoginResponse, Thrown>)
    returns (outcome: Result<Credentials, string>, navigate: Option<string>)
    requires store.Valid()
    modifies store.auth, store.storage
    ensures store.Valid()
    ensures outcome == Login(username, response)
    ensures navigate == LoginNavigation(outcome)
    ensures navigate.Some? <==> response.Success?
    ensures response.Failure? ==>
      store.auth.State() == old(store.auth.State()).(loading := false, error := Some(LOGIN_FAILED)) &&
      store.storage.items == old(store.storage.items)
    ensures response.Success? && Truthy(response.value.token) ==>
      store.auth.State() == old(store.auth.State()).(
        isAuthenticated := true, token := response.value.token, user := Some(AuthUser(username)),
        loading := false, error := None) &&
      store.storage.items == old(store.storage.items)[AUTH_TOKEN_KEY := response.value.token.value]
    ensures response.Success? && !Truthy(response.value.token) ==>
      navigate == Some(PRODUCTS_PATH) &&
      store.auth.State() == old(store.auth.State()).(loading := false, error := None) &&
      store.storage.items == old(store.storage.items)
  {
    outcome := store.DispatchLogin(username, response);
    navigate := LoginNavigation(outcome);
  }

  /** `handleLogout`: the session is ended and the login page pushed. */
  method HandleLogout(store: RootStore) returns (navigate: Option<string>)
    requires store.Valid()
    modifies store.auth, store.storage
    ensures store.Valid()
    ensures navigate == Some(LOGIN_PATH)
    ensures store.auth.State() == old(store.auth.State()).(isAuthenticated := false, token := None, user := None)
    ensures store.storage.items == old(store.storage.items) - {AUTH_TOKEN_KEY}
    ensures store.storage.GetItem(AUTH_TOKEN_KEY) == None
  {
    var _ := store.DispatchLogout();
    navigate := Some(LOGIN_PATH);
  }

  /** A login page that turns signed-in users away sends a user who has just
      logged in with a token to the product list. */
  method LoginThenGuard(store: RootStore, username: string, token: string)
    returns (redirect: Option<string>)
    requires store.Valid() && token != ""
    modifies store.auth, store.storage
    ensures redirect == Some(PRODUCTS_PATH)
  {
    var _, _ := HandleLogin(store, username, Success(LoginResponse(Some(token))));
    redirect := RedirectTarget(store.auth.isAuthenticated, true);
  }
}
