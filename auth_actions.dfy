/** What the three session thunks settle with. The login gateway call is a
    parameter: its response body, or whatever it threw. */
module AuthActions {
  import opened Wrappers

  const LOGIN_FAILED: string := "Login failed. Please check your credentials."
  const RESTORED_USER: string := "restored_user"

  /** The login response body: `response.token` may be missing. */
  datatype LoginResponse = LoginResponse(token: Option<string>)

  /** The `login.fulfilled` payload `{ token, username }`. */
  datatype Credentials = Credentials(token: Option<string>, username: string)

  /** The `checkAuth.fulfilled` payload when a token is stored. */
  datatype RestoredSession = RestoredSession(token: string, username: string)

  /** `login`: fulfils with the response's token and the username that was
      typed in (not one from the response), even when the token is missing;
      any failure becomes one fixed message and its cause is dropped. */
  function Login(username: string, response: Result<LoginResponse, Thrown>): (r: Result<Credentials, string>)
    ensures r.Success? <==> response.Success?
    ensures response.Success? ==> r.value.token == response.value.token && r.value.username == username
    ensures response.Failure? ==> r.error == LOGIN_FAILED
  {
    match response
    case Success(body) => Success(Credentials(body.token, username))
    case Failure(_) => Failure(LOGIN_FAILED)
  }

  /** Two failed logins are indistinguishable, whatever went wrong. */
  lemma LoginFailureDropsCause(username: string, e1: Thrown, e2: Thrown)
    ensures Login(username, Failure(e1)) == Login(username, Failure(e2))
  {
  }

  /** `logout`: always fulfils with `true`. */
  function Logout(): (r: bool)
    ensures r
  {
    true
  }

  /** `checkAuth`: the stored token (when non-empty) with a placeholder
      username, otherwise null. */
  function CheckAuth(stored: Option<string>): (r: Option<RestoredSession>)
    ensures r.Some? <==> Truthy(stored)
    ensures r.Some? ==> r.value.token == stored.value && r.value.username == RESTORED_USER
  {
    if Truthy(stored) then Some(RestoredSession(stored.value, RESTORED_USER)) else None
  }
}
