/** The session reducer: authentication flag, token, loading flag, error,
    user and status, changed in place by `restoreSession` and by the login,
    logout and checkAuth cases, with the token mirrored in storage. */
module AuthSlice {
  import opened Wrappers
  import opened RequestStatus
  import opened Storage
  import opened AuthActions

  datatype AuthUser = AuthUser(username: string)

  const LOGIN_FAILED_FALLBACK: string := "Login failed"

  /** The error `login.rejected` records: the payload, or a fallback when
      the payload is missing or empty. */
  function LoginError(payload: Option<string>): (r: string)
    ensures r != ""
    ensures Truthy(payload) ==> r == payload.value
    ensures !Truthy(payload) ==> r == LOGIN_FAILED_FALLBACK
  {
    if Truthy(payload) then payload.value else LOGIN_FAILED_FALLBACK
  }

  /** A snapshot of the session's fields, for stating a whole new state. */
  datatype AuthState = AuthState(
    isAuthenticated: bool, token: Option<string>, loading: bool,
    error: Option<string>, user: Option<AuthUser>, status: Status)

  class Session {
    var isAuthenticated: bool
    var token: Option<string>
    var loading: bool
    var error: Option<string>
    var user: Option<AuthUser>
    var status: Status
    const storage: LocalStorage

    /** The flag is set exactly when a token is held, and no case ever
      assigns `status`. */
    ghost predicate Valid()
      reads this
    {
      (isAuthenticated <==> token.Some?) && status == Idle
    }

    function State(): AuthState
      reads this
    {
      AuthState(isAuthenticated, token, loading, error, user, status)
    }

    /** `initialState`. */
    constructor (storage: LocalStorage)
      ensures Valid() && this.storage == storage
      ensures !isAuthenticated && token == None && !loading && error == None && user == None && status == Idle
    {
      isAuthenticated := false;
      token := None;
      loading := false;
      error := None;
      user := None;
      status := Idle;
      this.storage := storage;
    }

    /** `restoreSession`: authenticates with the stored token when there is
      a non-empty one; otherwise nothing changes. */
    method RestoreSession(username: string)
      requires Valid()
      modifies this
      ensures Valid()
      ensures var stored := storage.GetItem(AUTH_TOKEN_KEY);
        if Truthy(stored)
        then isAuthenticated && token == stored && user == Some(AuthUser(username))
        else isAuthenticated == old(isAuthenticated) && token == old(token) && user == old(user)
      ensures loading == old(loading) && error == old(error)
    {
      var stored := storage.GetItem(AUTH_TOKEN_KEY);
      if Truthy(stored) {
        isAuthenticated := true;
        token := stored;
        user := Some(AuthUser(username));
      }
    }

    /** `login.pending`. */
    method LoginPending()
      requires Valid()
      modifies this
      ensures Valid()
      ensures loading && error == None
      ensures isAuthenticated == old(isAuthenticated) && token == old(token) && user == old(user)
    {
      loading := true;
      error := None;
    }

    /** `login.fulfilled`: with a non-empty token, authenticate and store
      the token; without one, only `loading` changes. */
    method LoginFulfilled(payload: Credentials)
      requires Valid()
      modifies this, storage
      ensures Valid()
      ensures !loading && error == old(error)
      ensures Truthy(payload.token) ==>
        isAuthenticated && token == payload.token && user == Some(AuthUser(payload.username)) &&
        storage.items == old(storage.items)[AUTH_TOKEN_KEY := payload.token.value]
      ensures !Truthy(payload.token) ==>
        isAuthenticated == old(isAuthenticated) && token == old(token) && user == old(user) &&
        storage.items == old(storage.items)
    {
      if Truthy(payload.token) {
        isAuthenticated := true;
        token := payload.token;
        user := Some(AuthUser(payload.username));
        storage.SetItem(AUTH_TOKEN_KEY, payload.token.value);
      }
      loading := false;
    }

    /** `login.rejected`: the session itself is left alone. */
    method LoginRejected(payload: Option<string>)
      requires Valid()
      modifies this
      ensures Valid()
      ensures !loading && error == Some(LoginError(payload))
      ensures isAuthenticated == old(isAuthenticated) && token == old(token) && user == old(user)
    {
      loading := false;
      error := Some(LoginError(payload));
    }

    /** `logout.fulfilled`: the session and the stored token are cleared;
      `loading` and `error` are not touched. */
    method LogoutFulfilled()
      requires Valid()
      modifies this, storage
      ensures Valid()
      ensures !isAuthenticated && token == None && user == None
      ensures loading == old(loading) && error == old(error)
      ensures storage.items == old(storage.items) - {AUTH_TOKEN_KEY}
    {
      isAuthenticated := false;
      token := None;
      user := None;
      storage.RemoveItem(AUTH_TOKEN_KEY);
    }

    /** `checkAuth.fulfilled`: a restored session authenticates; null
      changes nothing. */
    method CheckAuthFulfilled(payload: Option<RestoredSession>)
      requires Valid()
      modifies this
      ensures Valid()
      ensures payload.Some? ==>
        isAuthenticated && token == Some(payload.value.token) && user == Some(AuthUser(payload.value.username))
      ensures payload.None? ==>
        isAuthenticated == old(isAuthenticated) && token == old(token) && user == old(user)
      ensures loading == old(loading) && error == old(error)
    {
      if payload.Some? {
        isAuthenticated := true;
        token := Some(payload.value.token);
        user := Some(AuthUser(payload.value.username));
      }
    }
  }
}
