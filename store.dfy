/** The store and its dispatch boundary. The store registers the session
    reducer once and the user reducer twice, under `user` and `users`; every
    user action reaches both copies, which therefore always hold the same
    state. A dispatch applies `pending` and then exactly one terminal event. */
module Store {
  import opened Wrappers
  import opened RequestStatus
  import opened Storage
  import opened Api
  import opened UserSlice
  import opened UserActions
  import opened AuthActions
  import opened AuthSlice

  class RootStore {
    const storage: LocalStorage
    const auth: Session
    const user: UserStore
    const users: UserStore

    ghost predicate Valid()
      reads this, auth, user, users
    {
      auth.storage == storage && user != users && auth.Valid() && user.State() == users.State()
    }

    constructor (storage: LocalStorage)
      ensures Valid() && this.storage == storage
      ensures fresh(auth) && fresh(user) && fresh(users)
      ensures !auth.isAuthenticated && auth.token == None
      ensures user.State() == UserState([], None, Idle, None)
    {
      this.storage := storage;
      auth := new Session(storage);
      user := new UserStore();
      users := new UserStore();
    }

    /** `selectUser`, reaching both registrations. */
    method SelectUser(u: User)
      requires Valid()
      modifies user, users
      ensures Valid()
      ensures user.State() == old(user.State()).(selectedUser := Some(u))
    {
      user.SelectUser(u);
      users.SelectUser(u);
    }

    /** `clearSelectedUser`, reaching both registrations. */
    method ClearSelectedUser()
      requires Valid()
      modifies user, users
      ensures Valid()
      ensures user.State() == old(user.State()).(selectedUser := None)
    {
      user.ClearSelectedUser();
      users.ClearSelectedUser();
    }

    method UsersPending()
      requires Valid()
      modifies user, users
      ensures Valid()
      ensures user.State() == old(user.State()).(status := Loading)
    {
      user.Pending();
      users.Pending();
    }

    method UsersRejected(reason: string)
      requires Valid()
      modifies user, users
      ensures Valid()
      ensures user.State() == old(user.State()).(status := Failed, error := Some(reason))
    {
      user.Rejected(reason);
      users.Rejected(reason);
    }

    /** `dispatch(fetchUsers())`: the users list follows the server, or the
      failure is recorded; a 401 also erases the stored token. */
    method DispatchFetchUsers(network: Transport<seq<User>>)
      returns (outcome: Result<seq<User>, string>, navigate: Option<string>)
      requires Valid()
      modifies user, users, storage
      ensures Valid()
      ensures network.NetworkError? ==> outcome == Failure(network.message)
      ensures network.Delivered? ==>
        match Classify(network.response)
        case Success(v) => outcome == Success(v)
        case Failure(e) => outcome == Failure(RejectionMessage(e))
      ensures outcome.Success? ==>
        user.State() == old(user.State()).(users := outcome.value, status := Succeeded)
      ensures outcome.Failure? ==>
        user.State() == old(user.State()).(status := Failed, error := Some(outcome.error))
      ensures network.Delivered? && network.response.status == UNAUTHORIZED_STATUS ==>
        storage.items == old(storage.items) - {AUTH_TOKEN_KEY} && storage.GetItem(AUTH_TOKEN_KEY) == None
      ensures !(network.Delivered? && network.response.status == UNAUTHORIZED_STATUS) ==>
        storage.items == old(storage.items)
      ensures navigate == if network.Delivered? && network.response.status == UNAUTHORIZED_STATUS
                          then Some(LOGIN_PATH) else None
    {
      UsersPending();
      outcome, navigate := FetchUsers(storage, network);
      match outcome {
        case Success(list) =>
          user.FetchFulfilled(list);
          users.FetchFulfilled(list);
        case Failure(reason) =>
          UsersRejected(reason);
      }
    }

    /** `dispatch(createUser(data))`: always fulfils and appends. */
    method DispatchCreateUser(data: UserFormData, now: int) returns (payload: User)
      requires Valid()
      modifies user, users
      ensures Valid()
      ensures payload == CreateUserPayload(now, data)
      ensures user.State() == old(user.State()).(users := old(user.users) + [payload], status := Succeeded)
    {
      UsersPending();
      payload := CreateUserPayload(now, data);
      user.CreateFulfilled(payload);
      users.CreateFulfilled(payload);
    }

    /** `dispatch(updateUser({id, userData}))`: always fulfils. */
    method DispatchUpdateUser(id: Option<int>, data: UserFormData) returns (payload: User)
      requires Valid()
      modifies user, users
      ensures Valid()
      ensures payload == UpdateUserPayload(id, data)
      ensures user.State() == old(user.State()).(
        users := ReplaceFirstById(old(user.users), payload),
        selectedUser := SelectionAfterUpdate(old(user.selectedUser), payload),
        status := Succeeded)
    {
      UsersPending();
      payload := UpdateUserPayload(id, data);
      user.UpdateFulfilled(payload);
      users.UpdateFulfilled(payload);
    }

    /** `dispatch(deleteUser(id))`: always fulfils with the id. */
    method DispatchDeleteUser(id: Option<int>)
      requires Valid()
      modifies user, users
      ensures Valid()
      ensures user.State() == old(user.State()).(
        users := RemoveById(old(user.users), id),
        selectedUser := SelectionAfterDelete(old(user.selectedUser), id),
        status := Succeeded)
    {
      UsersPending();
      user.DeleteFulfilled(id);
      users.DeleteFulfilled(id);
    }

    /** `dispatch(login({username, password}))`; the password only reaches
      the gateway, whose answer is the parameter. `pending` sets `loading`
      and clears the error; the terminal event decides the rest. */
    method DispatchLogin(username: string, response: Result<LoginResponse, Thrown>)
      returns (outcome: Result<Credentials, string>)
      requires Valid()
      modifies auth, storage
      ensures Valid()
      ensures outcome == Login(username, response)
      ensures outcome.Failure? ==>
        auth.State() == old(auth.State()).(loading := false, error := Some(LOGIN_FAILED)) &&
        storage.items == old(storage.items)
      ensures outcome.Success? && Truthy(outcome.value.token) ==>
        auth.State() == old(auth.State()).(
          isAuthenticated := true, token := outcome.value.token, user := Some(AuthUser(username)),
          loading := false, error := None) &&
        storage.items == old(storage.items)[AUTH_TOKEN_KEY := outcome.value.token.value] &&
        storage.GetItem(AUTH_TOKEN_KEY) == outcome.value.token
      ensures outcome.Success? && !Truthy(outcome.value.token) ==>
        auth.State() == old(auth.State()).(loading := false, error := None) &&
        storage.items == old(storage.items)
    {
      auth.LoginPending();
      outcome := Login(username, response);
      match outcome {
        case Success(payload) => auth.LoginFulfilled(payload);
        case Failure(reason) => auth.LoginRejected(Some(reason));
      }
    }

    /** `dispatch(logout())`: the thunk has no pending case in the reducer,
      so `loading` and `error` stay as they were. */
    method DispatchLogout() returns (outcome: bool)
      requires Valid()
      modifies auth, storage
      ensures Valid()
      ensures outcome
      ensures auth.State() == old(auth.State()).(isAuthenticated := false, token := None, user := None)
      ensures storage.items == old(storage.items) - {AUTH_TOKEN_KEY}
      ensures storage.GetItem(AUTH_TOKEN_KEY) == None
    {
      outcome := Logout();
      auth.LogoutFulfilled();
    }

    /** `dispatch(checkAuth())`: the session follows the stored token when
      there is a non-empty one; otherwise nothing changes. */
    method DispatchCheckAuth() returns (payload: Option<RestoredSession>)
      requires Valid()
      modifies auth
      ensures Valid()
      ensures payload == CheckAuth(storage.GetItem(AUTH_TOKEN_KEY))
      ensures Truthy(storage.GetItem(AUTH_TOKEN_KEY)) ==>
        auth.State() == old(auth.State()).(
          isAuthenticated := true, token := storage.GetItem(AUTH_TOKEN_KEY),
          user := Some(AuthUser(RESTORED_USER)))
      ensures !Truthy(storage.GetItem(AUTH_TOKEN_KEY)) ==> auth.State() == old(auth.State())
    {
      payload := CheckAuth(storage.GetItem(AUTH_TOKEN_KEY));
      auth.CheckAuthFulfilled(payload);
    }
  }

  /** After a 401 erased the stored token, the page reload that follows
      starts a fresh store whose session check leaves it signed out. */
  method ReloadAfterUnauthorized<T>(storage: LocalStorage, response: Response<T>)
    returns (store: RootStore)
    requires response.status == UNAUTHORIZED_STATUS
    modifies storage
    ensures store.Valid() && !store.auth.isAuthenticated && store.auth.token == None
  {
    var _, _ := HandleResponse(storage, response);
    store := new RootStore(storage);
    var _ := store.DispatchCheckAuth();
  }
}
