/** What the four user thunks settle with. `fetchUsers` asks the server
    (without a token) and passes the response through `handleResponse`; the
    other three contact no server and, after their delay, always fulfil with
    a payload built by object spread. */
module UserActions {
  import opened Wrappers
  import opened Storage
  import opened Api
  import opened UserSlice

  const UNKNOWN_ERROR: string := "An unknown error occurred"
  const USERS_URL: string := API_BASE_URL + "/users"

  /** An optional `id` key: absent, or present with a number or `undefined`. */
  datatype IdKey = Absent | Present(value: Option<int>)

  /** `UserFormData`. */
  datatype UserFormData = UserFormData(
    id: IdKey,
    name: Name,
    email: string,
    username: string,
    password: Option<string>,
    address: Option<Address>,
    phone: Option<string>)

  /** The rejection value of the user thunks' catch blocks: an `Error`'s
      message, or a fixed text for anything else that was thrown. */
  function RejectionMessage(e: Thrown): (r: string)
    ensures e.ErrorThrown? ==> r == e.message
    ensures e.OtherThrown? ==> r == UNKNOWN_ERROR
  {
    match e
    case ErrorThrown(m) => m
    case OtherThrown => UNKNOWN_ERROR
  }

  /** `{ id: base, ...data }`: a key present in `data` overrides the one
      before it, even when its value is `undefined`. */
  function Spread(base: Option<int>, data: UserFormData): (u: User)
    ensures u.id == (if data.id.Present? then data.id.value else base)
    ensures u.name == data.name && u.email == data.email && u.username == data.username
    ensures u.password == data.password && u.address == data.address && u.phone == data.phone
  {
    User(if data.id.Present? then data.id.value else base,
         data.email, data.username, data.password, data.name, data.address, data.phone)
  }

  /** `createUser`'s payload `{ id: Date.now(), ...userData }`; the clock
      reading is a parameter. */
  function CreateUserPayload(now: int, data: UserFormData): (u: User)
    ensures data.id.Absent? ==> u.id == Some(now)
    ensures data.id.Present? ==> u.id == data.id.value
  {
    Spread(Some(now), data)
  }

  /** `updateUser`'s payload `{ id, ...userData }`. */
  function UpdateUserPayload(id: Option<int>, data: UserFormData): (u: User)
    ensures data.id.Absent? ==> u.id == id
    ensures data.id.Present? ==> u.id == data.id.value
  {
    Spread(id, data)
  }

  /** Whenever the form data carries an `id` key, the generated id is never
      used: the payload is the same at every clock reading. */
  lemma CreateIgnoresClockWhenIdKeyPresent(now1: int, now2: int, data: UserFormData)
    requires data.id.Present?
    ensures CreateUserPayload(now1, data) == CreateUserPayload(now2, data)
  {
  }

  /** The spread copies every field but the id: the user's fields can be
      read back as form data that differs only in the id key. */
  lemma SpreadRoundTrip(base: Option<int>, data: UserFormData)
    ensures var u := Spread(base, data);
      UserFormData(Present(u.id), u.name, u.email, u.username, u.password, u.address, u.phone)
        == data.(id := Present(u.id))
  {
  }

  /** `fetchUsers`: an unauthenticated request whose response goes through
      `handleResponse`; whatever is thrown becomes the rejection message. */
  method FetchUsers(storage: LocalStorage, network: Transport<seq<User>>)
    returns (outcome: Result<seq<User>, string>, navigate: Option<string>)
    modifies storage
    ensures network.NetworkError? ==>
      outcome == Failure(network.message) && navigate == None && storage.items == old(storage.items)
    ensures network.Delivered? ==>
      (match Classify(network.response)
       case Success(v) => outcome == Success(v)
       case Failure(e) => outcome == Failure(RejectionMessage(e))) &&
      storage.items == if network.response.status == UNAUTHORIZED_STATUS
                       then old(storage.items) - {AUTH_TOKEN_KEY} else old(storage.items)
    ensures navigate == if network.Delivered? && network.response.status == UNAUTHORIZED_STATUS
                        then Some(LOGIN_PATH) else None
  {
    match network {
      case NetworkError(m) =>
        outcome, navigate := Failure(RejectionMessage(ErrorThrown(m))), None;
      case Delivered(response) =>
        var r;
        r, navigate := HandleResponse(storage, response);
        match r {
          case Success(v) => outcome := Success(v);
          case Failure(e) => outcome := Failure(RejectionMessage(e));
        }
    }
  }
}
