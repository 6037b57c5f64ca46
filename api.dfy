/** The remote-resource gateway helpers: the token gate and bearer header of
    `authenticatedFetch`, and the status classification of `handleResponse`.
    The network itself is a parameter: the `Transport` value is what `fetch`
    would deliver for the request that was built. */
module Api {
  import opened Wrappers
  import opened Text
  import opened Storage

  const API_BASE_URL: string := "https://fakestoreapi.com"
  const AUTHORIZATION: string := "Authorization"
  const BEARER_PREFIX: string := "Bearer "
  const AUTHENTICATION_REQUIRED: string := "Authentication required"
  const UNAUTHORIZED_ACCESS: string := "Unauthorized access"
  const API_ERROR_PREFIX: string := "API error: "
  const UNAUTHORIZED_STATUS: int := 401
  /** Where an unauthorized response sends the browser. */
  const LOGIN_PATH: string := "/login"

  /** A response: its status, status text, and what `response.json()` yields
      (the parsed body, or the message of the error it throws). */
  datatype Response<T> = Response(status: int, statusText: string, body: Result<T, string>)
  {
    /** `response.ok`: a 2xx status. */
    predicate Ok() { 200 <= status <= 299 }
  }

  /** What `fetch` settles with: a response, or the error it rejects with. */
  datatype Transport<T> = Delivered(response: Response<T>) | NetworkError(message: string)

  datatype RequestOptions = RequestOptions(httpMethod: Option<string>, headers: map<string, string>, body: Option<string>)

  datatype Request = Request(url: string, options: RequestOptions)

  /** What `handleResponse` returns or throws for a response: 401 is checked
      before `ok`, every other non-2xx status names its status text, and a 2xx
      response yields its parsed body. */
  function Classify<T>(response: Response<T>): (r: Result<T, Thrown>)
    ensures r.Success? <==> response.Ok() && response.body.Success?
    ensures r.Success? ==> r.value == response.body.value
    ensures response.status == UNAUTHORIZED_STATUS ==> r == Failure(ErrorThrown(UNAUTHORIZED_ACCESS))
    ensures response.status != UNAUTHORIZED_STATUS && !response.Ok() ==>
      r.Failure? && r.error.ErrorThrown? &&
      StartsWith(r.error.message, API_ERROR_PREFIX) &&
      r.error.message[|API_ERROR_PREFIX|..] == response.statusText
    ensures response.Ok() && response.body.Failure? ==> r == Failure(ErrorThrown(response.body.error))
  {
    if response.status == UNAUTHORIZED_STATUS then Failure(ErrorThrown(UNAUTHORIZED_ACCESS))
    else if !response.Ok() then Failure(ErrorThrown(API_ERROR_PREFIX + response.statusText))
    else match response.body
      case Success(v) => Success(v)
      case Failure(m) => Failure(ErrorThrown(m))
  }

  /** `handleResponse`: a 401 erases the stored token and sends the browser
      to the login page before throwing; nothing else touches storage. */
  method HandleResponse<T>(storage: LocalStorage, response: Response<T>)
    returns (r: Result<T, Thrown>, navigate: Option<string>)
    modifies storage
    ensures r == Classify(response)
    ensures response.status == UNAUTHORIZED_STATUS ==>
      storage.items == old(storage.items) - {AUTH_TOKEN_KEY} &&
      storage.GetItem(AUTH_TOKEN_KEY) == None &&
      navigate == Some(LOGIN_PATH)
    ensures response.status != UNAUTHORIZED_STATUS ==>
      storage.items == old(storage.items) && navigate == None
  {
    if response.status == UNAUTHORIZED_STATUS {
      storage.RemoveItem(AUTH_TOKEN_KEY);
      navigate := Some(LOGIN_PATH);
      r := Failure(ErrorThrown(UNAUTHORIZED_ACCESS));
      return;
    }
    navigate := None;
    if !response.Ok() {
      r := Failure(ErrorThrown(API_ERROR_PREFIX + response.statusText));
      return;
    }
    match response.body {
      case Success(v) => r := Success(v);
      case Failure(m) => r := Failure(ErrorThrown(m));
    }
  }

  /** The token `authenticatedFetch` proceeds with: `if (!token)` refuses
      both a missing token and the empty string. */
  function UsableToken(stored: Option<string>): (t: Option<string>)
    ensures t.Some? <==> Truthy(stored)
    ensures t.Some? ==> t == stored
  {
    if Truthy(stored) then stored else None
  }

  /** The options `authenticatedFetch` sends: the caller's options and
      headers, with the bearer header merged last so that it wins. */
  function WithBearer(options: RequestOptions, token: string): (r: RequestOptions)
    ensures AUTHORIZATION in r.headers && r.headers[AUTHORIZATION] == BEARER_PREFIX + token
    ensures forall k :: k != AUTHORIZATION ==> (k in r.headers <==> k in options.headers)
    ensures forall k :: k in options.headers && k != AUTHORIZATION ==> r.headers[k] == options.headers[k]
    ensures r.httpMethod == options.httpMethod && r.body == options.body
  {
    options.(headers := options.headers[AUTHORIZATION := BEARER_PREFIX + token])
  }

  /** The server can read the token back out of the header it receives. */
  lemma BearerTokenRecoverable(options: RequestOptions, token: string)
    ensures var h := WithBearer(options, token).headers[AUTHORIZATION];
      StartsWith(h, BEARER_PREFIX) && h[|BEARER_PREFIX|..] == token
  {
    var h := WithBearer(options, token).headers[AUTHORIZATION];
    assert h == BEARER_PREFIX + token;
    assert h[..|BEARER_PREFIX|] == BEARER_PREFIX;
  }

  /** `authenticatedFetch`: with no usable stored token it throws before any
      request is built; otherwise it sends the bearer request and hands the
      response to `handleResponse`. */
  method AuthenticatedFetch<T>(storage: LocalStorage, url: string, options: RequestOptions, network: Transport<T>)
    returns (sent: Option<Request>, r: Result<T, Thrown>, navigate: Option<string>)
    modifies storage
    ensures var stored := old(storage.GetItem(AUTH_TOKEN_KEY));
      !Truthy(stored) ==>
        sent == None && r == Failure(ErrorThrown(AUTHENTICATION_REQUIRED)) &&
        navigate == None && storage.items == old(storage.items)
    ensures var stored := old(storage.GetItem(AUTH_TOKEN_KEY));
      Truthy(stored) ==> sent == Some(Request(url, WithBearer(options, stored.value)))
    ensures sent.Some? && network.NetworkError? ==>
      r == Failure(ErrorThrown(network.message)) && navigate == None && storage.items == old(storage.items)
    ensures sent.Some? && network.Delivered? ==>
      r == Classify(network.response) &&
      (navigate == Some(LOGIN_PATH) <==> network.response.status == UNAUTHORIZED_STATUS) &&
      storage.items == if network.response.status == UNAUTHORIZED_STATUS
                       then old(storage.items) - {AUTH_TOKEN_KEY} else old(storage.items)
  {
    var token := UsableToken(storage.GetItem(AUTH_TOKEN_KEY));
    if token == None {
      sent, r, navigate := None, Failure(ErrorThrown(AUTHENTICATION_REQUIRED)), None;
      return;
    }
    var authOptions := WithBearer(options, token.value);
    sent := Some(Request(url, authOptions));
    match network {
      case NetworkError(m) =>
        r, navigate := Failure(ErrorThrown(m)), None;
      case Delivered(response) =>
        r, navigate := HandleResponse(storage, response);
    }
  }

  /** After an unauthorized response the gate refuses the next authenticated
      call before any request is sent. */
  method UnauthorizedThenRefused<T, U>(storage: LocalStorage, url: string, options: RequestOptions,
                                       first: Response<T>, next: Transport<U>)
    returns (r: Result<U, Thrown>)
    requires first.status == UNAUTHORIZED_STATUS
    modifies storage
    ensures r == Failure(ErrorThrown(AUTHENTICATION_REQUIRED))
  {
    var _, _ := HandleResponse(storage, first);
    var sent, nav;
    sent, r, nav := AuthenticatedFetch(storage, url, options, next);
  }
}
