/**
 * The API helpers (client/src/services/api.js): the request interceptor that attaches the stored
 * token, the response interceptor that forgets it on a 401, `isAuthenticated`, `handleApiError`,
 * and the token handling of `login` and `logout`. The HTTP calls themselves are outside the model:
 * each helper takes the outcome of its request as a parameter.
 */
module Api {
  import opened Wrappers
  import Bearer

  /** The storage key these helpers keep the token under. */
  const AuthTokenKey: string := "authToken"
  /** The key the dashboard, login and registration pages use (Dashboard.js line 56). */
  const PageTokenKey: string := "token"
  /** 401 Unauthorized, section 15.5.2 of RFC 9110. */
  const Unauthorized: int := 401
  const AuthorizationHeader: string := "Authorization"

  const ResponseErrorText: string := "An error occurred"
  const NetworkErrorText: string := "Network error. Please check your connection."
  const UnexpectedErrorText: string := "An unexpected error occurred"

  /** The browser's `localStorage`. */
  class LocalStorage {
    var items: map<string, string>

    constructor (items: map<string, string>)
      ensures this.items == items
    {
      this.items := items;
    }

    /** `localStorage.getItem(key)`. */
    function GetItem(key: string): Option<string>
      reads this
    {
      Lookup(items, key)
    }
  }

  /** The `config` object an interceptor receives; only its headers matter here. */
  class RequestConfig {
    var headers: map<string, string>

    constructor (headers: map<string, string>)
      ensures this.headers == headers
    {
      this.headers := headers;
    }
  }

  /** `isAuthenticated`, on the stored items: a non-empty token is stored. */
  predicate Authenticated(items: map<string, string>) {
    Truthy(Lookup(items, AuthTokenKey))
  }

  /** What the request interceptor makes of the headers, given the stored token. */
  function WithAuthorization(headers: map<string, string>, token: Option<string>): (r: map<string, string>)
    ensures !Truthy(token) ==> r == headers
    ensures Truthy(token) ==> r.Keys == headers.Keys + {AuthorizationHeader}
                              && Bearer.ParseCredentials(r[AuthorizationHeader]) == Some(token.value)
    ensures forall k :: k in headers && k != AuthorizationHeader ==> k in r && r[k] == headers[k]
  {
    if Truthy(token) then
      Bearer.CredentialsRoundTrip(token.value);
      headers[AuthorizationHeader := Bearer.Credentials(token.value)]
    else headers
  }

  /** A request carries an `Authorization` header it did not already have exactly when a token is stored. */
  lemma InterceptorAddsHeaderIffAuthenticated(items: map<string, string>, headers: map<string, string>)
    requires AuthorizationHeader !in headers
    ensures AuthorizationHeader in WithAuthorization(headers, Lookup(items, AuthTokenKey)) <==> Authenticated(items)
  {
  }

  /** The token the login and registration pages store under their own key is not one these
      helpers see: storing it changes neither `isAuthenticated` nor the headers a request gets. */
  lemma PageTokenInvisible(items: map<string, string>, token: string, headers: map<string, string>)
    ensures Authenticated(items[PageTokenKey := token]) == Authenticated(items)
    ensures WithAuthorization(headers, Lookup(items[PageTokenKey := token], AuthTokenKey))
            == WithAuthorization(headers, Lookup(items, AuthTokenKey))
  {
    assert Lookup(items[PageTokenKey := token], AuthTokenKey) == Lookup(items, AuthTokenKey);
  }

  /** The request interceptor: sets `Authorization: Bearer <token>` when a token is stored and
      otherwise leaves the headers as they were. */
  method RequestInterceptor(config: RequestConfig, storage: LocalStorage)
    modifies config
    ensures config.headers == WithAuthorization(old(config.headers), storage.GetItem(AuthTokenKey))
  {
    var token := storage.GetItem(AuthTokenKey);
    if Truthy(token) {
      config.headers := config.headers[AuthorizationHeader := Bearer.Credentials(token.value)];
    }
  }

  /** `error.response.data`: only its `message` is read. */
  datatype ResponseData = ResponseData(message: Option<string>)

  datatype ErrorResponse = ErrorResponse(status: int, data: Option<ResponseData>)

  /** An axios error: the server's response if one came back, whether a request went out, and the
      error's own message. */
  datatype ApiError = ApiError(response: Option<ErrorResponse>, hasRequest: bool, message: Option<string>)

  /** The stored items after a failed response has passed the response interceptor. */
  function AfterResponseError(items: map<string, string>, e: ApiError): (r: map<string, string>)
    ensures forall k :: k in r ==> k in items && r[k] == items[k]
    ensures forall k :: k in items && k != AuthTokenKey ==> k in r
  {
    if e.response.Some? && e.response.value.status == Unauthorized then items - {AuthTokenKey} else items
  }

  /** A 401 always logs the client out; any other error leaves the session alone. */
  lemma ResponseErrorLogsOutOn401(items: map<string, string>, e: ApiError)
    ensures e.response.Some? && e.response.value.status == Unauthorized ==> !Authenticated(AfterResponseError(items, e))
    ensures !(e.response.Some? && e.response.value.status == Unauthorized) ==> AfterResponseError(items, e) == items
  {
  }

  /** The response interceptor's error path: a 401 removes the stored token; the error is passed on
      to the caller in every case. */
  method ResponseErrorInterceptor(storage: LocalStorage, e: ApiError) returns (rejected: ApiError)
    modifies storage
    ensures rejected == e
    ensures storage.items == AfterResponseError(old(storage.items), e)
  {
    if e.response.Some? && e.response.value.status == Unauthorized {
      storage.items := storage.items - {AuthTokenKey};
    }
    rejected := e;
  }

  /** `utils.isAuthenticated`. */
  function IsAuthenticated(storage: LocalStorage): (r: bool)
    reads storage
    ensures r <==> AuthTokenKey in storage.items && storage.items[AuthTokenKey] != ""
  {
    Truthy(storage.GetItem(AuthTokenKey))
  }

  datatype ErrorKind = ServerResponded | NoResponse | NotSent

  /** Which branch of `handleApiError` an error takes. */
  function Classify(e: ApiError): ErrorKind {
    if e.response.Some? then ServerResponded else if e.hasRequest then NoResponse else NotSent
  }

  datatype ErrorInfo = ErrorInfo(message: string, status: Option<int>, data: Option<ResponseData>)

  /** `utils.handleApiError`. */
  function HandleApiError(e: ApiError): (r: ErrorInfo)
    ensures r.message != ""
    ensures r.status.Some? <==> Classify(e) == ServerResponded
    ensures Classify(e) == ServerResponded ==>
              && r.status == Some(e.response.value.status)
              && r.data == e.response.value.data
              && r.message == (if e.response.value.data.Some? then OrElse(e.response.value.data.value.message, ResponseErrorText)
                               else ResponseErrorText)
    ensures Classify(e) == NoResponse ==> r == ErrorInfo(NetworkErrorText, None, None)
    ensures Classify(e) == NotSent ==> r == ErrorInfo(OrElse(e.message, UnexpectedErrorText), None, None)
  {
    match e.response
    case Some(resp) =>
      var message := if resp.data.Some? then resp.data.value.message else None;
      ErrorInfo(OrElse(message, ResponseErrorText), Some(resp.status), resp.data)
    case None =>
      if e.hasRequest then ErrorInfo(NetworkErrorText, None, None)
      else ErrorInfo(OrElse(e.message, UnexpectedErrorText), None, None)
  }

  /** The server's reply to a login, as far as these helpers read it. */
  datatype LoginReply = LoginReply(token: Option<string>, user: Option<string>)

  datatype LoginOutcome = LoggedIn(reply: LoginReply) | LoginFailed(error: ApiError)

  /** The stored items after `login` returns or throws. Its request goes through the response
      interceptor, so a failure has already passed `AfterResponseError` when `login` rethrows it. */
  function AfterLogin(items: map<string, string>, outcome: LoginOutcome): map<string, string> {
    match outcome
    case LoggedIn(reply) => if Truthy(reply.token) then items[AuthTokenKey := reply.token.value] else items
    case LoginFailed(e) => AfterResponseError(items, e)
  }

  /** The stored items after `logout`, whether its request succeeded or not. */
  function AfterLogout(items: map<string, string>): map<string, string> {
    items - {AuthTokenKey}
  }

  /** A login that returns a token authenticates the client with that token; a reply without one
      leaves storage alone; a login refused with a 401 ends any earlier session, and any other failure
      leaves storage alone. Logging out always ends the session, and touches no other stored item. */
  lemma LoginLogoutSession(items: map<string, string>, outcome: LoginOutcome)
    ensures outcome.LoggedIn? && Truthy(outcome.reply.token) ==>
              Authenticated(AfterLogin(items, outcome))
              && Lookup(AfterLogin(items, outcome), AuthTokenKey) == outcome.reply.token
    ensures outcome.LoggedIn? && !Truthy(outcome.reply.token) ==> AfterLogin(items, outcome) == items
    ensures outcome.LoginFailed? ==>
              if outcome.error.response.Some? && outcome.error.response.value.status == Unauthorized
              then !Authenticated(AfterLogin(items, outcome))
              else AfterLogin(items, outcome) == items
    ensures !Authenticated(AfterLogout(AfterLogin(items, outcome)))
    ensures forall k :: k in items && k != AuthTokenKey ==> k in AfterLogout(items) && AfterLogout(items)[k] == items[k]
  {
  }

  /** `authAPI.login`: stores the token only when the reply carries one; a failure is rethrown after
      the response interceptor has seen it (so a 401 has removed the stored token). */
  method Login(storage: LocalStorage, outcome: LoginOutcome) returns (reply: Option<LoginReply>, thrown: Option<ApiError>)
    modifies storage
    ensures storage.items == AfterLogin(old(storage.items), outcome)
    ensures outcome.LoggedIn? ==> reply == Some(outcome.reply) && thrown == None
    ensures outcome.LoginFailed? ==> reply == None && thrown == Some(outcome.error)
  {
    match outcome {
      case LoggedIn(r) =>
        if Truthy(r.token) {
          storage.items := storage.items[AuthTokenKey := r.token.value];
        }
        reply, thrown := Some(r), None;
      case LoginFailed(e) =>
        var passed := ResponseErrorInterceptor(storage, e);
        reply, thrown := None, Some(passed);
    }
  }

  /** `authAPI.logout`: the token is removed on the success path and on the failure path; a failure
      is rethrown. */
  method Logout(storage: LocalStorage, failure: Option<ApiError>) returns (thrown: Option<ApiError>)
    modifies storage
    ensures storage.items == AfterLogout(old(storage.items))
    ensures thrown == failure
  {
    storage.items := storage.items - {AuthTokenKey};
    thrown := failure;
  }
}
