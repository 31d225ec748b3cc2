/** frontend/src/services/api.js: the HTTP client every component uses. Requests carry the stored
    bearer token; a 401 answer clears the stored credentials and sends the browser to the login
    page; every failure reaches the caller normalised by `handleApiError`. */
module ApiClient {
  import opened Common

  /** The part of an axios error the client looks at: the server's answer when there was one,
      whether a request went out, and the error's own message. */
  datatype ServerResponse = ServerResponse(status: int, data: JsValue)
  datatype AxiosError = AxiosError(response: Option<ServerResponse>, request: bool, message: JsValue)

  /** The object `handleApiError` builds and the resource methods throw. */
  datatype ApiError = ApiError(message: JsValue, status: int, data: JsValue)

  const ServerErrorText := "Server error"
  const NetworkErrorText := "Network error. Please check your connection."
  const UnexpectedErrorText := "An unexpected error occurred"

  /** `handleApiError`: with a server answer, its `detail`, else its `error`, else a fixed text, and
      the answer's status and body; with only a request, the network text, status 0 and no body;
      otherwise the error's own message or a fixed text. */
  function HandleApiError(e: AxiosError): (r: ApiError)
    ensures Truthy(r.message)
    ensures e.response.Some? ==> r.status == e.response.value.status && r.data == e.response.value.data
    ensures e.response.Some? ==>
      var data := e.response.value.data;
      && (Truthy(Prop(data, "detail")) ==> r.message == Prop(data, "detail"))
      && (!Truthy(Prop(data, "detail")) && Truthy(Prop(data, "error")) ==> r.message == Prop(data, "error"))
      && (!Truthy(Prop(data, "detail")) && !Truthy(Prop(data, "error")) ==> r.message == Str(ServerErrorText))
    ensures e.response.None? && e.request ==> r == ApiError(Str(NetworkErrorText), 0, Null)
    ensures e.response.None? && !e.request ==>
      && r.status == 0 && r.data == Null
      && r.message == (if Truthy(e.message) then e.message else Str(UnexpectedErrorText))
  {
    match e.response
    case Some(resp) =>
      ApiError(Or(Prop(resp.data, "detail"), Or(Prop(resp.data, "error"), Str(ServerErrorText))), resp.status, resp.data)
    case None =>
      if e.request then ApiError(Str(NetworkErrorText), 0, Null)
      else ApiError(Or(e.message, Str(UnexpectedErrorText)), 0, Null)
  }

  /** Only a server answer gives a non-zero status, and then the answer's own. */
  lemma StatusFromServerOnly(e: AxiosError)
    ensures HandleApiError(e).status != 0 ==> e.response.Some? && HandleApiError(e).status == e.response.value.status
  {
  }

  const TokenKey := "auth_token"
  const UserDataKey := "user_data"
  const LoginPath := "/login"
  const BearerPrefix := "Bearer "

  /** The value the request interceptor gives the `Authorization` header (the bearer scheme of
      section 2.1 of RFC 6750), or `None` when it leaves the header alone: only a stored, non-empty
      token is sent. */
  function AuthorizationValue(storage: map<string, string>): (r: Option<string>)
    ensures r.Some? <==> TokenKey in storage && storage[TokenKey] != ""
    ensures r.Some? ==> |r.value| > |BearerPrefix| && r.value[..|BearerPrefix|] == BearerPrefix
  {
    if TokenKey in storage && storage[TokenKey] != "" then Some(BearerPrefix + storage[TokenKey]) else None
  }

  /** The token a server reads back out of a bearer `Authorization` value. */
  function BearerToken(header: string): (r: Option<string>)
    ensures r.Some? ==> header == BearerPrefix + r.value
  {
    if |header| >= |BearerPrefix| && header[..|BearerPrefix|] == BearerPrefix then Some(header[|BearerPrefix|..])
    else None
  }

  /** The header the client sends carries exactly the stored token. */
  lemma AuthorizationCarriesToken(storage: map<string, string>)
    requires AuthorizationValue(storage).Some?
    ensures BearerToken(AuthorizationValue(storage).value) == Some(storage[TokenKey])
  {
    var h := AuthorizationValue(storage).value;
    assert h[..|BearerPrefix|] == BearerPrefix;
    assert h[|BearerPrefix|..] == storage[TokenKey];
  }

  /** The headers of one outgoing request, which the request interceptor updates in place. */
  class RequestConfig {
    var headers: map<string, string>

    constructor(headers: map<string, string>)
      ensures this.headers == headers
    {
      this.headers := headers;
    }

    /** The request interceptor: sets `Authorization` from the stored token, or changes nothing. */
    method Authorize(browser: Browser)
      modifies this`headers
      ensures AuthorizationValue(browser.storage).Some? ==>
        headers == old(headers)["Authorization" := AuthorizationValue(browser.storage).value]
      ensures AuthorizationValue(browser.storage).None? ==> headers == old(headers)
    {
      if TokenKey in browser.storage {
        var token := browser.storage[TokenKey];
        if token != "" {
          headers := headers["Authorization" := BearerPrefix + token];
        }
      }
    }
  }

  /** The browser state the client touches: `localStorage` and `window.location.href`. */
  class Browser {
    var storage: map<string, string>
    var location: string

    constructor(storage: map<string, string>, location: string)
      ensures this.storage == storage && this.location == location
    {
      this.storage := storage;
      this.location := location;
    }

    /** The response interceptor's error branch: a 401 answer removes the stored token and user
        and goes to the login page; any other failure changes nothing. The error is passed on
        as it came. */
    method RejectResponse(e: AxiosError) returns (rejected: AxiosError)
      modifies this
      ensures rejected == e
      ensures IsUnauthorized(e) ==> storage == old(storage) - {TokenKey, UserDataKey} && location == LoginPath
      ensures !IsUnauthorized(e) ==> storage == old(storage) && location == old(location)
    {
      if e.response.Some? && e.response.value.status == 401 {
        storage := storage - {TokenKey};
        storage := storage - {UserDataKey};
        location := LoginPath;
      }
      return e;
    }

    /** One resource method (`authAPI.login`, `driftsAPI.list`, ...): the body of a successful
        answer, or the normalised error, after the response interceptor has run. `outcome` is
        what the network gave. */
    method Call(outcome: Transport) returns (r: Settled<JsValue>)
      modifies this
      ensures outcome.Delivered? ==> r == Resolved(outcome.data) && storage == old(storage) && location == old(location)
      ensures outcome.Failed? ==> r == Rejected(HandleApiError(outcome.error))
      ensures outcome.Failed? && IsUnauthorized(outcome.error) ==>
        storage == old(storage) - {TokenKey, UserDataKey} && location == LoginPath
      ensures outcome.Failed? && !IsUnauthorized(outcome.error) ==>
        storage == old(storage) && location == old(location)
    {
      match outcome
      case Delivered(data) =>
        r := Resolved(data);
      case Failed(error) =>
        var passed := RejectResponse(error);
        r := Rejected(HandleApiError(passed));
    }
  }

  predicate IsUnauthorized(e: AxiosError) {
    e.response.Some? && e.response.value.status == 401
  }

  /** What the network gave a request: a successful answer's body, or an axios error. */
  datatype Transport = Delivered(data: JsValue) | Failed(error: AxiosError)

  /** How an awaited call settles: its value, or the normalised error it throws. */
  datatype Settled<+T> = Resolved(value: T) | Rejected(reason: ApiError)

  /** After a 401 the next request goes out without credentials. */
  lemma UnauthorizedLogsOut(storage: map<string, string>)
    ensures AuthorizationValue(storage - {TokenKey, UserDataKey}).None?
  {
  }
}
