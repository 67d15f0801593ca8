/**
 * The session core of `AuthService` and `ApiService` as functions of the state
 * they read and write. Each function gives the new state and the outcome of one
 * operation; the `Browser` class performs the same operations step by step and
 * is proved to agree with these functions.
 */
module Session {
  import opened Wrappers
  import opened Js
  import opened Http

  const ApiBaseUrl := "https://api.efataprime.com.br/api"
  const LoginPage := "/pages/login.html"

  /**
   * The state the core touches: the `access_token` and `refresh_token` entries of
   * `localStorage`, the page the window was sent to, and every request handed to
   * `fetch` so far, oldest first.
   */
  datatype Env = Env(access: Option<string>, refresh: Option<string>, location: Option<string>, sent: seq<Request>)

  /** The state after an operation, and what the operation returned or threw. */
  datatype Step<T> = Step(env: Env, result: Result<T, ApiError>)

  /** `!!localStorage.getItem(key)`: the entry is present and not the empty string. */
  predicate Present(entry: Option<string>)
  {
    entry.Some? && entry.value != ""
  }

  /** `isAuthenticated()`: presence of a non-empty access token, nothing more. */
  predicate IsAuthenticated(e: Env)
  {
    Present(e.access)
  }

  /** `${token}` for a `localStorage` entry: an absent entry (`null`) is printed as `null`. */
  function TokenText(token: Option<string>): string
  {
    match token
    case Some(t) => t
    case None => "null"
  }

  /** `Bearer ${token}`. */
  function Bearer(token: Option<string>): string
  {
    "Bearer " + TokenText(token)
  }

  /** `getAuthHeaders()`: read at call time from the stored access token. */
  function AuthHeaders(e: Env): (h: Headers)
    ensures h.contentType == Some(JsonContentType)
    ensures h.authorization == Some(Bearer(e.access))
  {
    Headers(Some(Bearer(e.access)), Some(JsonContentType))
  }

  /** The headers of `uploadFile`: the same credential, no content type. */
  function UploadHeaders(e: Env): (h: Headers)
    ensures h.contentType.None?
    ensures h.authorization == AuthHeaders(e).authorization
  {
    Headers(Some(Bearer(e.access)), None)
  }

  /** Two different stored tokens are never sent as the same credential. */
  lemma BearerDistinguishes(t1: string, t2: string)
    requires t1 != t2
    ensures Bearer(Some(t1)) != Bearer(Some(t2))
  {
    assert Bearer(Some(t1))[7..] == t1;
    assert Bearer(Some(t2))[7..] == t2;
  }

  /**
   * Two states send the same JSON headers exactly when their stored access
   * tokens print the same: the same entry, or one absent and the other "null".
   */
  lemma SameHeadersIffSameToken(e1: Env, e2: Env)
    ensures AuthHeaders(e1) == AuthHeaders(e2) <==> TokenText(e1.access) == TokenText(e2.access)
    ensures AuthHeaders(e1) == AuthHeaders(e2) <==>
      e1.access == e2.access || {e1.access, e2.access} == {None, Some("null")}
  {
    var b1, b2 := Bearer(e1.access), Bearer(e2.access);
    assert b1[7..] == TokenText(e1.access);
    assert b2[7..] == TokenText(e2.access);
  }

  /** A missing access token goes out as `Bearer null`, the same header as a stored token `"null"`. */
  lemma MissingTokenSentAsNull(e: Env)
    requires e.access.None?
    ensures AuthHeaders(e).authorization == Some("Bearer null")
    ensures AuthHeaders(e) == AuthHeaders(e.(access := Some("null")))
  {
    assert "Bearer " + "null" == "Bearer null";
  }

  /**
   * `isAuthenticated()` false does not stop a gateway call: the header is still
   * sent, carrying `null` or nothing as the credential.
   */
  lemma UnauthenticatedStillSendsHeader(e: Env)
    ensures !IsAuthenticated(e) ==> AuthHeaders(e).authorization in {Some("Bearer null"), Some("Bearer ")}
  {
    assert "Bearer " + "null" == "Bearer null";
    assert "Bearer " + "" == "Bearer ";
  }

  /** The request of the token exchange, `POST /token/` with the credentials as JSON. */
  function LoginRequest(username: string, password: string): Request
  {
    Request(POST, ApiBaseUrl + "/token/", [], Headers(None, Some(JsonContentType)),
            JsonBody([("username", Str(username)), ("password", Str(password))]))
  }

  /** The renewal request, `POST /token/refresh/` carrying the stored refresh token. */
  function RefreshRequest(token: string): Request
  {
    Request(POST, ApiBaseUrl + "/token/refresh/", [], Headers(None, Some(JsonContentType)),
            JsonBody([("refresh", Str(token))]))
  }

  /**
   * `login(username, password)`: the tokens are written only after a 2xx response
   * whose body parses to something other than `null`; every failure leaves both
   * entries as they were.
   */
  function LoginSpec(e: Env, username: string, password: string, reply: Transport): (s: Step<Json>)
    ensures s.env.sent == e.sent + [LoginRequest(username, password)]
    ensures s.env.location == e.location
    ensures s.result.Success? <==>
      reply.Delivered? && IsOk(reply.response.status) && reply.response.json.Some? && !reply.response.json.value.JsonNull?
    ensures s.result.Success? ==>
      && s.result.value == reply.response.json.value
      && s.env.access == Some(ToStr(Member(s.result.value, "access").value))
      && s.env.refresh == Some(ToStr(Member(s.result.value, "refresh").value))
    ensures s.result.Failure? ==> s.env.access == e.access && s.env.refresh == e.refresh
    ensures reply.NetworkFailure? ==> s.result == Failure(NetworkError)
    ensures reply.Delivered? && !IsOk(reply.response.status) ==> s.result == Failure(InvalidCredentials)
    ensures reply.Delivered? && IsOk(reply.response.status) && reply.response.json == Some(JsonNull) ==>
      s.result == Failure(NullBodyProperty)
  {
    var e1 := e.(sent := e.sent + [LoginRequest(username, password)]);
    match reply
    case NetworkFailure => Step(e1, Failure(NetworkError))
    case Delivered(resp) =>
      if !IsOk(resp.status) then Step(e1, Failure(InvalidCredentials))
      else
        (match resp.json
         case None => Step(e1, Failure(MalformedBody))
         case Some(data) =>
           if data.JsonNull? then Step(e1, Failure(NullBodyProperty))
           else
             Step(e1.(access := Some(ToStr(Member(data, "access").value)),
                      refresh := Some(ToStr(Member(data, "refresh").value))),
                  Success(data)))
  }

  /**
   * `refreshToken()`: without a (non-empty) refresh token it throws before any
   * request; on success it overwrites the access token only; on every other
   * outcome it clears both tokens before rethrowing.
   */
  function RefreshSpec(e: Env, reply: Transport): (s: Step<Json>)
    ensures !Present(e.refresh) ==> s == Step(e, Failure(MissingRefreshToken))
    ensures Present(e.refresh) ==> s.env.sent == e.sent + [RefreshRequest(e.refresh.value)]
    ensures s.env.location == e.location
    ensures s.result.Success? <==>
      && Present(e.refresh) && reply.Delivered? && IsOk(reply.response.status)
      && reply.response.json.Some? && !reply.response.json.value.JsonNull?
    ensures s.result.Success? ==>
      && s.result.value == reply.response.json.value
      && s.env.refresh == e.refresh
      && s.env.access == Some(ToStr(Member(s.result.value, "access").value))
    ensures Present(e.refresh) && s.result.Failure? ==> s.env.access.None? && s.env.refresh.None?
    ensures Present(e.refresh) && reply.NetworkFailure? ==> s.result == Failure(NetworkError)
    ensures Present(e.refresh) && reply.Delivered? && !IsOk(reply.response.status) ==>
      s.result == Failure(RefreshRejected)
  {
    if !Present(e.refresh) then Step(e, Failure(MissingRefreshToken))
    else
      var e1 := e.(sent := e.sent + [RefreshRequest(e.refresh.value)]);
      var cleared := e1.(access := None, refresh := None);
      match reply
      case NetworkFailure => Step(cleared, Failure(NetworkError))
      case Delivered(resp) =>
        if !IsOk(resp.status) then Step(cleared, Failure(RefreshRejected))
        else
          (match resp.json
           case None => Step(cleared, Failure(MalformedBody))
           case Some(data) =>
             if data.JsonNull? then Step(cleared, Failure(NullBodyProperty))
             else Step(e1.(access := Some(ToStr(Member(data, "access").value))), Success(data)))
  }

  /** `logout()`: both tokens removed and the window sent to the login page; no request. */
  function LogoutSpec(e: Env): (e': Env)
    ensures !IsAuthenticated(e') && e'.access.None? && e'.refresh.None?
    ensures e'.location == Some(LoginPage)
    ensures e'.sent == e.sent
  {
    e.(access := None, refresh := None, location := Some(LoginPage))
  }

  /** The original request with its headers recomputed from the current access token. */
  function Retried(original: Request, e: Env): (r: Request)
    ensures r.headers.authorization == Some(Bearer(e.access))
    ensures r.verb == original.verb && r.url == original.url && r.query == original.query && r.body == original.body
  {
    original.(headers := AuthHeaders(e))
  }

  /**
   * `handleResponse(response)`. A 401 triggers one renewal; if anything in that
   * block throws (a failed renewal, or reading the non-standard
   * `response.request`), the session is logged out and the call fails with
   * `SessionExpired`; otherwise the original request is sent once more and that
   * fetch's response is returned as it is, without being handled again. Any
   * other status leaves the state untouched: a non-2xx status throws the
   * server's `detail` or the generic message, a 2xx returns the parsed body.
   */
  function HandleSpec(e: Env, response: Response, refresh: Transport, retry: Transport): (s: Step<Reply>)
    ensures response.status != 401 ==> s.env == e
    ensures response.status != 401 && IsOk(response.status) ==>
      s.result == (if response.json.Some? then Success(Payload(response.json.value)) else Failure(MalformedBody))
    ensures response.status != 401 && !IsOk(response.status) ==>
      s.result == (if response.json.None? then Failure(MalformedBody)
                   else if response.json.value.JsonNull? then Failure(NullBodyProperty)
                   else Failure(RequestFailed(DetailMessage(Member(response.json.value, "detail").value))))
    ensures response.status == 401 ==>
      (s.result == Failure(SessionExpired) <==> RefreshSpec(e, refresh).result.Failure? || response.request.None?)
    ensures response.status == 401 && s.result == Failure(SessionExpired) ==>
      && !IsAuthenticated(s.env) && s.env.refresh.None? && s.env.location == Some(LoginPage)
      && (s.env.sent == e.sent || (Present(e.refresh) && s.env.sent == e.sent + [RefreshRequest(e.refresh.value)]))
    ensures response.status == 401 && s.result != Failure(SessionExpired) ==>
      && response.request.Some? && Present(e.refresh)
      && s.env.refresh == e.refresh && s.env.location == e.location
      && s.env.access == Some(ToStr(Member(refresh.response.json.value, "access").value))
      && s.env.sent == e.sent + [RefreshRequest(e.refresh.value), Retried(response.request.value, s.env)]
      && s.result == (if retry.Delivered? then Success(Raw(retry.response)) else Failure(NetworkError))
  {
    if response.status == 401 then
      var renewal := RefreshSpec(e, refresh);
      if renewal.result.Failure? || response.request.None? then
        Step(LogoutSpec(renewal.env), Failure(SessionExpired))
      else
        var again := Retried(response.request.value, renewal.env);
        var e1 := renewal.env.(sent := renewal.env.sent + [again]);
        (match retry
         case NetworkFailure => Step(e1, Failure(NetworkError))
         case Delivered(r) => Step(e1, Success(Raw(r))))
    else if !IsOk(response.status) then
      (match response.json
       case None => Step(e, Failure(MalformedBody))
       case Some(j) =>
         if j.JsonNull? then Step(e, Failure(NullBodyProperty))
         else Step(e, Failure(RequestFailed(DetailMessage(Member(j, "detail").value)))))
    else
      (match response.json
       case None => Step(e, Failure(MalformedBody))
       case Some(j) => Step(e, Success(Payload(j))))
  }

  /**
   * One gateway call: the request is handed to `fetch` first; a rejected fetch
   * is rethrown as it is, a response goes through `handleResponse`.
   */
  function SendSpec(e: Env, request: Request, net: Exchange): (s: Step<Reply>)
    ensures |e.sent| < |s.env.sent| <= |e.sent| + 3
    ensures s.env.sent[..|e.sent| + 1] == e.sent + [request]
    ensures net.first.NetworkFailure? ==> s == Step(e.(sent := e.sent + [request]), Failure(NetworkError))
    ensures net.first.Delivered? && net.first.response.status != 401 ==> s.env == e.(sent := e.sent + [request])
  {
    var e1 := e.(sent := e.sent + [request]);
    match net.first
    case NetworkFailure => Step(e1, Failure(NetworkError))
    case Delivered(response) =>
      var s := HandleSpec(e1, response, net.refresh, net.retry);
      assert s.env.sent[..|e1.sent|] == e1.sent;
      s
  }

  /** The request `get(endpoint, params)` sends, with its query already built. */
  function GetRequest(e: Env, endpoint: string, query: seq<(string, string)>): Request
  {
    Request(GET, ApiBaseUrl + endpoint, query, AuthHeaders(e), NoBody)
  }

  /** The request `post`, `put` or `patch` sends: `JSON.stringify(data)` as body. */
  function JsonRequest(e: Env, verb: Method, endpoint: string, data: seq<(string, JsValue)>): Request
  {
    Request(verb, ApiBaseUrl + endpoint, [], AuthHeaders(e), JsonBody(data))
  }

  /** The request `delete(endpoint)` sends. */
  function DeleteRequest(e: Env, endpoint: string): Request
  {
    Request(DELETE, ApiBaseUrl + endpoint, [], AuthHeaders(e), NoBody)
  }

  /** The request `uploadFile(endpoint, formData)` sends. */
  function UploadRequest(e: Env, endpoint: string, form: seq<FormEntry>): Request
  {
    Request(POST, ApiBaseUrl + endpoint, [], UploadHeaders(e), FormBody(form))
  }
}
