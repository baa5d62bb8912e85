/**
 * The HTTP adapter (src/lib/api.ts): the records exchanged with the backend,
 * the base URL, the request and response interceptors, the error-message
 * normalisation and the requests the domain clients issue.
 *
 * A call's reply is an input: `Outcome<T>` is what the awaited promise
 * settles to, before the response interceptor has seen it.
 */
module Api {
  import opened Wrappers
  import opened Browser
  import Decimal

  datatype Authority = Authority(authority: string)

  datatype User = User(id: int, fullName: string, email: string, authorities: seq<Authority>)

  datatype Todo = Todo(id: int, title: string, description: string, priority: int, complete: bool)

  /** The body of a create request. */
  datatype TodoRequest = TodoRequest(title: string, description: string, priority: int)

  /** The body of an error reply; its `message` may be missing at run time. */
  datatype ApiError = ApiError(status: int, message: Option<string>, timeStamp: int)

  /** The HTTP response attached to a transport error, when there was one. */
  datatype ErrorResponse = ErrorResponse(status: int, data: Option<ApiError>)

  /** What a rejected promise can carry. */
  datatype Thrown =
    | HttpError(response: Option<ErrorResponse>, message: string)  // an AxiosError
    | PlainError(message: string)                                  // any other Error
    | NonError                                                     // a thrown value that is not an Error

  /** How an awaited call settles. */
  datatype Outcome<+T> = Success(value: T) | Failure(error: Thrown)

  // ---------------------------------------------------------------- base URL

  const DefaultBaseUrl := "http://localhost:8080/api"

  /** `NEXT_PUBLIC_API_URL || default`: an unset or empty setting falls back. */
  function BaseUrl(configured: Option<string>): (r: string)
    ensures r != ""
    ensures Truthy(configured) ==> r == configured.value
    ensures !Truthy(configured) ==> r == DefaultBaseUrl
  {
    if Truthy(configured) then configured.value else DefaultBaseUrl
  }

  // ------------------------------------------------------ error normalisation

  const HttpFallbackMessage := "An error occurred"
  const UnexpectedMessage := "An unexpected error occurred"

  /** `response?.data?.message` of an HTTP-client error. */
  function ServerMessage(e: Thrown): Option<string>
    requires e.HttpError?
  {
    if e.response.Some? && e.response.value.data.Some? then e.response.value.data.value.message else None
  }

  /** `getErrorMessage`: the text shown to the user for a failure. */
  function GetErrorMessage(e: Thrown): (r: string)
    ensures e.HttpError? ==> r != ""
    ensures e.HttpError? ==> (Truthy(ServerMessage(e)) && r == ServerMessage(e).value) || r == e.message || r == HttpFallbackMessage
    ensures e.PlainError? ==> r == e.message
    ensures e.NonError? ==> r == UnexpectedMessage
  {
    match e
    case HttpError(_, message) =>
      var server := ServerMessage(e);
      if Truthy(server) then server.value
      else if message != "" then message
      else HttpFallbackMessage
    case PlainError(message) => message
    case NonError => UnexpectedMessage
  }

  /** The fallback chain for HTTP-client errors, step by step. */
  lemma ErrorMessageFallbackChain(e: Thrown)
    requires e.HttpError?
    ensures Truthy(ServerMessage(e)) ==> GetErrorMessage(e) == ServerMessage(e).value
    ensures !Truthy(ServerMessage(e)) && e.message != "" ==> GetErrorMessage(e) == e.message
    ensures !Truthy(ServerMessage(e)) && e.message == "" ==> GetErrorMessage(e) == HttpFallbackMessage
  {
  }

  /** Re-throwing a failure as `new Error(getErrorMessage(e))` keeps the text a later handler shows. */
  lemma RethrowKeepsMessage(e: Thrown)
    ensures GetErrorMessage(PlainError(GetErrorMessage(e))) == GetErrorMessage(e)
  {
  }

  // ------------------------------------------------------ request interceptor

  const AuthorizationHeader := "Authorization"
  const BearerPrefix := "Bearer "

  /** The headers after the request interceptor, given what `localStorage` holds under `token`. */
  function WithBearer(headers: map<string, string>, token: Option<string>): (h: map<string, string>)
    ensures Truthy(token) ==> Lookup(h, AuthorizationHeader) == Some(BearerPrefix + token.value)
    ensures !Truthy(token) ==> h == headers
    ensures forall k :: k != AuthorizationHeader ==> Lookup(h, k) == Lookup(headers, k)
  {
    if Truthy(token) then headers[AuthorizationHeader := BearerPrefix + token.value] else headers
  }

  /** The token travels intact: stripping the prefix from the header gives it back. */
  lemma BearerCarriesToken(headers: map<string, string>, token: Option<string>)
    requires Truthy(token)
    ensures var v := WithBearer(headers, token)[AuthorizationHeader];
            v[..|BearerPrefix|] == BearerPrefix && v[|BearerPrefix|..] == token.value
  {
  }

  /** The outgoing request configuration the interceptor edits in place. */
  class RequestConfig {
    var url: string
    var headers: map<string, string>

    constructor (url: string, headers: map<string, string>)
      ensures this.url == url && this.headers == headers
    {
      this.url := url;
      this.headers := headers;
    }
  }

  /** The request interceptor: attach the stored bearer token, return the same config. */
  method OnRequest(window: Window, config: RequestConfig) returns (r: RequestConfig)
    modifies config
    ensures r == config
    ensures config.url == old(config.url)
    ensures config.headers == WithBearer(old(config.headers), Lookup(window.storage, TokenKey))
  {
    var token := window.GetItem(TokenKey);
    if Truthy(token) {
      config.headers := config.headers[AuthorizationHeader := BearerPrefix + token.value];
    }
    r := config;
  }

  /** The request interceptor's rejection handler: the error is rejected again, unchanged. */
  method OnRequestError<T>(e: Thrown) returns (r: Outcome<T>)
    ensures r.Failure? && r.error == e
  {
    r := Failure(e);
  }

  // ----------------------------------------------------- response interceptor

  /** `error.response?.status === 401` */
  predicate Unauthorized(e: Thrown)
  {
    e.HttpError? && e.response.Some? && e.response.value.status == 401
  }

  /** The browser after the response interceptor has handled error `e`. */
  function AfterError(env: Env, e: Thrown): (r: Env)
    ensures Unauthorized(e) ==> Lookup(r.storage, TokenKey) == None && Lookup(r.storage, UserKey) == None
    ensures Unauthorized(e) ==> r.location == LoginRoute
    ensures forall k :: k != TokenKey && k != UserKey ==> Lookup(r.storage, k) == Lookup(env.storage, k)
    ensures !Unauthorized(e) ==> r == env
  {
    if Unauthorized(e) then Env(ClearSession(env.storage), LoginRoute) else env
  }

  /** The browser after the response interceptor has seen a call's outcome. */
  function AfterCall<T>(env: Env, o: Outcome<T>): (r: Env)
    ensures o.Success? ==> r == env
    ensures o.Failure? ==> r == AfterError(env, o.error)
  {
    if o.Failure? then AfterError(env, o.error) else env
  }

  /** A 401 leaves the same browser state however many times it is handled. */
  lemma AfterErrorIdempotent(env: Env, e: Thrown)
    ensures AfterError(AfterError(env, e), e) == AfterError(env, e)
  {
  }

  /**
   * The response interceptor: successes pass through, every error is rejected
   * again unchanged, and a 401 first clears the session and redirects to login.
   */
  method OnResponse<T>(window: Window, o: Outcome<T>) returns (r: Outcome<T>)
    modifies window
    ensures r == o
    ensures window.Snapshot() == AfterCall(old(window.Snapshot()), o)
  {
    if o.Failure? && Unauthorized(o.error) {
      window.RemoveItem(TokenKey);
      window.RemoveItem(UserKey);
      window.location := LoginRoute;
    }
    r := o;
  }

  // ------------------------------------------------------------------ requests

  datatype Verb = GET | POST | PUT | DELETE

  /** The method and the path (relative to the base URL) of one call. */
  datatype Request = Request(verb: Verb, path: string)

  const TodosPrefix := "/todos/"
  const AdminPrefix := "/admin/"
  const RoleSuffix := "/role"

  const LoginRequest := Request(POST, "/auth/login")
  const RegisterRequest := Request(POST, "/auth/register")
  const GetAllTodosRequest := Request(GET, "/todos")
  const CreateTodoRequest := Request(POST, "/todos")

  /** `/todos/${id}` */
  function TodoPath(id: int): string
  {
    TodosPrefix + Decimal.IntToString(id)
  }

  /** `/admin/${userId}/role` */
  function PromotePath(userId: int): string
  {
    AdminPrefix + Decimal.IntToString(userId) + RoleSuffix
  }

  /** `/admin/${userId}` */
  function AdminUserPath(userId: int): string
  {
    AdminPrefix + Decimal.IntToString(userId)
  }

  function ToggleCompleteRequest(id: int): Request
  {
    Request(PUT, TodoPath(id))
  }

  function DeleteTodoRequest(id: int): Request
  {
    Request(DELETE, TodoPath(id))
  }

  function PromoteToAdminRequest(userId: int): Request
  {
    Request(PUT, PromotePath(userId))
  }

  function DeleteUserRequest(userId: int): Request
  {
    Request(DELETE, AdminUserPath(userId))
  }

  /** The server reads the id back from a todo path. */
  lemma TodoPathRoundTrip(id: int)
    ensures Decimal.ParseInt(TodoPath(id)[|TodosPrefix|..]) == Some(id)
  {
    assert TodoPath(id)[|TodosPrefix|..] == Decimal.IntToString(id);
    Decimal.ParseIntToString(id);
  }

  /** The server reads the user id back from both admin paths. */
  lemma AdminPathsRoundTrip(userId: int)
    ensures Decimal.ParseInt(AdminUserPath(userId)[|AdminPrefix|..]) == Some(userId)
    ensures var p := PromotePath(userId);
            Decimal.ParseInt(p[|AdminPrefix|..|p| - |RoleSuffix|]) == Some(userId)
  {
    var p := PromotePath(userId);
    assert AdminUserPath(userId)[|AdminPrefix|..] == Decimal.IntToString(userId);
    assert p[|AdminPrefix|..|p| - |RoleSuffix|] == Decimal.IntToString(userId);
    Decimal.ParseIntToString(userId);
  }

  /** Each id-based path names exactly one id, and the three kinds of path never coincide. */
  lemma IdPathsDistinct(a: int, b: int)
    ensures TodoPath(a) == TodoPath(b) ==> a == b
    ensures AdminUserPath(a) == AdminUserPath(b) ==> a == b
    ensures PromotePath(a) == PromotePath(b) ==> a == b
    ensures PromotePath(a) != AdminUserPath(b)
    ensures TodoPath(a) != AdminUserPath(b) && TodoPath(a) != PromotePath(b)
  {
    var sa, sb := Decimal.IntToString(a), Decimal.IntToString(b);
    Decimal.IntToStringInjective(a, b);
    if TodoPath(a) == TodoPath(b) {
      assert TodoPath(a)[|TodosPrefix|..] == sa && TodoPath(b)[|TodosPrefix|..] == sb;
    }
    if AdminUserPath(a) == AdminUserPath(b) {
      assert AdminUserPath(a)[|AdminPrefix|..] == sa && AdminUserPath(b)[|AdminPrefix|..] == sb;
    }
    if PromotePath(a) == PromotePath(b) {
      var pa, pb := PromotePath(a), PromotePath(b);
      assert pa[|AdminPrefix|..|pa| - |RoleSuffix|] == sa && pb[|AdminPrefix|..|pb| - |RoleSuffix|] == sb;
    }
    // the role path carries a '/' where the user path has only a sign or a digit
    var i := |AdminPrefix| + |sa|;
    assert PromotePath(a)[i] == '/';
    assert |AdminUserPath(b)| <= i || AdminUserPath(b)[i] == sb[i - |AdminPrefix|];
    assert TodoPath(a)[1] == 't' && AdminUserPath(b)[1] == 'a' && PromotePath(b)[1] == 'a';
  }
}
