/** The HTTP service facade: the response-error interceptor every call goes
    through, the request headers, the document-list URL and the lazily built
    singleton that installs the interceptor. */
module AdminService {
  import opened Types
  import opened Text
  import AuthStore

  /** `error.response` of a failed call: its status and `data.message`
      (None when the body carries no message). */
  datatype ErrorResponse = ErrorResponse(status: int, serverMessage: Option<string>)

  /** What the interceptor sees of a failed call: the response if one came
      back, whether a request was sent, and `error.message`. */
  datatype HttpError = HttpError(response: Option<ErrorResponse>, requestSent: bool, message: string)

  /** What the interceptor does about an error besides rejecting with it. */
  datatype ErrorAction =
    | ResetSession(redirectTo: string)
    | Notify(toast: Toast)

  const SignInPath: string := "/sign-in"
  const FailedTitle: string := "操作失败"
  const ServerErrorTitle: string := "服务器错误"
  const ServerErrorText: string := "服务器发生错误，请稍后重试"
  const RequestFailedText: string := "请求失败，请重试"
  const NetworkErrorTitle: string := "网络错误"
  const NetworkErrorText: string := "无法连接到服务器，请检查网络连接"
  const RequestErrorTitle: string := "请求错误"

  predicate IsUnauthorized(e: HttpError) {
    e.response.Some? && (e.response.value.status == 401 || e.response.value.status == 403)
  }

  /** The interceptor's decision for a failed call. */
  function Classify(e: HttpError): (a: ErrorAction)
    ensures a.ResetSession? <==> IsUnauthorized(e)
    ensures a.ResetSession? ==> a.redirectTo == SignInPath
    ensures a.Notify? ==> a.toast.destructive
    ensures e.response.None? ==> a.Notify? && a.toast.title == (if e.requestSent then NetworkErrorTitle else RequestErrorTitle)
  {
    match e.response
    case Some(r) =>
      if r.status == 401 || r.status == 403 then ResetSession(SignInPath)
      else if r.status == 422 then Notify(Toast(FailedTitle, r.serverMessage, true))
      else if r.status == 500 then Notify(Toast(ServerErrorTitle, Some(ServerErrorText), true))
      else Notify(Toast(FailedTitle, Some(OrElse(r.serverMessage, RequestFailedText)), true))
    case None =>
      if e.requestSent then Notify(Toast(NetworkErrorTitle, Some(NetworkErrorText), true))
      else Notify(Toast(RequestErrorTitle, Some(e.message), true))
  }

  /** Which error toasts quote the server: a 422 quotes it as it is, any
      other status except 401, 403 and 500 quotes it unless it is missing or
      empty; a 500 always shows the fixed server-error title and text and
      never quotes it, and without a response nothing from a
      server is shown. */
  lemma ServerMessagePolicy(e: HttpError, other: Option<string>)
    requires e.response.Some?
    ensures e.response.value.status == 422 ==>
      Classify(e) == Notify(Toast(FailedTitle, e.response.value.serverMessage, true))
    ensures e.response.value.status == 500 ==>
      Classify(e) == Notify(Toast(ServerErrorTitle, Some(ServerErrorText), true))
    ensures e.response.value.status == 500 ==>
      Classify(e) == Classify(e.(response := Some(e.response.value.(serverMessage := other))))
    ensures var st := e.response.value.status;
      st != 401 && st != 403 && st != 422 && st != 500 ==>
        Classify(e).Notify? && Classify(e).toast.title == FailedTitle &&
        Classify(e).toast.description == Some(OrElse(e.response.value.serverMessage, RequestFailedText))
  {
  }

  /** Without a response, the request-error toast carries the error's own
      message and the network-error toast a fixed text. */
  lemma NoResponsePolicy(e: HttpError)
    requires e.response.None?
    ensures e.requestSent ==> Classify(e) == Notify(Toast(NetworkErrorTitle, Some(NetworkErrorText), true))
    ensures !e.requestSent ==> Classify(e) == Notify(Toast(RequestErrorTitle, Some(e.message), true))
  {
  }

  /** The browser side effects the interceptor can cause. */
  class Browser {
    var location: string
    var toasts: seq<Toast>

    constructor (location: string)
      ensures this.location == location && toasts == []
    {
      this.location := location;
      toasts := [];
    }
  }

  /** The rejection handler of the response interceptor. It always rejects
      with the error it was given; on 401/403 it resets the auth store and
      sends the browser to the sign-in page without a toast, otherwise it
      shows exactly one toast and touches nothing else. */
  method HandleResponseError(e: HttpError, auth: AuthStore.Store, browser: Browser)
    returns (rejection: HttpError)
    modifies auth, browser
    ensures rejection == e
    ensures Classify(e).ResetSession? ==>
      && auth.State() == AuthStore.AfterReset(old(auth.State()))
      && browser.location == SignInPath
      && browser.toasts == old(browser.toasts)
    ensures Classify(e).Notify? ==>
      && auth.State() == old(auth.State())
      && browser.location == old(browser.location)
      && browser.toasts == old(browser.toasts) + [Classify(e).toast]
  {
    var action := Classify(e);
    match action {
      case ResetSession(path) =>
        auth.Reset();
        browser.location := path;
      case Notify(t) =>
        browser.toasts := browser.toasts + [t];
    }
    rejection := e;
  }

  /** The token carried by an `Authorization: Bearer <t>` header, if any. */
  function BearerToken(headers: map<string, string>): Option<string> {
    if "Authorization" in headers && |headers["Authorization"]| >= 7 && headers["Authorization"][..7] == "Bearer "
    then Some(headers["Authorization"][7..])
    else None
  }

  /** The headers `getHeaders` produces for the token it reads (undefined
      or a string; undefined and '' both count as no token). */
  function Headers(token: Option<string>): (h: map<string, string>)
    ensures "Content-Type" in h && h["Content-Type"] == "application/json"
    ensures h.Keys == {"Content-Type"} + (if OrElse(token, "") == "" then {} else {"Authorization"})
    ensures BearerToken(h) == (if OrElse(token, "") == "" then None else token)
  {
    if OrElse(token, "") == "" then map["Content-Type" := "application/json"]
    else
      var h := map["Content-Type" := "application/json", "Authorization" := "Bearer " + token.value];
      assert h["Authorization"][7..] == token.value;
      h
  }

  /** `getHeaders`: start from a JSON content type and add a bearer
      authorization when there is a token. */
  method GetHeaders(token: Option<string>) returns (headers: map<string, string>)
    ensures headers == Headers(token)
  {
    headers := map["Content-Type" := "application/json"];
    if token.Some? && token.value != "" {
      headers := headers["Authorization" := "Bearer " + token.value];
    }
  }

  /** The auth store's state as `getState()` returns it: one key, `auth`,
      holding the slice. */
  datatype RootState = RootState(auth: AuthStore.AuthState)

  /** The token of the signed-in session, `getState().auth.accessToken`. */
  function SessionToken(root: RootState): Option<string> {
    Some(root.auth.accessToken)
  }

  /** The token `getHeaders` reads as written, `getState().accessToken`: the
      root has no key `accessToken`, so the read is undefined whatever the
      state. */
  function TokenAsWritten(root: RootState): Option<string> {
    None
  }

  /** As written, no request ever carries an authorization header, even for
      a signed-in session; reading the token from the `auth` slice sends it. */
  lemma HeadersAsWrittenNeverAuthorize(root: RootState)
    ensures "Authorization" !in Headers(TokenAsWritten(root))
    ensures root.auth.accessToken != "" ==>
      BearerToken(Headers(SessionToken(root))) == Some(root.auth.accessToken)
    ensures root.auth.accessToken == "" ==> Headers(SessionToken(root)) == Headers(TokenAsWritten(root))
  {
  }

  /** How the interceptor's rejection handler ends as written: the 401 and
      403 branches call `getState().reset()`, which the root state does not
      have, so they throw a TypeError before the redirect; every other
      branch behaves as `Classify` says and rejects with the error. */
  datatype AsWrittenOutcome = Proceeds(action: ErrorAction) | ThrowsTypeError

  function ClassifyAsWritten(e: HttpError): (o: AsWrittenOutcome)
    ensures o.ThrowsTypeError? <==> IsUnauthorized(e)
  {
    match e.response
    case Some(r) =>
      if r.status == 401 || r.status == 403 then ThrowsTypeError
      else Proceeds(Classify(e))
    case None => Proceeds(Classify(e))
  }

  /** As written, an expired session is never signed out: on 401/403 the
      handler throws instead of resetting the store and redirecting, which
      is what `Classify` (resetting the `auth` slice) does. Elsewhere the two
      agree. */
  lemma UnauthorizedAsWrittenNeverSignsOut(e: HttpError)
    ensures IsUnauthorized(e) ==> ClassifyAsWritten(e) == ThrowsTypeError && Classify(e) == ResetSession(SignInPath)
    ensures !IsUnauthorized(e) ==> ClassifyAsWritten(e) == Proceeds(Classify(e))
  {
  }

  const DefaultBaseUrl: string := "http://localhost:8000"

  /** `VITE_API_BASE_URL || 'http://localhost:8000'`. */
  function BaseUrl(env: Option<string>): (url: string)
    ensures url == (if env.Some? && env.value != "" then env.value else DefaultBaseUrl)
    ensures url != ""
  {
    OrElse(env, DefaultBaseUrl)
  }

  /** The argument of `getDocuments`; absent fields are None. */
  datatype DocumentsQuery = DocumentsQuery(knowledgeBaseId: int, skip: Option<int>, limit: Option<int>)

  const DefaultSkip: int := 0
  const DefaultLimit: int := 10

  /** The query parameters `getDocuments` writes, in order. */
  function DocumentsParams(q: DocumentsQuery): seq<(string, string)> {
    [ ("knowledge_base_id", ShowInt(q.knowledgeBaseId)),
      ("skip", ShowInt(q.skip.GetOr(DefaultSkip))),
      ("limit", ShowInt(q.limit.GetOr(DefaultLimit))) ]
  }

  /** The URL `getDocuments` requests. */
  function DocumentsUrl(baseUrl: string, q: DocumentsQuery): string {
    baseUrl + "/api/v1/admin/documents?" + QueryString(DocumentsParams(q))
  }

  /** Reading the query string back off the URL gives exactly three
      parameters, `knowledge_base_id`, `skip` and `limit`, whose values are
      the query's own, with `skip` defaulting to 0 and `limit` to 10. */
  lemma DocumentsUrlCarries(baseUrl: string, q: DocumentsQuery)
    requires '?' !in baseUrl
    ensures var ps := ParseQuery(QueryOf(DocumentsUrl(baseUrl, q)));
      && |ps| == 3
      && ps[0].0 == "knowledge_base_id" && ParseInt(ps[0].1) == Some(q.knowledgeBaseId)
      && ps[1].0 == "skip" && ParseInt(ps[1].1) == Some(q.skip.GetOr(DefaultSkip))
      && ps[2].0 == "limit" && ParseInt(ps[2].1) == Some(q.limit.GetOr(DefaultLimit))
  {
    DocumentsQueryOf(baseUrl, q);
    DocumentsParamsParse(q);
    ParseShowInt(q.knowledgeBaseId);
    ParseShowInt(q.skip.GetOr(DefaultSkip));
    ParseShowInt(q.limit.GetOr(DefaultLimit));
  }

  /** The query string of the documents URL is the one built from its parameters. */
  lemma DocumentsQueryOf(baseUrl: string, q: DocumentsQuery)
    requires '?' !in baseUrl
    ensures QueryOf(DocumentsUrl(baseUrl, q)) == QueryString(DocumentsParams(q))
  {
    var ps := DocumentsParams(q);
    var prefix := baseUrl + "/api/v1/admin/documents";
    assert DocumentsUrl(baseUrl, q) == prefix + ['?'] + QueryString(ps);
    FirstIndexAfter(prefix, '?', QueryString(ps));
  }

  /** The documents parameters survive being encoded and parsed back. */
  lemma DocumentsParamsParse(q: DocumentsQuery)
    ensures ParseQuery(QueryString(DocumentsParams(q))) == DocumentsParams(q)
  {
    ShowIntQuerySafe(q.knowledgeBaseId);
    ShowIntQuerySafe(q.skip.GetOr(DefaultSkip));
    ShowIntQuerySafe(q.limit.GetOr(DefaultLimit));
    QueryRoundTrip(DocumentsParams(q));
  }

  /** The global HTTP client; it counts the response interceptors installed. */
  class HttpClient {
    var responseInterceptors: nat

    constructor ()
      ensures responseInterceptors == 0
    {
      responseInterceptors := 0;
    }
  }

  /** An `AdminService` instance. Constructing one installs the interceptor. */
  class Service {
    const baseUrl: string

    constructor (env: Option<string>, client: HttpClient)
      modifies client
      ensures baseUrl == BaseUrl(env)
      ensures client.responseInterceptors == old(client.responseInterceptors) + 1
    {
      baseUrl := BaseUrl(env);
      client.responseInterceptors := client.responseInterceptors + 1;
    }
  }

  /** The static side of `AdminService`: the lazily created instance. */
  class ServiceSingleton {
    var instance: Service?
    const client: HttpClient
    const env: Option<string>

    /** At most one instance, hence exactly as many interceptors as instances. */
    ghost predicate Valid()
      reads this, client
    {
      && client.responseInterceptors == (if instance == null then 0 else 1)
      && (instance != null ==> instance.baseUrl == BaseUrl(env))
    }

    constructor (client: HttpClient, env: Option<string>)
      requires client.responseInterceptors == 0
      ensures Valid() && instance == null
      ensures this.client == client && this.env == env
    {
      this.client := client;
      this.env := env;
      instance := null;
    }

    /** `getInstance`: the existing instance if there is one, otherwise a
        new one, which is kept. The interceptor is installed once. */
    method GetInstance() returns (s: Service)
      requires Valid()
      modifies this, client
      ensures Valid()
      ensures instance == s && s.baseUrl == BaseUrl(env)
      ensures old(instance) != null ==> s == old(instance) && client.responseInterceptors == old(client.responseInterceptors)
      ensures old(instance) == null ==> fresh(s)
    {
      if instance == null {
        instance := new Service(env, client);
      }
      s := instance;
    }
  }
}
