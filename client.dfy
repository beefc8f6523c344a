/**
 * The HTTP client of the frontend (frontend/src/api/client.ts): every request carries the
 * JSON content type and, when a token is stored, a bearer header; a 401 answer purges the
 * stored token and sends the browser to the login page unless it is already on a public
 * page. The browser's `localStorage` token and `window.location` are plain fields, and the
 * server's answer to each request is an input.
 */
module Client {
  import opened Common

  /** The part of the browser the frontend reads and writes. */
  class Browser {
    /** `localStorage.getItem('token')`: `None` when the entry is absent. */
    var token: Option<string>
    /** `window.location.pathname`. */
    var path: string

    constructor (token: Option<string>, path: string)
      ensures this.token == token && this.path == path
    {
      this.token := token;
      this.path := path;
    }
  }

  /** JavaScript truthiness of the stored token: absent and empty both count as no token. */
  predicate Truthy(token: Option<string>) {
    token.Some? && token.value != ""
  }

  /** JSON values the frontend sends; `NaN` is serialized as `null`. */
  datatype JsonValue = JNull | JNumber(n: int) | JString(s: string)

  datatype Body = NoBody | Json(fields: seq<(string, JsonValue)>)

  /** A request as it leaves the client: verb, path, query parameters, headers and body. */
  datatype Request = Request(
    verb: string,
    url: string,
    params: seq<(string, JsonValue)>,
    headers: map<string, string>,
    body: Body)

  /**
   * The `detail` of an error body: absent, a string (an `HTTPException`), or the list of
   * validation errors of a 422 answer, each abstracted to its message.
   */
  datatype Detail = NoDetail | TextDetail(text: string) | ListDetail(errors: seq<string>)

  /** JavaScript truthiness of a detail: a non-empty string, or any array. */
  predicate DetailTruthy(d: Detail) {
    (d.TextDetail? && d.text != "") || d.ListDetail?
  }

  /** A failed request: no answer at all, or an error status with the body's `detail`. */
  datatype HttpError = NetworkError | ErrorResponse(status: int, detail: Detail)

  /** What the server (or the network) answers to one request. */
  datatype Reply<+T> = Success(data: T) | Failure(error: HttpError)

  predicate IsUnauthorized(e: HttpError) {
    e.ErrorResponse? && e.status == 401
  }

  /** The stored token once `reply` has come back: a 401 removes it, anything else keeps it. */
  function TokenAfter<T>(token: Option<string>, reply: Reply<T>): Option<string> {
    if reply.Failure? && IsUnauthorized(reply.error) then None else token
  }

  /** The browser's path once `reply` has come back: a 401 leaves every page but the public ones. */
  function PathAfter<T>(path: string, reply: Reply<T>): string {
    if reply.Failure? && IsUnauthorized(reply.error) then PathAfterUnauthorized(path) else path
  }

  /** A `GET` of `url` as the client sends it while `token` is stored. */
  function Get(url: string, token: Option<string>): Request {
    Request("GET", url, [], WithBearer(DefaultHeaders, token), NoBody)
  }

  /** The headers every request starts with. */
  const DefaultHeaders: map<string, string> := map["Content-Type" := "application/json"]

  /**
   * The request interceptor on a header map: with a truthy token, `Authorization` becomes
   * `Bearer <token>` and every other header is kept; without one nothing changes.
   */
  function WithBearer(headers: map<string, string>, token: Option<string>): (h: map<string, string>)
    ensures !Truthy(token) ==> h == headers
    ensures Truthy(token) ==>
      && h.Keys == headers.Keys + {"Authorization"}
      && h["Authorization"] == "Bearer " + token.value
      && forall k :: k in headers && k != "Authorization" ==> h[k] == headers[k]
  {
    if Truthy(token) then headers["Authorization" := "Bearer " + token.value] else headers
  }

  /** The pages on which a 401 does not redirect. */
  predicate IsPublicPage(path: string) {
    path == "/login" || path == "/signup"
  }

  /** Where the browser is after a 401: the login page, unless it already shows a public page. */
  function PathAfterUnauthorized(path: string): (p: string)
    ensures IsPublicPage(path) ==> p == path
    ensures !IsPublicPage(path) ==> p == "/login"
    ensures IsPublicPage(p)
  {
    if path != "/login" && path != "/signup" then "/login" else path
  }

  /** Axios's per-request config; the interceptor edits its headers in place. */
  class RequestConfig {
    var headers: map<string, string>

    constructor (headers: map<string, string>)
      ensures this.headers == headers
    {
      this.headers := headers;
    }
  }

  /** The shared `api` instance, with the requests it has sent so far. */
  class Api {
    const browser: Browser
    var sent: seq<Request>

    constructor (browser: Browser)
      ensures this.browser == browser && sent == []
    {
      this.browser := browser;
      sent := [];
    }

    /** The request interceptor. */
    method InterceptRequest(config: RequestConfig)
      modifies config
      ensures config.headers == WithBearer(old(config.headers), browser.token)
    {
      var token := browser.token;
      if token.Some? && token.value != "" {
        config.headers := config.headers["Authorization" := "Bearer " + token.value];
      }
    }

    /** The error half of the response interceptor; the error itself is passed on unchanged. */
    method InterceptError(error: HttpError)
      modifies browser
      ensures IsUnauthorized(error) ==> browser.token == None && browser.path == PathAfterUnauthorized(old(browser.path))
      ensures !IsUnauthorized(error) ==> browser.token == old(browser.token) && browser.path == old(browser.path)
    {
      if error.ErrorResponse? && error.status == 401 {
        browser.token := None;
        if browser.path != "/login" && browser.path != "/signup" {
          browser.path := "/login";
        }
      }
    }

    /**
     * One request through both interceptors: it is sent exactly once with the headers the
     * request interceptor gives, and its reply comes back unchanged, success or failure.
     */
    method Send<T>(verb: string, url: string, params: seq<(string, JsonValue)>, body: Body, reply: Reply<T>)
      returns (result: Reply<T>)
      modifies this, browser
      ensures result == reply
      ensures browser.token == TokenAfter(old(browser.token), reply)
      ensures browser.path == PathAfter(old(browser.path), reply)
      ensures sent == old(sent) + [Request(verb, url, params, WithBearer(DefaultHeaders, old(browser.token)), body)]
      ensures reply.Failure? && IsUnauthorized(reply.error) ==>
        browser.token == None && browser.path == PathAfterUnauthorized(old(browser.path))
      ensures !(reply.Failure? && IsUnauthorized(reply.error)) ==>
        browser.token == old(browser.token) && browser.path == old(browser.path)
    {
      var config := new RequestConfig(DefaultHeaders);
      InterceptRequest(config);
      sent := sent + [Request(verb, url, params, config.headers, body)];
      if reply.Failure? {
        InterceptError(reply.error);
      }
      result := reply;
    }
  }
}
