/**
 * Request construction shared by the plant, category and sales helpers. Each
 * of the three helper files carries its own identical copy of
 * `ensureBaseUrl`, `normalizePath` and a `xxxRequest` wrapper; they differ only
 * in the text of the missing-token error and the default alias, so the model
 * defines the shared logic once and each resource module supplies those two.
 *
 * The test framework is an input: `Session` holds the configured BASE_URL and
 * the token stored under the `@authToken` alias, and the result is the request
 * record that would be handed to `cy.request`, or the error thrown before it.
 */
module Client {
  import opened Wrappers
  import opened JsValues

  datatype HttpMethod = GET | POST | PUT | DELETE

  datatype ClientError =
    | MissingBaseUrl
    | MissingPath
    | MissingToken(message: string)
    | MissingArgument(message: string)
    | NotAFunction(message: string)

  const BaseUrlError := "Missing BASE_URL env variable. Configure it before running API tests."
  const PathError := "A relative API path is required."

  /** The text an error carries when thrown. */
  function Message(e: ClientError): string
  {
    match e
    case MissingBaseUrl => BaseUrlError
    case MissingPath => PathError
    case MissingToken(m) => m
    case MissingArgument(m) => m
    case NotAFunction(m) => m
  }

  datatype Session = Session(baseUrl: Option<string>, authToken: Option<string>)

  /** The options object passed to a `xxxRequest` wrapper. */
  datatype RequestSpec = RequestSpec(
    verb: HttpMethod,
    path: Option<string>,
    body: JsValue,
    qs: Option<map<string, JsValue>>,
    headers: map<string, string>,
    alias: string,
    failOnStatusCode: bool)

  /** The options handed to `cy.request`, plus the alias the response is stored under. */
  datatype HttpRequest = HttpRequest(
    verb: HttpMethod,
    url: string,
    body: JsValue,
    qs: Option<map<string, JsValue>>,
    headers: map<string, string>,
    alias: string,
    failOnStatusCode: bool)

  /** An optional string is truthy: present and non-empty. */
  predicate Given(s: Option<string>)
  {
    s.Some? && s.value != ""
  }

  predicate EndsWithSlash(s: string)
  {
    |s| > 0 && s[|s| - 1] == '/'
  }

  /** `ensureBaseUrl`: the configured base with one trailing `/` removed. */
  function EnsureBaseUrl(baseUrl: Option<string>): (r: Result<string, ClientError>)
    ensures r.Failure? <==> !Given(baseUrl)
    ensures r.Failure? ==> r.error == MissingBaseUrl && Message(r.error) == BaseUrlError
    ensures r.Success? ==> baseUrl.value == r.value || baseUrl.value == r.value + "/"
    ensures r.Success? ==> (r.value == baseUrl.value <==> !EndsWithSlash(baseUrl.value))
  {
    if !Given(baseUrl) then Failure(MissingBaseUrl)
    else if EndsWithSlash(baseUrl.value) then Success(baseUrl.value[..|baseUrl.value| - 1])
    else Success(baseUrl.value)
  }

  /** Only one slash goes: a base ending in two keeps the first. */
  lemma EnsureBaseUrlStripsOneSlash(base: string)
    ensures EnsureBaseUrl(Some(base + "//")) == Success(base + "/")
  {
    assert (base + "//")[..|base + "//"| - 1] == base + "/";
  }

  /** `normalizePath`: the path with a leading `/` added when it lacks one. */
  function NormalizePath(path: Option<string>): (r: Result<string, ClientError>)
    ensures r.Failure? <==> !Given(path)
    ensures r.Failure? ==> r.error == MissingPath && Message(r.error) == PathError
    ensures r.Success? ==> |r.value| > 0 && r.value[0] == '/'
    ensures r.Success? ==> r.value == path.value || r.value == "/" + path.value
    ensures r.Success? ==> (r.value == path.value <==> path.value[0] == '/')
  {
    if !Given(path) then Failure(MissingPath)
    else if path.value[0] == '/' then Success(path.value)
    else Success("/" + path.value)
  }

  /** Normalising a normalised path gives it back unchanged. */
  lemma NormalizePathIdempotent(path: Option<string>)
    requires NormalizePath(path).Success?
    ensures NormalizePath(Some(NormalizePath(path).value)) == NormalizePath(path)
  {
  }

  /** `{ Authorization: `Bearer ${token}`, ...headers }`. */
  function AuthHeaders(token: string, headers: map<string, string>): (h: map<string, string>)
    ensures h.Keys == headers.Keys + {"Authorization"}
    ensures forall k :: k in headers ==> h[k] == headers[k]
    ensures "Authorization" !in headers ==> h["Authorization"] == "Bearer " + token
  {
    map["Authorization" := "Bearer " + token] + headers
  }

  /**
   * The body of `plantRequest`, `categoryRequest` and `salesRequest`: check the
   * base URL, then the path, then (inside the `@authToken` callback) the token,
   * and build the request. Every error is raised before any request exists.
   */
  function Request(session: Session, spec: RequestSpec, tokenError: string): (r: Result<HttpRequest, ClientError>)
    ensures !Given(session.baseUrl) ==> r == Failure(MissingBaseUrl)
    ensures Given(session.baseUrl) && !Given(spec.path) ==> r == Failure(MissingPath)
    ensures Given(session.baseUrl) && Given(spec.path) && !Given(session.authToken) ==>
              r == Failure(MissingToken(tokenError))
    ensures r.Success? <==> Given(session.baseUrl) && Given(spec.path) && Given(session.authToken)
    ensures r.Success? ==>
              r.value.url == EnsureBaseUrl(session.baseUrl).value + NormalizePath(spec.path).value
    ensures r.Success? ==> r.value.headers == AuthHeaders(session.authToken.value, spec.headers)
    ensures r.Success? ==>
              && r.value.verb == spec.verb
              && r.value.body == spec.body
              && r.value.qs == spec.qs
              && r.value.alias == spec.alias
              && r.value.failOnStatusCode == spec.failOnStatusCode
  {
    match EnsureBaseUrl(session.baseUrl)
    case Failure(e) => Failure(e)
    case Success(base) =>
      match NormalizePath(spec.path)
      case Failure(e) => Failure(e)
      case Success(path) =>
        if !Given(session.authToken) then Failure(MissingToken(tokenError))
        else Success(HttpRequest(spec.verb, base + path, spec.body, spec.qs,
                                 AuthHeaders(session.authToken.value, spec.headers),
                                 spec.alias, spec.failOnStatusCode))
  }

  /**
   * The options every exported helper passes: no extra headers and
   * `failOnStatusCode` left at its default of false.
   */
  function Call(verb: HttpMethod, path: string, body: JsValue, qs: Option<map<string, JsValue>>, alias: string): RequestSpec
  {
    RequestSpec(verb, Some(path), body, qs, map[], alias, false)
  }

  /** A query key holds `v` exactly when `v` was given. */
  predicate Copied(query: map<string, JsValue>, key: string, v: JsValue)
  {
    (key in query <==> v != Undefined) && (key in query ==> query[key] == v)
  }

  /** The session holds both a base URL and a token. */
  predicate Ready(session: Session)
  {
    Given(session.baseUrl) && Given(session.authToken)
  }

  /** The error a ready path meets when the session is not ready. */
  function SessionError(session: Session, tokenError: string): ClientError
  {
    if !Given(session.baseUrl) then MissingBaseUrl else MissingToken(tokenError)
  }

  /**
   * `req` is the request a helper issues for `path` (already starting with
   * `/`): the trimmed base followed by the path, the bearer token as the only
   * header, and a non-2xx status left for the caller to inspect.
   */
  predicate Sends(req: HttpRequest, session: Session, verb: HttpMethod, path: string,
                  body: JsValue, qs: Option<map<string, JsValue>>, alias: string)
    requires Ready(session)
  {
    && req.verb == verb
    && req.url == EnsureBaseUrl(session.baseUrl).value + path
    && req.body == body
    && req.qs == qs
    && req.headers == map["Authorization" := "Bearer " + session.authToken.value]
    && req.alias == alias
    && !req.failOnStatusCode
  }

  /**
   * A helper whose path is a non-empty string starting with `/` succeeds
   * exactly when the session is ready, and then sends to base + path.
   */
  lemma FixedPathRequest(session: Session, verb: HttpMethod, path: string, body: JsValue,
                         qs: Option<map<string, JsValue>>, alias: string, tokenError: string)
    requires |path| > 0 && path[0] == '/'
    ensures var r := Request(session, Call(verb, path, body, qs, alias), tokenError);
            && (r.Success? <==> Ready(session))
            && (r.Failure? ==> r.error == SessionError(session, tokenError))
            && (r.Success? ==> Sends(r.value, session, verb, path, body, qs, alias))
  {
    var headers: map<string, string> := map[];
    if Ready(session) {
      assert AuthHeaders(session.authToken.value, headers) == map["Authorization" := "Bearer " + session.authToken.value];
    }
  }
}
