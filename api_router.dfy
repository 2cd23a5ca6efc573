/** The single API entry point (app/api/ai/route.ts): `POST` dispatches on
    the `type` query parameter to one of three handlers, answers 404 for any
    other type and 500 for anything thrown; `OPTIONS` answers the CORS
    preflight. The handlers themselves are a parameter. */
module ApiRouter {
  import opened Common
  import opened JsonModel
  import opened ServerApi

  /** The three entries of `API_ROUTES`. */
  datatype Route = CodeDetection | DocumentDetection | PromptDetection {
    /** The `type` value that selects the route. */
    function Key(): string {
      match this
      case CodeDetection => "code-detection"
      case DocumentDetection => "document-detection"
      case PromptDetection => "prompt-detection"
    }
  }

  /** `apiType && apiType in API_ROUTES`, over the table's own keys: a
      missing or empty type selects nothing. */
  function RouteOf(apiType: Option<string>): (r: Option<Route>)
    ensures r.Some? ==> apiType == Some(r.value.Key())
    ensures r.None? ==> forall route: Route :: apiType != Some(route.Key())
  {
    match apiType
    case None => None
    case Some(t) =>
      if t == "" then None
      else if t == "code-detection" then Some(CodeDetection)
      else if t == "document-detection" then Some(DocumentDetection)
      else if t == "prompt-detection" then Some(PromptDetection)
      else None
  }

  /** The request URL: either `new URL` throws, or its query gives the
      first value of each parameter. */
  datatype RequestUrl = Unparseable(error: Thrown) | Parsed(query: map<string, string>)

  /** What a handler's promise settles to. */
  datatype Outcome<R> = Returned(response: R) | Rejected(error: Thrown)

  /** What `POST` answers: the handler's own response, the 404 for an
      unknown type, or the 500 with the error envelope. */
  datatype RouterResponse<R> =
    | Delegated(response: R)
    | NotFound(status: nat, error: string, success: bool)
    | ServerError(status: nat, envelope: ApiResponse<Json>)

  const UnknownTypeMessage: string := "未知的API类型"

  function QueryParam(url: RequestUrl, name: string): Option<string>
    requires url.Parsed?
  {
    if name in url.query then Some(url.query[name]) else None
  }

  /** `searchParams.get("operation") || "default"` */
  function Operation(url: RequestUrl): (op: string)
    requires url.Parsed?
    ensures op != ""
    ensures QueryParam(url, "operation").Some? && QueryParam(url, "operation").value != "" ==>
      op == QueryParam(url, "operation").value
  {
    match QueryParam(url, "operation")
    case Some(o) => if o != "" then o else "default"
    case None => "default"
  }

  /** `POST` given the handlers: `handle(route, operation)` is what the
      selected handler's promise settles to. */
  function Post<R>(url: RequestUrl, handle: (Route, string) -> Outcome<R>): RouterResponse<R> {
    match url
    case Unparseable(e) => ServerError(500, HandleApiError(e))
    case Parsed(_) =>
      match RouteOf(QueryParam(url, "type"))
      case None => NotFound(404, UnknownTypeMessage, false)
      case Some(route) =>
        match handle(route, Operation(url))
        case Returned(response) => Delegated(response)
        case Rejected(e) => ServerError(500, HandleApiError(e))
  }

  /** The headers of the preflight answer. */
  datatype Preflight = Preflight(status: nat, headers: map<string, string>)

  /** `OPTIONS`: always 200, any origin, `POST` and `OPTIONS`, the
      `Content-Type` header. */
  function Options(): (r: Preflight)
    ensures r.status == 200
    ensures "Access-Control-Allow-Origin" in r.headers && r.headers["Access-Control-Allow-Origin"] == "*"
    ensures "Access-Control-Allow-Methods" in r.headers && r.headers["Access-Control-Allow-Methods"] == "POST, OPTIONS"
    ensures "Access-Control-Allow-Headers" in r.headers && r.headers["Access-Control-Allow-Headers"] == "Content-Type"
  {
    Preflight(200, map[
      "Access-Control-Allow-Origin" := "*",
      "Access-Control-Allow-Methods" := "POST, OPTIONS",
      "Access-Control-Allow-Headers" := "Content-Type"])
  }

  // ---------------------------------------------------------------- lemmas

  /** Each route's key selects that route, and only that key does. */
  lemma RouteKeyRoundTrip(route: Route, t: string)
    ensures RouteOf(Some(route.Key())) == Some(route)
    ensures RouteOf(Some(t)) == Some(route) <==> t == route.Key()
  {
  }

  /** A known type runs exactly that handler with the operation (or
      'default'), and answers with what it answers; a rejection becomes the
      500 error envelope. */
  lemma KnownTypeDelegates<R>(query: map<string, string>, route: Route, handle: (Route, string) -> Outcome<R>)
    requires "type" in query && query["type"] == route.Key()
    ensures var url := Parsed(query);
      var op := if "operation" in query && query["operation"] != "" then query["operation"] else "default";
      Post(url, handle) ==
        match handle(route, op)
        case Returned(response) => Delegated(response)
        case Rejected(e) => ServerError(500, HandleApiError(e))
  {
    RouteKeyRoundTrip(route, route.Key());
  }

  /** A missing or unknown type answers 404 without calling any handler:
      the answer is the same whatever the handlers would do. */
  lemma UnknownTypeNotFound<R>(query: map<string, string>, handle1: (Route, string) -> Outcome<R>,
                               handle2: (Route, string) -> Outcome<R>)
    requires "type" !in query || forall route: Route :: query["type"] != route.Key()
    ensures Post(Parsed(query), handle1) == Post(Parsed(query), handle2) == NotFound(404, UnknownTypeMessage, false)
  {
  }

  /** Every 500 answer carries a failure envelope with an error text. */
  lemma ServerErrorsAreFailures<R>(url: RequestUrl, handle: (Route, string) -> Outcome<R>)
    ensures Post(url, handle).ServerError? ==>
      !Post(url, handle).envelope.success && Post(url, handle).envelope.error.Some?
  {
  }

  /** An unparseable URL is a 500 whatever the handlers. */
  lemma UnparseableUrlIsServerError<R>(e: Thrown, handle: (Route, string) -> Outcome<R>)
    ensures Post(Unparseable(e), handle) == ServerError(500, HandleApiError(e))
  {
  }
}
