/** The authorization gate every request passes before it reaches a route
    (internal/transport/http/middlewares.go). */
module Middlewares {
  import opened Errors
  import opened Headers

  /** The one path that is never sent to the authorization service. */
  const HealthCheckPath: string := "/health-check"

  const StatusUnauthorized: int := 401

  const PermissionDenied: string := "Permission denied"

  /** What the gate asks the authorization service: the caller's token, the
      full request URI and the HTTP method. */
  datatype AuthRequest = AuthRequest(token: string, resource: string, action: string)

  /** The authorization service's answer. */
  datatype AuthResponse = AuthResponse(ok: bool)

  /** The authorization endpoint as the gate sees it: an answer or an error. */
  type AuthEndpoint = AuthRequest -> Result<AuthResponse>

  /** What the gate does with the request: hand it on (`c.Next()`) or stop the
      chain with a status and a JSON message (`c.AbortWithStatusJSON`). */
  datatype Outcome = Proceed | Abort(status: int, message: string)

  /** The gate's effect on one request: the authorization call it made, if any, and its outcome. */
  datatype Decision = Decision(call: Option<AuthRequest>, outcome: Outcome)

  /** The caller's credential: a non-empty `Authorization` header, else the first
      `token` query value (even an empty one), else "". */
  function FindToken(header: Header, query: Query): (token: string)
    ensures Get(header, "Authorization") != "" ==> token == Get(header, "Authorization")
    ensures Get(header, "Authorization") == "" && First(query, "token").None? ==> token == ""
    ensures Get(header, "Authorization") == "" && First(query, "token").Some? ==>
              token == First(query, "token").value
  {
    var fromHeader := Get(header, "Authorization");
    if fromHeader != "" then fromHeader
    else
      match First(query, "token")
      case Some(t) => t
      case None => ""
  }

  /** `AuthorizeMiddleware`: the health-check path passes untouched; every other
      request is authorized by one call to `auth`. An error or a refusal stops
      the request with 401; only an explicit `ok` lets it through. */
  function Authorize(httpMethod: string, requestURI: string, header: Header, query: Query, auth: AuthEndpoint): (d: Decision)
    ensures d.call.None? <==> requestURI == HealthCheckPath
    ensures d.call.Some? ==> d.call.value == AuthRequest(FindToken(header, query), requestURI, httpMethod)
    ensures d.outcome.Proceed? <==>
              requestURI == HealthCheckPath || (d.call.Some? && auth(d.call.value) == Ok(AuthResponse(true)))
    ensures d.outcome.Abort? ==> d.outcome.status == StatusUnauthorized
    ensures d.call.Some? && auth(d.call.value).Fail? ==> d.outcome.message == Message(auth(d.call.value).error)
    ensures d.call.Some? && auth(d.call.value) == Ok(AuthResponse(false)) ==> d.outcome.message == PermissionDenied
  {
    if requestURI == HealthCheckPath then Decision(None, Proceed)
    else
      var request := AuthRequest(FindToken(header, query), requestURI, httpMethod);
      match auth(request)
      case Fail(e) => Decision(Some(request), Abort(StatusUnauthorized, Message(e)))
      case Ok(response) =>
        if !response.ok then Decision(Some(request), Abort(StatusUnauthorized, PermissionDenied))
        else Decision(Some(request), Proceed)
  }

  /** The bypass is an exact string match: the health-check path with a query
      string attached is authorized like any other request. */
  lemma BypassIsExact(httpMethod: string, header: Header, query: Query, auth: AuthEndpoint)
    ensures Authorize(httpMethod, HealthCheckPath + "?x=1", header, query, auth).call.Some?
  {
    assert (HealthCheckPath + "?x=1")[13] == '?';
  }
}
