/** The two outbound calls the gateway makes: forwarding an authorized request
    to its backend, and asking the authorization service about a request
    (internal/transport/http/endpoints.go). */
module Endpoints {
  import opened Errors
  import opened Headers
  import opened Text
  import opened Middlewares

  datatype Url = Url(scheme: string, host: string, path: string, query: Query)

  /** The identity of a trace span: the trace it belongs to and its own ID. */
  datatype SpanContext = SpanContext(traceId: nat, spanId: nat)

  /** A request as sent on the wire. */
  datatype OutboundRequest = OutboundRequest(httpMethod: string, url: Url, header: Header, body: string)

  /** An `*http.Request` as the gateway handles it. `span` is the span held in
      the request's context; `injected` is the trace context the tracer has
      written into its headers (the tracer's own header encoding is opaque). */
  class HttpRequest {
    var httpMethod: string
    var requestURI: string
    var host: string
    var url: Url
    var header: Header
    var body: string
    var span: Option<SpanContext>
    var injected: Option<SpanContext>

    constructor (httpMethod: string, requestURI: string, host: string, url: Url, header: Header, body: string, span: Option<SpanContext>)
      ensures this.httpMethod == httpMethod && this.requestURI == requestURI && this.host == host
      ensures this.url == url && this.header == header && this.body == body
      ensures this.span == span && injected == None
    {
      this.httpMethod := httpMethod;
      this.requestURI := requestURI;
      this.host := host;
      this.url := url;
      this.header := header;
      this.body := body;
      this.span := span;
      injected := None;
    }

    /** What goes on the wire when this request is sent. */
    function Outbound(): OutboundRequest
      reads this
    {
      OutboundRequest(httpMethod, url, header, body)
    }

    /** `req.Clone(ctx)`: a new request with the same contents. */
    method Clone() returns (c: HttpRequest)
      ensures fresh(c)
      ensures c.httpMethod == httpMethod && c.requestURI == requestURI && c.host == host
      ensures c.url == url && c.header == header && c.body == body
      ensures c.span == span && c.injected == injected
    {
      c := new HttpRequest(httpMethod, requestURI, host, url, header, body, span);
      c.injected := injected;
    }
  }

  // ---------------------------------------------------------------------------
  // Forwarding to a backend

  const ForwardedHostHeader: string := "X-Forwarded-Host"
  const OriginHostHeader: string := "X-Origin-Host"

  /** The forwarded request's headers: the incoming host and the chosen
      backend are appended under their own keys; no value of any key is
      removed or replaced. */
  function ForwardedHeader(h: Header, incomingHost: string, targetHost: string): (r: Header)
    ensures Values(r, ForwardedHostHeader) == Values(h, ForwardedHostHeader) + [incomingHost]
    ensures Values(r, OriginHostHeader) == Values(h, OriginHostHeader) + [targetHost]
    ensures forall k :: k != ForwardedHostHeader && k != OriginHostHeader ==> Values(r, k) == Values(h, k)
    ensures forall k :: Values(h, k) <= Values(r, k)
  {
    Add(Add(h, ForwardedHostHeader, incomingHost), OriginHostHeader, targetHost)
  }

  /** The reverse proxy's `Director`: adds the forwarding headers and points the
      URL at the backend over plain HTTP; method, path, query and body stay. */
  method Director(r: HttpRequest, targetHost: string)
    modifies r
    ensures r.header == ForwardedHeader(old(r.header), old(r.host), targetHost)
    ensures r.url == old(r.url).(scheme := "http", host := targetHost)
    ensures r.httpMethod == old(r.httpMethod) && r.requestURI == old(r.requestURI) && r.host == old(r.host)
    ensures r.body == old(r.body) && r.span == old(r.span) && r.injected == old(r.injected)
  {
    r.header := Add(r.header, ForwardedHostHeader, r.host);
    r.header := Add(r.header, OriginHostHeader, targetHost);
    r.url := r.url.(scheme := "http");
    r.url := r.url.(host := targetHost);
  }

  /** A span the gateway opened for a call it makes. */
  datatype Span = Span(context: SpanContext, operation: string, parent: Option<SpanContext>, rpcClient: bool, finished: bool)

  /** `tracer.StartSpan(operation [, ChildOf(parent)])`: a child joins its
      parent's trace; a span without a parent opens the trace `freshTrace`.
      The tracer picks the new IDs, given here. */
  function StartSpan(operation: string, parent: Option<SpanContext>, freshTrace: nat, freshSpan: nat): (s: Span)
    ensures s.operation == operation && s.parent == parent && s.context.spanId == freshSpan
    ensures s.context.traceId == if parent.Some? then parent.value.traceId else freshTrace
    ensures !s.rpcClient && !s.finished
  {
    match parent
    case Some(p) => Span(SpanContext(p.traceId, freshSpan), operation, parent, false, false)
    case None => Span(SpanContext(freshTrace, freshSpan), operation, None, false, false)
  }

  /** The handler `makeHTTPProxyEndpoint(targetHost)` installs: open a client
      span (a child of the request's span when it has one), put it in the
      request's context, inject it into the headers, forward a copy of the
      request through `Director`, and finish the span on return. `out` is the
      request the backend receives. */
  method ServeProxy(c: HttpRequest, targetHost: string, freshTrace: nat, freshSpan: nat) returns (out: HttpRequest, span: Span)
    modifies c
    ensures span.operation == old(c.requestURI) && span.parent == old(c.span)
    ensures span.rpcClient && span.finished
    ensures span.context.spanId == freshSpan
    ensures span.context.traceId == if old(c.span).Some? then old(c.span).value.traceId else freshTrace
    ensures c.span == Some(span.context) && c.injected == Some(span.context)
    ensures c.httpMethod == old(c.httpMethod) && c.requestURI == old(c.requestURI) && c.host == old(c.host)
    ensures c.url == old(c.url) && c.header == old(c.header) && c.body == old(c.body)
    ensures fresh(out)
    ensures out.header == ForwardedHeader(c.header, c.host, targetHost)
    ensures out.url == c.url.(scheme := "http", host := targetHost)
    ensures out.httpMethod == c.httpMethod && out.requestURI == c.requestURI && out.body == c.body
    ensures out.injected == Some(span.context)
  {
    span := StartSpan(c.requestURI, c.span, freshTrace, freshSpan);
    span := span.(rpcClient := true);
    c.span := Some(span.context);
    if c.span.Some? {
      c.injected := Some(c.span.value);
    }
    out := c.Clone();
    Director(out, targetHost);
    span := span.(finished := true);
  }

  // ---------------------------------------------------------------------------
  // The authorization call

  const AuthPath: string := "/auth/is-access-allowed"

  /** The JSON `encoding/json` writes for an `isAccessAllowedRequest`: only the
      resource and the action (the token field is tagged `json:"-"`),
      followed by the encoder's newline. */
  function AuthBody(resource: string, action: string): string
  {
    ResourcePrefix + Quote(resource) + ActionPrefix + Quote(action) + "}\n"
  }

  const ResourcePrefix: string := "{\"resource\":"
  const ActionPrefix: string := ",\"action\":"

  /** Reads an authorization body back: the resource and the action. */
  function ParseAuthBody(body: string): Option<(string, string)>
  {
    if |body| < |ResourcePrefix| || body[..|ResourcePrefix|] != ResourcePrefix then None
    else
      match ParseQuoted(body[|ResourcePrefix|..])
      case None => None
      case Some((resource, rest)) =>
        if |rest| < |ActionPrefix| || rest[..|ActionPrefix|] != ActionPrefix then None
        else
          match ParseQuoted(rest[|ActionPrefix|..])
          case None => None
          case Some((action, tail)) => if tail == "}\n" then Some((resource, action)) else None
  }

  /** Reading a body back step by step: prefix, quoted resource, separator, quoted action, end. */
  lemma ParseAuthBodySteps(resource: string, action: string, quotedResource: string, quotedAction: string)
    requires ParseQuoted(quotedResource + (ActionPrefix + (quotedAction + "}\n")))
      == Some((resource, ActionPrefix + (quotedAction + "}\n")))
    requires ParseQuoted(quotedAction + "}\n") == Some((action, "}\n"))
    ensures ParseAuthBody(ResourcePrefix + quotedResource + ActionPrefix + quotedAction + "}\n")
      == Some((resource, action))
  {
    var body := ResourcePrefix + quotedResource + ActionPrefix + quotedAction + "}\n";
    var afterAction := quotedAction + "}\n";
    var afterResource := ActionPrefix + afterAction;
    assert body == ResourcePrefix + (quotedResource + afterResource);
    assert body[..|ResourcePrefix|] == ResourcePrefix;
    assert body[|ResourcePrefix|..] == quotedResource + afterResource;
    assert afterResource[..|ActionPrefix|] == ActionPrefix;
    assert afterResource[|ActionPrefix|..] == afterAction;
  }

  /** The body carries the resource and the action intact: reading it back gives both. */
  lemma AuthBodyRoundTrip(resource: string, action: string)
    ensures ParseAuthBody(AuthBody(resource, action)) == Some((resource, action))
  {
    QuoteRoundTrip(resource, ActionPrefix + (Quote(action) + "}\n"));
    QuoteRoundTrip(action, "}\n");
    ParseAuthBodySteps(resource, action, Quote(resource), Quote(action));
  }

  /** `encodeRequest`: the JSON of the request becomes the body. Encoding
      strings cannot fail, so no error is ever returned. */
  method EncodeRequest(r: HttpRequest, request: AuthRequest) returns (err: Option<Error>)
    modifies r
    ensures err == None
    ensures r.body == AuthBody(request.resource, request.action)
    ensures r.httpMethod == old(r.httpMethod) && r.requestURI == old(r.requestURI) && r.host == old(r.host)
    ensures r.url == old(r.url) && r.header == old(r.header)
    ensures r.span == old(r.span) && r.injected == old(r.injected)
  {
    r.body := AuthBody(request.resource, request.action);
    err := None;
  }

  /** `encodePostAddressRequest`: the authorization path, a JSON content type,
      the token as the `Authorization` header (replacing any earlier value),
      and the JSON body. */
  method EncodePostAddressRequest(req: HttpRequest, request: AuthRequest) returns (err: Option<Error>)
    modifies req
    ensures err == None
    ensures req.url == old(req.url).(path := AuthPath)
    ensures req.header == Set(Set(old(req.header), "Content-Type", "application/json"), "Authorization", request.token)
    ensures req.body == AuthBody(request.resource, request.action)
    ensures req.httpMethod == old(req.httpMethod) && req.requestURI == old(req.requestURI) && req.host == old(req.host)
    ensures req.span == old(req.span) && req.injected == old(req.injected)
  {
    req.url := req.url.(path := AuthPath);
    req.header := Set(req.header, "Content-Type", "application/json");
    req.header := Set(req.header, "Authorization", request.token);
    err := EncodeRequest(req, request);
  }

  /** A JSON value as `encoding/json` reads it. */
  datatype Json =
    | JNull
    | JBool(b: bool)
    | JNumber(text: string)
    | JString(s: string)
    | JArray(items: seq<Json>)
    | JObject(members: seq<(string, Json)>)

  function LowerAscii(c: char): char
  {
    if 'A' <= c <= 'Z' then (c as int + 32) as char else c
  }

  /** How `encoding/json` matches an object key to a field name: equal up to ASCII case. */
  predicate FoldEquals(a: string, b: string)
  {
    |a| == |b| && forall i :: 0 <= i < |a| ==> LowerAscii(a[i]) == LowerAscii(b[i])
  }

  function KindName(v: Json): string
  {
    match v
    case JNull => "null"
    case JBool(_) => "bool"
    case JNumber(_) => "number"
    case JString(_) => "string"
    case JArray(_) => "array"
    case JObject(_) => "object"
  }

  /** Whether the member is an explicit `"ok": true` (key matched up to case). */
  predicate GrantsAccess(member: (string, Json))
  {
    FoldEquals(member.0, "ok") && member.1 == JBool(true)
  }

  /** Whether the member sets the `ok` field: a boolean under a key matching `ok`. */
  predicate SetsOk(member: (string, Json))
  {
    FoldEquals(member.0, "ok") && member.1.JBool?
  }

  /** Whether the member is a type error for the `ok` field: a key matching
      `ok` with a value that is neither a boolean nor `null`. */
  predicate Mismatch(member: (string, Json))
  {
    FoldEquals(member.0, "ok") && !member.1.JBool? && !member.1.JNull?
  }

  /** The `*json.UnmarshalTypeError` for a non-boolean `ok` value. */
  function FieldTypeError(v: Json): Error
  {
    Leaf("json: cannot unmarshal " + KindName(v) + " into Go struct field isAccessAllowedResponse.ok of type bool")
  }

  /** The boolean of the last member that sets `ok`, if there is one: later
      keys overwrite earlier ones. */
  function LastOk(members: seq<(string, Json)>): Option<bool>
  {
    if members == [] then None
    else
      var last := members[|members| - 1];
      if SetsOk(last) then Some(last.1.b) else LastOk(members[..|members| - 1])
  }

  /** Reading the last setting member from the front: a later setting member
      overrides the first one. */
  lemma {:induction false} LastOkCons(m: (string, Json), rest: seq<(string, Json)>)
    ensures LastOk([m] + rest) == if LastOk(rest).Some? then LastOk(rest) else if SetsOk(m) then Some(m.1.b) else None
    decreases |rest|
  {
    var all := [m] + rest;
    if rest != [] {
      var n := |rest| - 1;
      assert all[|all| - 1] == rest[n];
      assert all[..|all| - 1] == [m] + rest[..n];
      LastOkCons(m, rest[..n]);
    } else {
      assert all[..|all| - 1] == [];
    }
  }

  /** The field is `true` after decoding only through a member granting access. */
  lemma {:induction false} LastOkGrants(members: seq<(string, Json)>)
    ensures LastOk(members) == Some(true) ==> exists i :: 0 <= i < |members| && GrantsAccess(members[i])
    decreases |members|
  {
    if members != [] {
      var n := |members| - 1;
      if !SetsOk(members[n]) {
        LastOkGrants(members[..n]);
        if LastOk(members) == Some(true) {
          var i :| 0 <= i < n && GrantsAccess(members[..n][i]);
          assert members[i] == members[..n][i];
        }
      } else {
        assert LastOk(members) == Some(true) ==> GrantsAccess(members[n]);
      }
    }
  }

  /** Decoding one member of the reply object into `isAccessAllowedResponse`:
      a boolean under a key matching `ok` sets the field, `null` leaves it,
      any other value there records a type error (the first one is kept),
      and every other key changes nothing. */
  function DecodeMember(member: (string, Json), ok: bool, err: Option<Error>): (r: (bool, Option<Error>))
    ensures !FoldEquals(member.0, "ok") ==> r == (ok, err)
    ensures SetsOk(member) ==> r == (member.1.b, err)
    ensures FoldEquals(member.0, "ok") && member.1.JNull? ==> r == (ok, err)
    ensures Mismatch(member) ==> r.0 == ok && r.1 == if err.None? then Some(FieldTypeError(member.1)) else err
  {
    var (key, value) := member;
    if !FoldEquals(key, "ok") then (ok, err)
    else
      match value
      case JBool(b) => (b, err)
      case JNull => (ok, err)
      case _ => (ok, if err.None? then Some(FieldTypeError(value)) else err)
  }

  /** Decoding the members in order, each from the state the previous one left. */
  function DecodeMembers(members: seq<(string, Json)>, ok: bool, err: Option<Error>): (bool, Option<Error>)
  {
    if members == [] then (ok, err)
    else
      var (ok1, err1) := DecodeMember(members[0], ok, err);
      DecodeMembers(members[1..], ok1, err1)
  }

  /** The last member that sets `ok` decides the field; with none, it keeps its starting value. */
  lemma {:induction false} DecodedOk(members: seq<(string, Json)>, ok: bool, err: Option<Error>)
    ensures DecodeMembers(members, ok, err).0 == if LastOk(members).Some? then LastOk(members).value else ok
    decreases |members|
  {
    if members != [] {
      var (ok1, err1) := DecodeMember(members[0], ok, err);
      var rest := members[1..];
      assert members == [members[0]] + rest;
      LastOkCons(members[0], rest);
      DecodedOk(rest, ok1, err1);
    }
  }

  /** An error already recorded is kept to the end. */
  lemma {:induction false} DecodedErrorKept(members: seq<(string, Json)>, ok: bool, err: Option<Error>)
    requires err.Some?
    ensures DecodeMembers(members, ok, err).1 == err
    decreases |members|
  {
    if members != [] {
      var (ok1, err1) := DecodeMember(members[0], ok, err);
      DecodedErrorKept(members[1..], ok1, err1);
    }
  }

  /** Decoding ends without error exactly when none was given and no `ok` member is mistyped. */
  lemma {:induction false} DecodedErrorNone(members: seq<(string, Json)>, ok: bool, err: Option<Error>)
    ensures DecodeMembers(members, ok, err).1.None? <==>
              err.None? && forall i :: 0 <= i < |members| ==> !Mismatch(members[i])
    decreases |members|
  {
    if members != [] {
      var (ok1, err1) := DecodeMember(members[0], ok, err);
      var rest := members[1..];
      assert DecodeMembers(members, ok, err) == DecodeMembers(rest, ok1, err1);
      DecodedErrorNone(rest, ok1, err1);
      assert forall i :: 1 <= i < |members| ==> members[i] == rest[i - 1];
    }
  }

  /** The error reported is the type error of the first mistyped `ok` member. */
  lemma {:induction false} DecodedErrorFirst(members: seq<(string, Json)>, ok: bool)
    requires DecodeMembers(members, ok, None).1.Some?
    ensures exists i :: 0 <= i < |members| && Mismatch(members[i])
                        && DecodeMembers(members, ok, None).1 == Some(FieldTypeError(members[i].1))
                        && forall k :: 0 <= k < i ==> !Mismatch(members[k])
    decreases |members|
  {
    var r := DecodeMembers(members, ok, None);
    var (ok1, err1) := DecodeMember(members[0], ok, None);
    var rest := members[1..];
    assert r == DecodeMembers(rest, ok1, err1);
    if Mismatch(members[0]) {
      DecodedErrorKept(rest, ok1, err1);
    } else {
      assert err1 == None;
      DecodedErrorFirst(rest, ok1);
      var i :| 0 <= i < |rest| && Mismatch(rest[i]) && r.1 == Some(FieldTypeError(rest[i].1))
               && forall k :: 0 <= k < i ==> !Mismatch(rest[k]);
      assert members[i + 1] == rest[i];
      assert forall k :: 1 <= k < i + 1 ==> members[k] == rest[k - 1];
    }
  }

  /** `decodeDeleteAddressResponse`, given what `json.Decoder` read from the
      reply body (or its read/syntax error): the response and the error.
      An object sets `ok` from its last boolean `ok` member and reports its
      first type error; `null` leaves the zero response; any other value is
      a type error. */
  function DecodeAuthResponse(doc: Result<Json>): (r: (AuthResponse, Option<Error>))
    ensures doc.Fail? ==> r == (AuthResponse(false), Some(doc.error))
    ensures doc.Ok? && doc.value.JObject? ==>
              && r.0.ok == (LastOk(doc.value.members) == Some(true))
              && (r.1.None? <==> forall i :: 0 <= i < |doc.value.members| ==> !Mismatch(doc.value.members[i]))
    ensures doc == Ok(JNull) ==> r == (AuthResponse(false), None)
    ensures doc.Ok? && !doc.value.JObject? && !doc.value.JNull? ==> !r.0.ok && r.1.Some?
    ensures r.0.ok ==>
              doc.Ok? && doc.value.JObject? &&
              exists i :: 0 <= i < |doc.value.members| && GrantsAccess(doc.value.members[i])
  {
    match doc
    case Fail(e) => (AuthResponse(false), Some(e))
    case Ok(JObject(members)) =>
      var (ok, err) := DecodeMembers(members, false, None);
      DecodedOk(members, false, None);
      DecodedErrorNone(members, false, None);
      LastOkGrants(members);
      (AuthResponse(ok), err)
    case Ok(JNull) => (AuthResponse(false), None)
    case Ok(v) =>
      (AuthResponse(false), Some(Leaf("json: cannot unmarshal " + KindName(v) + " into Go value of type http.isAccessAllowedResponse")))
  }

  /** The reply of the authorization service: its status (which nothing
      inspects) and the JSON read from its body. */
  datatype AuthReply = AuthReply(status: int, body: Result<Json>)

  /** The HTTP round trip of the go-kit client: a reply or a transport error. */
  type Transport = OutboundRequest -> Result<AuthReply>

  /** The request the authorization client sends for `request`. */
  function AuthOutbound(target: Url, request: AuthRequest): (o: OutboundRequest)
    ensures o.httpMethod == "POST" && o.url.path == AuthPath && o.url.host == target.host
    ensures Get(o.header, "Authorization") == request.token
    ensures Get(o.header, "Content-Type") == "application/json"
    ensures ParseAuthBody(o.body) == Some((request.resource, request.action))
  {
    AuthBodyRoundTrip(request.resource, request.action);
    OutboundRequest("POST", target.(path := AuthPath),
                    Set(Set(map[], "Content-Type", "application/json"), "Authorization", request.token),
                    AuthBody(request.resource, request.action))
  }

  /** What the authorization endpoint answers: a transport or decoding error
      is returned as it is; otherwise the decoded response. */
  function AuthResult(target: Url, request: AuthRequest, send: Transport): Result<AuthResponse>
  {
    match send(AuthOutbound(target, request))
    case Fail(e) => Fail(e)
    case Ok(reply) =>
      var (response, err) := DecodeAuthResponse(reply.body);
      if err.Some? then Fail(err.value) else Ok(response)
  }

  /** The authorization endpoint built by `makeAuthenticateProxyEndpoint`:
      a POST to `target`, encoded by `EncodePostAddressRequest`, sent with
      `send`, decoded by `DecodeAuthResponse`. */
  method CallAuthEndpoint(target: Url, request: AuthRequest, send: Transport) returns (r: Result<AuthResponse>)
    ensures r == AuthResult(target, request, send)
  {
    var req := new HttpRequest("POST", "", target.host, target, map[], "", None);
    // The encoder's error is always None (see EncodeRequest), so the
    // client's early return on it is never taken.
    var _ := EncodePostAddressRequest(req, request);
    assert req.Outbound() == AuthOutbound(target, request);
    var sent := send(req.Outbound());
    if sent.Fail? {
      return Fail(sent.error);
    }
    var (response, decodeErr) := DecodeAuthResponse(sent.value.body);
    if decodeErr.Some? {
      return Fail(decodeErr.value);
    }
    return Ok(response);
  }

  /** End to end, the gate is fail-closed: with the real authorization
      endpoint, a request other than the health check goes on only if the
      service was reached and its reply body holds an explicit `"ok": true`. */
  lemma GateNeedsExplicitGrant(httpMethod: string, requestURI: string, header: Header, query: Query, target: Url, send: Transport)
    ensures var d := Authorize(httpMethod, requestURI, header, query, r => AuthResult(target, r, send));
            d.outcome.Proceed? && requestURI != HealthCheckPath ==>
              var sent := send(AuthOutbound(target, AuthRequest(FindToken(header, query), requestURI, httpMethod)));
              && sent.Ok? && sent.value.body.Ok? && sent.value.body.value.JObject?
              && exists i :: 0 <= i < |sent.value.body.value.members| && GrantsAccess(sent.value.body.value.members[i])
  {
  }

  /** With the real authorization endpoint reached, a request other than the
      health check proceeds exactly when the reply is an object whose last
      boolean `ok` member is `true` and which has no mistyped `ok` member. */
  lemma GrantProceeds(httpMethod: string, requestURI: string, header: Header, query: Query, target: Url,
                      send: Transport, status: int, members: seq<(string, Json)>)
    requires requestURI != HealthCheckPath
    requires send(AuthOutbound(target, AuthRequest(FindToken(header, query), requestURI, httpMethod)))
               == Ok(AuthReply(status, Ok(JObject(members))))
    ensures Authorize(httpMethod, requestURI, header, query, r => AuthResult(target, r, send)).outcome.Proceed? <==>
              LastOk(members) == Some(true) && forall i :: 0 <= i < |members| ==> !Mismatch(members[i])
  {
    var request := AuthRequest(FindToken(header, query), requestURI, httpMethod);
    var decoded := DecodeAuthResponse(Ok(JObject(members)));
    assert AuthResult(target, request, send) == if decoded.1.Some? then Fail(decoded.1.value) else Ok(decoded.0);
  }

  /** The reply `{"ok": true}` grants access. */
  lemma OkTrueGrants()
    ensures DecodeAuthResponse(Ok(JObject([("ok", JBool(true))]))) == (AuthResponse(true), None)
  {
    var members := [("ok", JBool(true))];
    assert SetsOk(members[0]);
    assert LastOk(members) == Some(true);
  }
}
