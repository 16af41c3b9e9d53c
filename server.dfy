/** The gateway's HTTP server: its middleware chain, its route table and the
    swagger document it serves (internal/transport/http/server.go). */
module Server {
  import opened Errors
  import opened Configuration
  import opened Text
  import opened Middlewares

  /** The request body limit: 10 MiB. */
  const MaxFileSize: nat := 1024 * 1024 * 10

  const SwaggerPath: string := "/swagger/*any"
  const SwaggerFile: string := "./api/swagger/gateway.swagger.json"
  const BaseUrlPlaceholder: string := "BASE_URL"

  // ---------------------------------------------------------------------------
  // Verbs and routes

  /** The HTTP methods a configured endpoint can be registered under. */
  datatype Verb = GET | HEAD | POST | PUT | DELETE | OPTIONS | PATCH

  function VerbName(v: Verb): string
  {
    match v
    case GET => "GET"
    case HEAD => "HEAD"
    case POST => "POST"
    case PUT => "PUT"
    case DELETE => "DELETE"
    case OPTIONS => "OPTIONS"
    case PATCH => "PATCH"
  }

  /** The registration switch: only the seven exact, upper-case method names
      are recognised. */
  function ParseVerb(s: string): (r: Option<Verb>)
    ensures r.Some? ==> VerbName(r.value) == s
    ensures r.None? <==> s !in ["GET", "HEAD", "POST", "PUT", "DELETE", "OPTIONS", "PATCH"]
  {
    if s == "GET" then Some(GET)
    else if s == "HEAD" then Some(HEAD)
    else if s == "POST" then Some(POST)
    else if s == "PUT" then Some(PUT)
    else if s == "DELETE" then Some(DELETE)
    else if s == "OPTIONS" then Some(OPTIONS)
    else if s == "PATCH" then Some(PATCH)
    else None
  }

  /** A method string is recognised exactly when it is the name of a verb,
      and then it is recognised as that verb. */
  lemma ParseVerbExact(s: string, v: Verb)
    ensures ParseVerb(s) == Some(v) <==> VerbName(v) == s
  {
    match v
    case GET =>
    case HEAD =>
    case POST =>
    case PUT =>
    case DELETE =>
    case OPTIONS =>
    case PATCH =>
  }

  /** Spelling matters: a lower-case method name is not recognised. */
  lemma LowerCaseSkipped()
    ensures ParseVerb("get") == None
  {
    assert "get"[0] != "GET"[0];
  }

  datatype Handler = Proxy(targetHost: string) | HealthCheck | SwaggerUI

  datatype Route = Route(verb: Verb, path: string, handler: Handler)

  const StatusOK: int := 200

  /** A response: its status and its body. */
  datatype Reply = Reply(status: int, body: string)

  /** What a handler answers by itself: the health check answers 200 with an
      empty JSON object. A proxied route answers with what its backend
      sends, and the swagger UI with what the swagger library serves; neither
      is modelled. */
  function Respond(h: Handler): Option<Reply>
  {
    match h
    case HealthCheck => Some(Reply(StatusOK, "{}"))
    case _ => None
  }

  /** The routes one configured endpoint contributes: one for a recognised
      method, none otherwise. */
  function EndpointRoute(addr: string, e: EndpointsConfig): seq<Route>
  {
    match ParseVerb(e.httpMethod)
    case Some(v) => [Route(v, e.uri, Proxy(addr))]
    case None => []
  }

  /** The routes of one service, in the order its endpoints are configured. */
  function EndpointRoutes(addr: string, endpoints: seq<EndpointsConfig>): seq<Route>
  {
    if endpoints == [] then []
    else EndpointRoutes(addr, endpoints[..|endpoints| - 1]) + EndpointRoute(addr, endpoints[|endpoints| - 1])
  }

  /** The proxy routes of all services, service after service. */
  function ProxyRoutes(services: seq<ServicesConfig>): seq<Route>
  {
    if services == [] then []
    else
      var last := services[|services| - 1];
      ProxyRoutes(services[..|services| - 1]) + EndpointRoutes(last.addr, last.endpoints)
  }

  /** The routes after the proxy routes: the health check, then the swagger UI. */
  function FixedRoutes(): seq<Route>
  {
    [Route(GET, HealthCheckPath, HealthCheck), Route(GET, SwaggerPath, SwaggerUI)]
  }

  /** `route` forwards the endpoint `e` to the backend `addr`: same path
      verbatim, same method. */
  predicate RouteOf(addr: string, e: EndpointsConfig, route: Route)
  {
    route.handler == Proxy(addr) && route.path == e.uri && VerbName(route.verb) == e.httpMethod
  }

  /** One endpoint's routes: exactly the route forwarding it, when its method is recognised. */
  lemma EndpointRouteExact(addr: string, e: EndpointsConfig, route: Route)
    ensures route in EndpointRoute(addr, e) <==> RouteOf(addr, e, route)
  {
    ParseVerbExact(e.httpMethod, route.verb);
  }

  /** Some endpoint is forwarded by `route`. */
  predicate SomeRouteOf(addr: string, endpoints: seq<EndpointsConfig>, route: Route)
  {
    exists j :: 0 <= j < |endpoints| && RouteOf(addr, endpoints[j], route)
  }

  lemma SomeRouteOfSnoc(addr: string, endpoints: seq<EndpointsConfig>, route: Route)
    requires endpoints != []
    ensures SomeRouteOf(addr, endpoints, route) <==>
              SomeRouteOf(addr, endpoints[..|endpoints| - 1], route) || RouteOf(addr, endpoints[|endpoints| - 1], route)
  {
    var n := |endpoints| - 1;
    var init := endpoints[..n];
    if SomeRouteOf(addr, endpoints, route) {
      var j :| 0 <= j < |endpoints| && RouteOf(addr, endpoints[j], route);
      if j < n {
        assert init[j] == endpoints[j];
      }
    }
    if SomeRouteOf(addr, init, route) {
      var j :| 0 <= j < |init| && RouteOf(addr, init[j], route);
      assert endpoints[j] == init[j];
    }
  }

  /** A service's routes are exactly the routes of its endpoints with recognised methods. */
  lemma {:induction false} EndpointRoutesExact(addr: string, endpoints: seq<EndpointsConfig>, route: Route)
    ensures route in EndpointRoutes(addr, endpoints) <==> SomeRouteOf(addr, endpoints, route)
    decreases |endpoints|
  {
    if endpoints != [] {
      var n := |endpoints| - 1;
      EndpointRoutesExact(addr, endpoints[..n], route);
      EndpointRouteExact(addr, endpoints[n], route);
      SomeRouteOfSnoc(addr, endpoints, route);
      assert EndpointRoutes(addr, endpoints) == EndpointRoutes(addr, endpoints[..n]) + EndpointRoute(addr, endpoints[n]);
    }
  }

  /** `route` forwards one of the endpoints of `service` to it. */
  predicate ServiceRoute(service: ServicesConfig, route: Route)
  {
    SomeRouteOf(service.addr, service.endpoints, route)
  }

  /** Some service forwards one of its endpoints by `route`. */
  predicate SomeServiceRoute(services: seq<ServicesConfig>, route: Route)
  {
    exists i :: 0 <= i < |services| && ServiceRoute(services[i], route)
  }

  lemma SomeServiceRouteSnoc(services: seq<ServicesConfig>, route: Route)
    requires services != []
    ensures SomeServiceRoute(services, route) <==>
              SomeServiceRoute(services[..|services| - 1], route) || ServiceRoute(services[|services| - 1], route)
  {
    var n := |services| - 1;
    var init := services[..n];
    if SomeServiceRoute(services, route) {
      var i :| 0 <= i < |services| && ServiceRoute(services[i], route);
      if i < n {
        assert init[i] == services[i];
      }
    }
    if SomeServiceRoute(init, route) {
      var i :| 0 <= i < |init| && ServiceRoute(init[i], route);
      assert services[i] == init[i];
    }
  }

  /** The proxy route table holds exactly the routes of the configured
      endpoints with recognised methods, each pointing at its service's address. */
  lemma {:induction false} ProxyRoutesExact(services: seq<ServicesConfig>, route: Route)
    ensures route in ProxyRoutes(services) <==> SomeServiceRoute(services, route)
    decreases |services|
  {
    if services != [] {
      var n := |services| - 1;
      var last := services[n];
      ProxyRoutesExact(services[..n], route);
      EndpointRoutesExact(last.addr, last.endpoints, route);
      SomeServiceRouteSnoc(services, route);
      assert ProxyRoutes(services) == ProxyRoutes(services[..n]) + EndpointRoutes(last.addr, last.endpoints);
    }
  }

  /** How many of the endpoints carry a recognised method. */
  function Recognised(endpoints: seq<EndpointsConfig>): nat
  {
    if endpoints == [] then 0
    else (if ParseVerb(endpoints[0].httpMethod).Some? then 1 else 0) + Recognised(endpoints[1..])
  }

  lemma {:induction false} RecognisedSnoc(endpoints: seq<EndpointsConfig>, e: EndpointsConfig)
    ensures Recognised(endpoints + [e]) == Recognised(endpoints) + (if ParseVerb(e.httpMethod).Some? then 1 else 0)
    decreases |endpoints|
  {
    if endpoints != [] {
      assert (endpoints + [e])[1..] == endpoints[1..] + [e];
      RecognisedSnoc(endpoints[1..], e);
    }
  }

  /** One route per recognised endpoint: every other method string is skipped. */
  lemma {:induction false} EndpointRouteCount(addr: string, endpoints: seq<EndpointsConfig>)
    ensures |EndpointRoutes(addr, endpoints)| == Recognised(endpoints)
    decreases |endpoints|
  {
    if endpoints != [] {
      var n := |endpoints| - 1;
      EndpointRouteCount(addr, endpoints[..n]);
      assert endpoints == endpoints[..n] + [endpoints[n]];
      RecognisedSnoc(endpoints[..n], endpoints[n]);
    }
  }

  /** How many endpoints of all services carry a recognised method. */
  function TotalRecognised(services: seq<ServicesConfig>): nat
  {
    if services == [] then 0
    else Recognised(services[0].endpoints) + TotalRecognised(services[1..])
  }

  lemma {:induction false} TotalRecognisedSnoc(services: seq<ServicesConfig>, s: ServicesConfig)
    ensures TotalRecognised(services + [s]) == TotalRecognised(services) + Recognised(s.endpoints)
    decreases |services|
  {
    if services != [] {
      assert (services + [s])[1..] == services[1..] + [s];
      TotalRecognisedSnoc(services[1..], s);
    }
  }

  /** The proxy route table has one route per recognised endpoint of all services. */
  lemma {:induction false} ProxyRouteCount(services: seq<ServicesConfig>)
    ensures |ProxyRoutes(services)| == TotalRecognised(services)
    decreases |services|
  {
    if services != [] {
      var n := |services| - 1;
      ProxyRouteCount(services[..n]);
      EndpointRouteCount(services[n].addr, services[n].endpoints);
      assert services == services[..n] + [services[n]];
      TotalRecognisedSnoc(services[..n], services[n]);
    }
  }

  // ---------------------------------------------------------------------------
  // Middleware

  /** The CORS policy: allowed origins, methods and headers, credentials and preflight cache age. */
  datatype CorsConfig = CorsConfig(
    allowAllOrigins: bool,
    allowOrigins: seq<string>,
    allowMethods: seq<string>,
    allowHeaders: seq<string>,
    allowCredentials: bool,
    maxAgeSeconds: nat)

  /** The CORS library's default policy. */
  function DefaultCorsConfig(): CorsConfig
  {
    CorsConfig(false, [], ["GET", "POST", "PUT", "PATCH", "DELETE", "HEAD", "OPTIONS"],
               ["Origin", "Content-Length", "Content-Type"], false, 12 * 60 * 60)
  }

  /** `AddAllowHeaders`: appends to the allowed headers. */
  function AddAllowHeaders(c: CorsConfig, headers: seq<string>): CorsConfig
  {
    c.(allowHeaders := c.allowHeaders + headers)
  }

  /** The policy the gateway installs. */
  function GatewayCors(): CorsConfig
  {
    AddAllowHeaders(DefaultCorsConfig(), ["Authorization", "Access-Control-Expose-Headers"])
      .(allowAllOrigins := true, allowMethods := ["PUT", "POST"])
  }

  /** The gateway's CORS policy: any origin, only PUT and POST, and the
      default headers plus Authorization and Access-Control-Expose-Headers. */
  lemma GatewayCorsPolicy()
    ensures GatewayCors().allowAllOrigins
    ensures GatewayCors().allowMethods == ["PUT", "POST"]
    ensures forall h :: h in GatewayCors().allowHeaders <==>
              h in DefaultCorsConfig().allowHeaders || h in ["Authorization", "Access-Control-Expose-Headers"]
  {
  }

  /** The handlers a request passes before its route: gin's logger and panic
      recovery, the body size limit, CORS, the server tracing span, and the
      authorization gate calling the permission service. */
  datatype Middleware =
    | GinLogger
    | GinRecovery
    | SizeLimit(maxBytes: nat)
    | Cors(config: CorsConfig)
    | Tracing
    | Authorization(permissionAddr: string)

  /** The middleware chain the server installs, in order. */
  function Chain(cfg: Config): seq<Middleware>
  {
    [GinLogger, GinRecovery, SizeLimit(MaxFileSize), Cors(GatewayCors()), Tracing, Authorization(cfg.permissionAddr)]
  }

  /** Running a request through a chain, given what each middleware decides:
      the first abort stops it, otherwise it reaches the route handler. */
  function RunChain(chain: seq<Middleware>, outcomeOf: Middleware -> Outcome): (o: Outcome)
    ensures o.Proceed? <==> forall i :: 0 <= i < |chain| ==> outcomeOf(chain[i]).Proceed?
    ensures o.Abort? ==> exists i :: 0 <= i < |chain| && outcomeOf(chain[i]) == o &&
                                     forall k :: 0 <= k < i ==> outcomeOf(chain[k]).Proceed?
  {
    if chain == [] then Proceed
    else if outcomeOf(chain[0]).Abort? then outcomeOf(chain[0])
    else
      var o := RunChain(chain[1..], outcomeOf);
      assert forall i :: 1 <= i < |chain| ==> chain[i] == chain[1..][i - 1];
      if o.Abort? then
        var i :| 0 <= i < |chain[1..]| && outcomeOf(chain[1..][i]) == o &&
                 forall k :: 0 <= k < i ==> outcomeOf(chain[1..][k]).Proceed?;
        assert outcomeOf(chain[i + 1]) == o;
        o
      else o
  }

  /** What each middleware decides when the authorization gate decides `gate`. */
  function WithGate(others: Middleware -> Outcome, gate: Outcome): Middleware -> Outcome
  {
    (m: Middleware) => if m.Authorization? then gate else others(m)
  }

  /** Authorization precedes every route: whatever the other middlewares do,
      a request reaches its handler only if the gate let it through. */
  lemma RouteNeedsGate(cfg: Config, others: Middleware -> Outcome, gate: Outcome)
    ensures RunChain(Chain(cfg), WithGate(others, gate)).Proceed? ==> gate.Proceed?
  {
    var chain := Chain(cfg);
    assert chain[5] == Authorization(cfg.permissionAddr);
  }

  /** A request the gate refuses is answered with the gate's 401, unless an
      earlier middleware (CORS preflight, say) already answered it. */
  lemma RefusalIsFinal(cfg: Config, others: Middleware -> Outcome, gate: Outcome)
    requires gate.Abort?
    requires forall m :: m in Chain(cfg) && !m.Authorization? ==> others(m).Proceed?
    ensures RunChain(Chain(cfg), WithGate(others, gate)) == gate
  {
    var f := WithGate(others, gate);
    var chain := Chain(cfg);
    var o := RunChain(chain, f);
    assert chain[5] == Authorization(cfg.permissionAddr);
    var i :| 0 <= i < |chain| && f(chain[i]) == o && forall k :: 0 <= k < i ==> f(chain[k]).Proceed?;
    assert chain[i] in chain;
  }

  /** The health check always answers: it makes no authorization call, the
      gate lets it through, so it reaches its handler whenever the other
      middlewares do, and the route table always holds that handler, which
      answers 200 with `{}`. */
  lemma HealthCheckAnswers(cfg: Config, httpMethod: string, header: Headers.Header, query: Headers.Query,
                           auth: AuthEndpoint, others: Middleware -> Outcome)
    requires forall m :: m in Chain(cfg) && !m.Authorization? ==> others(m).Proceed?
    ensures var d := Authorize(httpMethod, HealthCheckPath, header, query, auth);
            && d.call.None?
            && RunChain(Chain(cfg), WithGate(others, d.outcome)).Proceed?
    ensures Route(GET, HealthCheckPath, HealthCheck) in ProxyRoutes(cfg.proxyServices) + FixedRoutes()
    ensures Respond(HealthCheck) == Some(Reply(StatusOK, "{}"))
  {
    var d := Authorize(httpMethod, HealthCheckPath, header, query, auth);
    var chain := Chain(cfg);
    assert forall i :: 0 <= i < |chain| ==> chain[i] in chain;
    var routes := ProxyRoutes(cfg.proxyServices) + FixedRoutes();
    assert routes[|ProxyRoutes(cfg.proxyServices)|] == Route(GET, HealthCheckPath, HealthCheck);
  }

  // ---------------------------------------------------------------------------
  // The router and the server

  /** The gin engine: its middleware chain and its route table, both in
      registration order. Matching requests against the table is not modelled. */
  class Router {
    var middlewares: seq<Middleware>
    var routes: seq<Route>

    /** `gin.Default()`: an engine with the logger and recovery middlewares. */
    constructor Default()
      ensures middlewares == [GinLogger, GinRecovery] && routes == []
    {
      middlewares := [GinLogger, GinRecovery];
      routes := [];
    }

    method Use(m: Middleware)
      modifies this
      ensures middlewares == old(middlewares) + [m] && routes == old(routes)
    {
      middlewares := middlewares + [m];
    }

    method Handle(verb: Verb, path: string, handler: Handler)
      modifies this
      ensures routes == old(routes) + [Route(verb, path, handler)] && middlewares == old(middlewares)
    {
      routes := routes + [Route(verb, path, handler)];
    }
  }

  /** The swagger document source registered with the swagger library: the
      document is read from disk once and cached with its base URL filled in.
      `fileReads` counts the reads of the file. */
  class SwagDoc {
    var doc: string
    const baseURL: string
    ghost var fileReads: nat

    constructor (baseURL: string)
      ensures doc == "" && this.baseURL == baseURL && fileReads == 0
    {
      doc := "";
      this.baseURL := baseURL;
      fileReads := 0;
    }

    /** `ReadDoc`, with `read` standing for the contents of the swagger file
        or the error reading it. A cached document is returned without
        reading; a read error gives "" and leaves the cache empty; otherwise
        the first `BASE_URL` is replaced by the base URL and the result cached. */
    method ReadDoc(read: Result<string>) returns (s: string)
      modifies this
      ensures old(doc) != "" ==> s == old(doc) && doc == old(doc) && fileReads == old(fileReads)
      ensures old(doc) == "" ==> fileReads == old(fileReads) + 1
      ensures old(doc) == "" && read.Fail? ==> s == "" && doc == ""
      ensures old(doc) == "" && read.Ok? ==> s == ReplaceFirst(read.value, BaseUrlPlaceholder, baseURL) && doc == s
    {
      if doc == "" {
        fileReads := fileReads + 1;
        if read.Fail? {
          return "";
        }
        doc := ReplaceFirst(read.value, BaseUrlPlaceholder, baseURL);
      }
      s := doc;
    }
  }

  /** The `*http.Server`: the address it listens on and its handler, plus
      the swagger document registered beside it. */
  class HttpServer {
    const addr: string
    const router: Router
    const docs: SwagDoc

    constructor (addr: string, router: Router, docs: SwagDoc)
      ensures this.addr == addr && this.router == router && this.docs == docs
    {
      this.addr := addr;
      this.router := router;
      this.docs := docs;
    }
  }

  /** The method switch for one configured endpoint: a route to the backend
      for each of the seven recognised methods, nothing for any other string. */
  method RegisterEndpoint(router: Router, addr: string, endpoint: EndpointsConfig)
    modifies router
    ensures router.routes == old(router.routes) + EndpointRoute(addr, endpoint)
    ensures router.middlewares == old(router.middlewares)
  {
    var m := endpoint.httpMethod;
    if m == "GET" {
      router.Handle(GET, endpoint.uri, Proxy(addr));
    } else if m == "HEAD" {
      router.Handle(HEAD, endpoint.uri, Proxy(addr));
    } else if m == "POST" {
      router.Handle(POST, endpoint.uri, Proxy(addr));
    } else if m == "PUT" {
      router.Handle(PUT, endpoint.uri, Proxy(addr));
    } else if m == "DELETE" {
      router.Handle(DELETE, endpoint.uri, Proxy(addr));
    } else if m == "OPTIONS" {
      router.Handle(OPTIONS, endpoint.uri, Proxy(addr));
    } else if m == "PATCH" {
      router.Handle(PATCH, endpoint.uri, Proxy(addr));
    }
  }

  /** The inner loop of `NewHTTPServer`: the routes of one service, endpoint by endpoint. */
  method RegisterService(router: Router, service: ServicesConfig)
    modifies router
    ensures router.routes == old(router.routes) + EndpointRoutes(service.addr, service.endpoints)
    ensures router.middlewares == old(router.middlewares)
  {
    var endpoints := service.endpoints;
    var j := 0;
    while j < |endpoints|
      invariant 0 <= j <= |endpoints|
      invariant router.middlewares == old(router.middlewares)
      invariant router.routes == old(router.routes) + EndpointRoutes(service.addr, endpoints[..j])
    {
      RegisterEndpoint(router, service.addr, endpoints[j]);
      assert endpoints[..j + 1][..j] == endpoints[..j];
      j := j + 1;
    }
    assert endpoints[..j] == endpoints;
  }

  /** `NewHTTPServer`: the middleware chain, one proxy route per recognised
      configured endpoint in configuration order, then the health check and
      the swagger UI; the server listens on the configured address. */
  method NewHTTPServer(cfg: Config) returns (srv: HttpServer)
    ensures fresh(srv) && fresh(srv.router) && fresh(srv.docs)
    ensures srv.addr == cfg.addr
    ensures srv.router.middlewares == Chain(cfg)
    ensures srv.router.routes == ProxyRoutes(cfg.proxyServices) + FixedRoutes()
    ensures srv.docs.doc == "" && srv.docs.baseURL == cfg.swaggerBaseURL
  {
    var router := new Router.Default();
    router.Use(SizeLimit(MaxFileSize));

    var cors := DefaultCorsConfig();
    cors := AddAllowHeaders(cors, ["Authorization", "Access-Control-Expose-Headers"]);
    cors := cors.(allowAllOrigins := true);
    cors := cors.(allowMethods := ["PUT", "POST"]);

    var docs := new SwagDoc(cfg.swaggerBaseURL);

    router.Use(Cors(cors));
    router.Use(Tracing);
    router.Use(Authorization(cfg.permissionAddr));

    var services := cfg.proxyServices;
    var i := 0;
    while i < |services|
      invariant 0 <= i <= |services|
      invariant router.middlewares == Chain(cfg)
      invariant router.routes == ProxyRoutes(services[..i])
      invariant docs.doc == ""
    {
      RegisterService(router, services[i]);
      assert services[..i + 1][..i] == services[..i];
      i := i + 1;
    }
    assert services[..i] == services;

    router.Handle(GET, HealthCheckPath, HealthCheck);
    router.Handle(GET, SwaggerPath, SwaggerUI);

    srv := new HttpServer(cfg.addr, router, docs);
  }
}
