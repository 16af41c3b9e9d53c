# Gateway core in Dafny

A model of the request path and lifecycle of a small Go API gateway:

- **Authorization gate.** Every request except the exact path `/health-check` is checked with an authorization service before it reaches a route. An error or a refusal ends the request with 401.
- **Forwarding to backends.** Authorized requests are sent to their backend through a reverse proxy. The proxy adds forwarding headers, points the URL at the backend and opens a client tracing span.
- **Route table.** The routes are built from configuration: one route per configured endpoint whose method is one of seven exact verbs. The health-check and swagger routes come after them, behind a fixed middleware chain.
- **Registry entry.** The instance registers itself in Consul: the agent address is parsed into host and port, and a registration with a fixed health check is sent. It deregisters under the same ID.
- **Lifecycle.** The application object applies its options in order. `Run` builds the server, creates the registry client, registers, then serves. `Stop` deregisters, then shuts down under a five-second deadline.

The foreign libraries are parameters of the model, not code in it:

- the authorization service's transport;
- the Consul agent's replies and client creation;
- the tracer's fresh IDs;
- the swagger file read;
- the serve and shutdown results.

The model has one module per Go source file of the core: `Middlewares`, `Endpoints`, `Server`, `Consul` and `Lifecycle`. It also has:

- `Configuration`: the configuration records;
- `Errors`: Go errors with `%w` wrapping;
- `Headers`: `http.Header` as a map from key to its value list, and query strings as ordered pairs;
- `Text`: `strings.Replace` with n = 1, and `encoding/json` string escaping with a reference reader;
- `Numbers`: `strconv.Atoi` and `%d` for 64-bit `int`.

Where the code is imperative, the model is too:

- The router, the swagger document, the request, the Consul client and service, and the application are classes whose methods change their fields.
- `NewHTTPServer` and `New` keep their loops.

Each method is proved against a specification function, for example `ProxyRoutes`, `ForwardedHeader`, `RunOutcome` or `StopOutcome`. The properties of those functions are proved as lemmas.

Three behaviours of the code differ from what a reader of the gateway might expect. The model follows the code:

- An endpoint with an unrecognised method string is skipped silently. Startup does not fail.
- The token falls back to the `token` query value when the `Authorization` header is empty, not only when it is absent.
- `Stop` returns at once when deregistration fails, and does not attempt the shutdown.

## Model

| member | source | states |
|---|---|---|
| Headers.Add | internal/transport/http/endpoints.go:25-26 | `Header.Add` appends the value after the key's existing values and leaves every other key's values unchanged |
| Headers.Get | internal/transport/http/middlewares.go:48 | `Header.Get`: the first value stored under the key, and "" when the key is absent or has no values |
| Headers.Set | internal/transport/http/endpoints.go:76-77 | `Header.Set` leaves exactly one value under the key and leaves every other key's values unchanged |
| Headers.AddKeepsValues | internal/transport/http/endpoints.go:25-26 | adding never drops or reorders values: the old values of every key are a prefix of the new ones, and a non-empty `Get` is unchanged |
| Headers.GetAfterSet | internal/transport/http/endpoints.go:76-77 | after `Set`, `Get` reads back exactly the value set, whatever was there before |
| Headers.First | internal/transport/http/middlewares.go:52-55 | `v["token"][0]`: None exactly when no pair has the key; otherwise the value of the first pair with that key |
| Middlewares.FindToken | internal/transport/http/middlewares.go:47-58 | a non-empty `Authorization` header wins; an empty one falls through to a `token` query value (even an empty one); with neither the token is "" |
| Middlewares.Authorize | internal/transport/http/middlewares.go:10-45 | the auth call is skipped exactly for the path `/health-check`; otherwise the request is (token, full URI, method); proceed iff health check or the endpoint answered ok=true; every abort is 401, carrying the error text on an error and "Permission denied" on ok=false |
| Middlewares.BypassIsExact | internal/transport/http/middlewares.go:12-16 | the bypass is an exact match: `/health-check?x=1` is sent to the authorization service |
| Endpoints.ForwardedHeader | internal/transport/http/endpoints.go:25-26 | the incoming host is appended under X-Forwarded-Host and the target under X-Origin-Host; every other key keeps its values; no old value of any key is lost |
| Endpoints.Director | internal/transport/http/endpoints.go:24-29 | the request's headers become the forwarded headers; its URL gets scheme "http" and the target host, with path and query kept; method, body and span are unchanged |
| Endpoints.StartSpan | internal/transport/http/endpoints.go:35-42 | the span is named after the operation with the given parent; with a parent it joins the parent's trace, without one it opens a new trace; it is not yet marked or finished |
| Endpoints.ServeProxy | internal/transport/http/endpoints.go:21-57 | the client span is named after the request URI, is a child of the inbound span (same trace) when there is one and a new trace otherwise, is marked RPC client, and is finished; the span in the request context and the injected trace context are the new span's; the backend receives a copy with forwarded headers and retargeted URL |
| Endpoints.AuthBodyRoundTrip | internal/transport/http/endpoints.go:99-103 | the JSON body holds the resource and the action and gives both back when read; the token is not in it |
| Endpoints.EncodeRequest | internal/transport/http/endpoints.go:82-90 | the body becomes the JSON of (resource, action); no error is returned; URL and headers are untouched |
| Endpoints.EncodePostAddressRequest | internal/transport/http/endpoints.go:72-80 | the path becomes `/auth/is-access-allowed`, Content-Type is set to application/json and Authorization is set to the token, replacing earlier values, and the JSON body is attached; no error |
| Endpoints.DecodeMember | internal/transport/http/endpoints.go:105-107 | for one reply member: a boolean under a key matching `ok` (up to ASCII case) sets the field; `null` there keeps it; any other value there keeps it and records a type error unless one is already recorded; every other key changes nothing |
| Endpoints.LastOkGrants | internal/transport/http/endpoints.go:105-107 | the field ends `true` only through a member that is an explicit `"ok": true` |
| Endpoints.DecodedOk | internal/transport/http/endpoints.go:92-97 | after decoding all members in order, the field holds the boolean of the last member that sets it (later keys overwrite earlier ones), or its starting value when none does |
| Endpoints.DecodedErrorKept | internal/transport/http/endpoints.go:92-97 | a type error already recorded is the one reported at the end |
| Endpoints.DecodedErrorNone | internal/transport/http/endpoints.go:92-97 | decoding the members ends without error iff none was given and no member under `ok` has a value that is neither boolean nor `null` |
| Endpoints.DecodedErrorFirst | internal/transport/http/endpoints.go:92-97 | the error reported is the type error of the first mistyped `ok` member |
| Endpoints.DecodeAuthResponse | internal/transport/http/endpoints.go:92-97 | a read or syntax error gives the zero response (ok=false) with the error; an object gives ok = (its last boolean `ok` member is true), with an error iff some `ok` member is mistyped; `null` gives the zero response with no error; any other value gives ok=false with an error; ok=true only for an object with an explicit `"ok": true` member |
| Endpoints.OkTrueGrants | internal/transport/http/endpoints.go:105-107 | the reply `{"ok": true}` decodes to ok=true with no error |
| Endpoints.AuthOutbound | internal/transport/http/endpoints.go:60-77 | the authorization request is a POST to the target host at `/auth/is-access-allowed`, with Authorization = the token, Content-Type application/json, and a body that reads back as (resource, action) |
| Endpoints.CallAuthEndpoint | internal/transport/http/endpoints.go:60-70 | the client encodes the request, sends it, and returns the transport error, else the decoding error, else the decoded response |
| Endpoints.GateNeedsExplicitGrant | internal/transport/http/middlewares.go:33-43 | end to end, with the real authorization endpoint, a request other than the health check proceeds only if the service was reached and its reply is an object holding `"ok": true` |
| Endpoints.GrantProceeds | internal/transport/http/middlewares.go:24-43 | end to end, when the authorization service answers with an object, a request other than the health check proceeds iff the object's last boolean `ok` member is true and no `ok` member is mistyped |
| Text.IndexOf | internal/transport/http/server.go:85 | the first index where the pattern occurs, or -1 when it occurs nowhere |
| Text.ReplaceFirst | internal/transport/http/server.go:85 | text without the pattern is returned unchanged; otherwise exactly the first occurrence is replaced |
| Text.ReplaceKeepsLaterText | internal/transport/http/server.go:85 | everything after the first occurrence, later occurrences included, is kept verbatim |
| Text.ParseEscaped | internal/transport/http/endpoints.go:84 | the escaped text of a string followed by a closing quote is read back as that string, leaving what follows |
| Text.QuoteRoundTrip | internal/transport/http/endpoints.go:84 | a JSON string literal as the encoder writes it is read back whole, leaving what follows |
| Numbers.Atoi | internal/infrastructure/consul/service.go:34-37 | succeeds exactly on an optional sign followed by decimal digits whose value fits in 64 bits, and then returns that value |
| Numbers.AtoiItoa | internal/infrastructure/consul/service.go:47 | reading back what `%d` printed gives the same number, for every 64-bit integer |
| Consul.SplitHostPort | internal/infrastructure/consul/service.go:29-32 | a successful split gives host and port with `hostport` equal to "host:port" or "[host]:port" and a port free of colons and brackets; an address without a colon fails |
| Consul.SplitPlain | internal/infrastructure/consul/service.go:29 | a plain "host:port" splits back into its host and port |
| Consul.SplitBracketed | internal/infrastructure/consul/service.go:29 | a bracketed "[host]:port" splits back into its bare host and port |
| Consul.SplitJoin | internal/infrastructure/consul/service.go:29 | splitting undoes `JoinHostPort` for bracket-free hosts and ports |
| Consul.PlainJoinWithColonFails | internal/infrastructure/consul/service.go:29 | a host containing colons written as plain "host:port" does not split |
| Consul.HealthCheckUrlLayout | internal/infrastructure/consul/service.go:47 | the check URL is `http://`, then the host, a colon and the port in `%d` form, then `/health-check` |
| Consul.BuildRegistration | internal/infrastructure/consul/service.go:29-48 | an unsplittable agent address gives "parse consul agent addr", a non-integer port "parse consul agent port"; otherwise the record has ID = serviceID, Name = family name, Address = host, Port = parsed port, and a check with interval "5s", timeout "3s" and URL `http://host:port/health-check` |
| Consul.RegistrationFromParts | internal/infrastructure/consul/service.go:39-48 | once the agent address splits into a host and a 64-bit decimal port, the record carries exactly that host and port, and the check URL is built from them |
| Consul.CheckTargetsAgentAddr | internal/infrastructure/consul/service.go:44-48 | for a plain "host:port" agent address, the registry polls `http://` + the agent address + `/health-check` |
| Consul.BracketedCheckUrl | internal/infrastructure/consul/service.go:47 | for a bracketed IPv6 agent address, the check URL is written with the bare host, so its authority no longer splits into host and port |
| Consul.Client.constructor | internal/app/app.go:86-96 | a new client for the registry address has made no calls and registered nothing |
| Consul.Client.ServiceRegister | internal/infrastructure/consul/service.go:39-49 | one register call is logged; the agent's reply is returned; the service is recorded under its ID only when the agent accepts it |
| Consul.Client.ServiceDeregister | internal/infrastructure/consul/service.go:57 | one deregister call is logged; the agent's reply is returned; the ID is removed only when the agent accepts it |
| Consul.Service.constructor | internal/infrastructure/consul/service.go:20-26 | the handle keeps the client, configuration and service ID it is given (they are constants from then on) |
| Consul.Service.Register | internal/infrastructure/consul/service.go:28-54 | a parse error is returned with no registry call and no change in the registry; otherwise exactly one registration of the built record is sent, a rejection is returned wrapped as "sign up service via consul", and acceptance records the service under its ID |
| Consul.Service.Deregister | internal/infrastructure/consul/service.go:56-62 | deregisters by the ID fixed at construction; a failure is wrapped as "deregister service in consul" |
| Server.ParseVerb | internal/transport/http/server.go:40-55 | a recognised method string is the name of the verb it is read as; an unrecognised one names no verb |
| Server.ParseVerbExact | internal/transport/http/server.go:40-55 | a method string is recognised iff it is exactly one of the seven verb names, and then as that verb |
| Server.LowerCaseSkipped | internal/transport/http/server.go:40-55 | matching is case-sensitive: "get" is not recognised |
| Server.EndpointRouteExact | internal/transport/http/server.go:40-55 | one endpoint contributes exactly the route forwarding it (same verb name, URI verbatim, its service as target), and nothing when its method is not recognised |
| Server.EndpointRoutesExact | internal/transport/http/server.go:39-56 | a service's routes are exactly its endpoints with recognised methods, each with the URI verbatim and the service address as target |
| Server.EndpointRouteCount | internal/transport/http/server.go:40-55 | one route per endpoint with a recognised method; other method strings add nothing |
| Server.ProxyRoutesExact | internal/transport/http/server.go:38-58 | the proxy route table holds exactly the routes of recognised endpoints of the configured services, each pointing at its own service |
| Server.ProxyRouteCount | internal/transport/http/server.go:38-58 | the proxy route table has as many routes as there are recognised endpoints across all services |
| Server.GatewayCorsPolicy | internal/transport/http/server.go:27-30 | CORS allows all origins, only the methods PUT and POST, and the default headers plus Authorization and Access-Control-Expose-Headers |
| Server.RunChain | internal/transport/http/server.go:34-36 | a request reaches its handler iff every middleware of the chain lets it through; otherwise it gets the answer of the first middleware that stops it |
| Server.RouteNeedsGate | internal/transport/http/server.go:34-36 | authorization precedes every route: whatever the other middlewares do, no request reaches a handler unless the gate let it through |
| Server.RefusalIsFinal | internal/transport/http/server.go:34-36 | when the earlier middlewares let a request through, the gate's refusal is the request's answer |
| Server.HealthCheckAnswers | internal/transport/http/server.go:60-62 | a `/health-check` request makes no authorization call and passes the gate, so it gets through the chain whenever the other middlewares let it; `GET /health-check` is always in the route table, and its handler answers 200 with `{}` |
| Server.Router.Default | internal/transport/http/server.go:24 | `gin.Default()` starts with the logger and recovery middlewares and no routes |
| Server.Router.Use | internal/transport/http/server.go:25 | a middleware is appended to the chain; routes are unchanged |
| Server.Router.Handle | internal/transport/http/server.go:42 | a route is appended to the table; the chain is unchanged |
| Server.SwagDoc.constructor | internal/transport/http/server.go:32 | the document starts uncached with the configured base URL |
| Server.SwagDoc.ReadDoc | internal/transport/http/server.go:77-88 | a cached document is returned without reading the file; a read error gives "" and leaves the cache empty; otherwise the first `BASE_URL` is replaced by the base URL, and the result is cached and returned |
| Server.HttpServer.constructor | internal/transport/http/server.go:66-69 | the server keeps its address and handler |
| Server.RegisterEndpoint | internal/transport/http/server.go:40-55 | the switch appends one proxy route for a recognised method and nothing otherwise; the chain is unchanged |
| Server.RegisterService | internal/transport/http/server.go:39-56 | the inner loop appends the routes of the service's endpoints in configuration order |
| Server.NewHTTPServer | internal/transport/http/server.go:23-70 | the chain is logger, recovery, 10 MiB size limit, CORS, tracing, authorization; the routes are the proxy routes in configuration order, then `GET /health-check`, then `GET /swagger/*any`; the server listens on the configured address; the swagger document starts uncached |
| Lifecycle.LastServiceIdWins | internal/app/app.go:28-57 | options apply in order: the last `WithServiceID` decides the service ID, overriding the default and earlier options |
| Lifecycle.DefaultServiceIdKept | internal/app/app.go:45-54 | without a `WithServiceID` option the generated ID is kept |
| Lifecycle.ServeError | internal/app/app.go:75-80 | serving ends without error iff it returned nothing or `ErrServerClosed`; any other error is wrapped as "http serve error" |
| Lifecycle.RunServesOnlyWhenRegistered | internal/app/app.go:59-84 | the steps of `Run` are ordered (serving only after a successful registration under the app's ID), and serving happens iff the client was created and registration succeeded |
| Lifecycle.RunErrors | internal/app/app.go:59-96 | `Run` returns the client error wrapped as "create consul client", else the registration error as is, else nothing when serving ended without error or with `ErrServerClosed`, else the serve error wrapped as "http serve error" |
| Lifecycle.StopShutsDownOnlyWhenDeregistered | internal/app/app.go:98-111 | `Stop`'s steps are ordered; it shuts down iff deregistration succeeded, always with the 5-second deadline |
| Lifecycle.App.constructor | internal/app/app.go:45-57 | the app starts with the generated ID and a no-op logger, then applies the options in order; nothing is built yet |
| Lifecycle.App.RegisterWith | internal/app/app.go:71 | registering through the handle returns `Register`'s error and makes `Register`'s calls |
| Lifecycle.App.InitConsul | internal/app/app.go:86-96 | a creation error is returned wrapped as "create consul client" with no client; otherwise a fresh client for the registry address |
| Lifecycle.App.BuildServer | internal/app/app.go:62 | the server from `NewHTTPServer` is kept (address, chain and routes), and its construction is logged |
| Lifecycle.App.Run | internal/app/app.go:59-84 | the logged steps and the error are those of `RunOutcome` with `Register`'s error; the order invariant is kept; the server is built and listens on the configured address; the registry handle is made only once the client exists, and its client has made exactly `Register`'s calls |
| Lifecycle.App.Connect | internal/app/app.go:64-73 | client creation, then registration and serving, as `ConnectOutcome` states |
| Lifecycle.App.RegisterAndServe | internal/app/app.go:69-83 | the handle is made with the app's ID and registry configuration; registration is attempted once; serving is logged only after a successful registration |
| Lifecycle.App.Stop | internal/app/app.go:98-111 | the logged steps and the error are those of `StopOutcome`; the deregister call uses the registered ID, and shutdown is attempted only after successful deregistration |

## Left out

- Request matching and dispatch by gin are left out, including what happens with duplicate (method, path) registrations. The route table is an ordered sequence and nothing is claimed about how it resolves.
- The streaming and body copying of `httputil.ReverseProxy` are left out, as are hop-by-hop header removal and its own `X-Forwarded-For`. Only the `Director` rewrite and the request copy it acts on are modelled.
- Header keys are taken to be already canonical; `http.CanonicalHeaderKey` is not modelled. URLs are records with parsed fields, and `url.Parse` of the permission address is not modelled.
- The tracer's header encoding is left out. `opentracing` injection is recorded as the span context written into the request. The go-kit `TraceClient` and `ContextToHTTP` decorators around the authorization client are left out, since they add spans and headers that no decision depends on.
- Endpoints.CallAuthEndpoint: the HTTP status of the authorization reply is not inspected, as in the go-kit client the gateway uses.
- Request matching is left out, so the health check is shown to be in the route table and to answer 200, not to be the route gin picks. A configured endpoint on `GET /health-check` would be a duplicate registration.
- The internals of the CORS and size-limit middlewares are left out. Each is an entry in the chain whose decision is a parameter of `RunChain`.
- Real time is left out. The 5-second shutdown deadline and the "5s"/"3s" check strings are constants. Clocks, forced connection termination and the `errgroup` goroutine are not modelled.
- What the logger writes is left out. The logger is only a setting.
- The swagger file read, the UUID generation, the Consul API client creation, and the agent's and server's answers are parameters of the methods that use them.
- `cmd/gateway/main.go` is not part of this model: flag parsing, signal handling, notifications and tracer set-up are process wiring.
- The `Load` function of `internal/config/cfg.go` is not part of this model: it reads files and the environment. The configuration records keep only the fields the core reads.
- The JSON encoder's `\b` and `\f` are written as `\u0008` and `\u000c`. Surrogate pairs in `\u` escapes are refused rather than combined. Unicode case folding of JSON keys is reduced to ASCII.
- Numbers.Atoi: the quoting of the input inside the error text is simplified to plain double quotes.
- Lifecycle.App.Run: the chain and routes of the built server are stated on `BuildServer`, which `Run` calls first. `Run` itself states only the server's address.
- Lifecycle.App.Stop: requires that `Run` has made the registry handle and the server, as the Go code does by dereferencing both.
- Endpoints.ServeProxy: the backend's response and the copying of it back to the client are not modelled.
