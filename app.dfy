/** The application object: its construction from options, the startup
    sequence and the shutdown sequence (internal/app/app.go). */
module Lifecycle {
  import opened Errors
  import opened Configuration
  import opened Consul
  import opened Server

  /** The deadline given to the HTTP server's graceful shutdown. */
  const ShutdownTimeoutSeconds: nat := 5

  /** The error `ListenAndServe` returns after a graceful shutdown. */
  const ErrServerClosed: Error := Leaf("http: Server closed")

  /** The structured logger the application is given; what it logs is not modelled. */
  datatype Logger = NopLogger | NamedLogger(name: string)

  datatype AppOption = WithLogger(logger: Logger) | WithServiceID(id: string)

  /** The settings options can change. */
  datatype Settings = Settings(svcID: string, logger: Logger)

  function Apply(opt: AppOption, s: Settings): Settings
  {
    match opt
    case WithLogger(l) => s.(logger := l)
    case WithServiceID(id) => s.(svcID := id)
  }

  /** The settings after applying the options in order. */
  function ApplyAll(opts: seq<AppOption>, s: Settings): Settings
  {
    if opts == [] then s else Apply(opts[|opts| - 1], ApplyAll(opts[..|opts| - 1], s))
  }

  /** The last `WithServiceID` decides the service ID, whatever came before it. */
  lemma {:induction false} LastServiceIdWins(opts: seq<AppOption>, s: Settings, k: nat)
    requires k < |opts| && opts[k].WithServiceID?
    requires forall m :: k < m < |opts| ==> !opts[m].WithServiceID?
    ensures ApplyAll(opts, s).svcID == opts[k].id
    decreases |opts|
  {
    var n := |opts| - 1;
    if k < n {
      var init := opts[..n];
      assert forall m :: k < m < |init| ==> init[m] == opts[m];
      LastServiceIdWins(init, s, k);
    }
  }

  /** Without a `WithServiceID` option the service ID is the generated default. */
  lemma {:induction false} DefaultServiceIdKept(opts: seq<AppOption>, s: Settings)
    requires forall m :: 0 <= m < |opts| ==> !opts[m].WithServiceID?
    ensures ApplyAll(opts, s).svcID == s.svcID
    decreases |opts|
  {
    if opts != [] {
      var n := |opts| - 1;
      assert forall m :: 0 <= m < n ==> opts[..n][m] == opts[m];
      DefaultServiceIdKept(opts[..n], s);
    }
  }

  /** The steps of the lifecycle, as they are attempted. */
  datatype Event =
    | ServerBuilt(addr: string)
    | ClientCreated(registryAddr: string)
    | RegisterService(id: string, ok: bool)
    | Serve(addr: string)
    | DeregisterService(id: string, ok: bool)
    | Shutdown(timeoutSeconds: nat)

  /** The ordering the lifecycle keeps: the server serves only after this
      instance was registered under `id`, and is shut down only after it was
      deregistered under `id`. Stated step by step: each step's
      prerequisite is among the steps before it. */
  predicate Ordered(events: seq<Event>, id: string)
    decreases |events|
  {
    if events == [] then true
    else
      var n := |events| - 1;
      && Ordered(events[..n], id)
      && (events[n].Serve? ==> RegisterService(id, true) in events[..n])
      && (events[n].Shutdown? ==> DeregisterService(id, true) in events[..n])
  }

  /** An ordered log, read position by position. */
  lemma {:induction false} OrderedMeans(events: seq<Event>, id: string, i: nat)
    requires Ordered(events, id) && i < |events|
    ensures events[i].Serve? ==> RegisterService(id, true) in events[..i]
    ensures events[i].Shutdown? ==> DeregisterService(id, true) in events[..i]
    decreases |events|
  {
    var n := |events| - 1;
    if i < n {
      OrderedMeans(events[..n], id, i);
      assert events[..n][..i] == events[..i];
    }
  }

  /** A log with neither serving nor shutting down is trivially ordered. */
  lemma {:induction false} QuietStepsOrdered(events: seq<Event>, id: string)
    requires forall i :: 0 <= i < |events| ==> !events[i].Serve? && !events[i].Shutdown?
    ensures Ordered(events, id)
    decreases |events|
  {
    if events != [] {
      QuietStepsOrdered(events[..|events| - 1], id);
    }
  }

  /** Appending an ordered log to an ordered log keeps the order. */
  lemma {:induction false} OrderedAppend(a: seq<Event>, b: seq<Event>, id: string)
    requires Ordered(a, id) && Ordered(b, id)
    ensures Ordered(a + b, id)
    decreases |b|
  {
    if b == [] {
      assert a + b == a;
    } else {
      var n := |b| - 1;
      OrderedAppend(a, b[..n], id);
      var ab := a + b;
      assert ab[..|ab| - 1] == a + b[..n];
      assert ab[|ab| - 1] == b[n];
      if b[n].Serve? {
        var k :| 0 <= k < n && b[..n][k] == RegisterService(id, true);
        assert (a + b[..n])[|a| + k] == b[..n][k];
      }
      if b[n].Shutdown? {
        var k :| 0 <= k < n && b[..n][k] == DeregisterService(id, true);
        assert (a + b[..n])[|a| + k] == b[..n][k];
      }
    }
  }

  /** What the serve goroutine reports: a graceful close is success, any
      other error is wrapped. */
  function ServeError(serveResult: Option<Error>): (err: Option<Error>)
    ensures err.None? <==> serveResult.None? || serveResult == Some(ErrServerClosed)
    ensures err.Some? ==> err == Some(Wrapped("http serve error", serveResult.value))
  {
    if serveResult.None? || serveResult == Some(ErrServerClosed) then None
    else Some(Wrapped("http serve error", serveResult.value))
  }

  /** The last steps of `Run`: the registration, then serving only if it
      succeeded; `registerErr` is what `Register` returned. */
  function RegisterOutcome(cfg: Config, svcID: string, registerErr: Option<Error>, serveResult: Option<Error>): (seq<Event>, Option<Error>)
  {
    if registerErr.Some? then ([RegisterService(svcID, false)], registerErr)
    else ([RegisterService(svcID, true), Serve(cfg.addr)], ServeError(serveResult))
  }

  /** The steps of `Run` after the server is built: the registry client,
      then the registration and serving. */
  function ConnectOutcome(cfg: Config, svcID: string, clientErr: Option<Error>, registerErr: Option<Error>,
                          serveResult: Option<Error>): (seq<Event>, Option<Error>)
  {
    if clientErr.Some? then ([], Some(Wrapped("create consul client", clientErr.value)))
    else
      var (steps, err) := RegisterOutcome(cfg, svcID, registerErr, serveResult);
      ([ClientCreated(cfg.consul.addr)] + steps, err)
  }

  /** `Run`: the steps it takes and the error it returns, given the outcome
      of creating the registry client, the error `Register` returns and the
      result of serving. */
  function RunOutcome(cfg: Config, svcID: string, clientErr: Option<Error>, registerErr: Option<Error>,
                      serveResult: Option<Error>): (seq<Event>, Option<Error>)
  {
    var (steps, err) := ConnectOutcome(cfg, svcID, clientErr, registerErr, serveResult);
    ([ServerBuilt(cfg.addr)] + steps, err)
  }

  /** `Run` serves exactly when the registry client was created and the
      registration succeeded, and only after that registration. */
  lemma RunServesOnlyWhenRegistered(cfg: Config, svcID: string, clientErr: Option<Error>,
                                    registerErr: Option<Error>, serveResult: Option<Error>)
    ensures var (events, _) := RunOutcome(cfg, svcID, clientErr, registerErr, serveResult);
            && Ordered(events, svcID)
            && ((exists i :: 0 <= i < |events| && events[i].Serve?) <==>
                  clientErr.None? && registerErr.None?)
  {
    var (events, _) := RunOutcome(cfg, svcID, clientErr, registerErr, serveResult);
    if clientErr.None? && registerErr.None? {
      var setup := [ServerBuilt(cfg.addr), ClientCreated(cfg.consul.addr), RegisterService(svcID, true)];
      QuietStepsOrdered(setup, svcID);
      assert events == setup + [Serve(cfg.addr)];
      assert events[..3] == setup;
      assert setup[2] == RegisterService(svcID, true);
    } else {
      QuietStepsOrdered(events, svcID);
    }
  }

  /** `Run`'s error: the client creation error wrapped, else the
      registration error as it is, else the serve error (a graceful close
      being none). */
  lemma RunErrors(cfg: Config, svcID: string, clientErr: Option<Error>, registerErr: Option<Error>,
                  serveResult: Option<Error>)
    ensures var (_, err) := RunOutcome(cfg, svcID, clientErr, registerErr, serveResult);
            && (clientErr.Some? ==> err == Some(Wrapped("create consul client", clientErr.value)))
            && (clientErr.None? && registerErr.Some? ==>
                  err == registerErr)
            && (clientErr.None? && registerErr.None? ==>
                  (err.None? <==> serveResult.None? || serveResult == Some(ErrServerClosed)))
            && (clientErr.None? && registerErr.None? && serveResult.Some? && serveResult != Some(ErrServerClosed) ==>
                  err == Some(Wrapped("http serve error", serveResult.value)))
  {
  }

  /** `Stop`: deregister, and only if that succeeded, shut the server down
      under the deadline. */
  function StopOutcome(svcID: string, deregisterReply: Option<Error>, shutdownErr: Option<Error>): (seq<Event>, Option<Error>)
  {
    if deregisterReply.Some? then
      ([DeregisterService(svcID, false)], Some(Wrapped("deregister service in consul", deregisterReply.value)))
    else
      ([DeregisterService(svcID, true), Shutdown(ShutdownTimeoutSeconds)],
       if shutdownErr.Some? then Some(Wrapped("http closing error", shutdownErr.value)) else None)
  }

  /** `Stop` shuts down only after deregistering, never when deregistration
      failed, and always under the five-second deadline. */
  lemma StopShutsDownOnlyWhenDeregistered(svcID: string, deregisterReply: Option<Error>, shutdownErr: Option<Error>)
    ensures var (events, _) := StopOutcome(svcID, deregisterReply, shutdownErr);
            && Ordered(events, svcID)
            && ((exists i :: 0 <= i < |events| && events[i].Shutdown?) <==> deregisterReply.None?)
            && forall i :: 0 <= i < |events| && events[i].Shutdown? ==> events[i].timeoutSeconds == 5
  {
    var (events, _) := StopOutcome(svcID, deregisterReply, shutdownErr);
    if deregisterReply.None? {
      QuietStepsOrdered([DeregisterService(svcID, true)], svcID);
      assert events[..1] == [DeregisterService(svcID, true)];
    } else {
      QuietStepsOrdered(events, svcID);
    }
  }

  /** The application. `events` logs the lifecycle steps; `consulSvc` and
      `httpSrv` are set by `Run` and used by `Stop`. */
  class App {
    const cfg: Config
    var svcID: string
    var logger: Logger
    var consulSvc: Service?
    var httpSrv: HttpServer?
    var events: seq<Event>

    /** The registry handle, once made, registers this application's ID
        with its registry configuration, and the log is ordered. */
    ghost predicate Valid()
      reads this
    {
      && (consulSvc != null ==> consulSvc.serviceID == svcID && consulSvc.cfg == cfg.consul)
      && Ordered(events, svcID)
    }

    /** `New`: a generated service ID and a no-op logger, then the options in order. */
    constructor (cfg: Config, generatedID: string, opts: seq<AppOption>)
      ensures Valid()
      ensures Settings(svcID, logger) == ApplyAll(opts, Settings(generatedID, NopLogger))
      ensures this.cfg == cfg && consulSvc == null && httpSrv == null && events == []
    {
      this.cfg := cfg;
      svcID := generatedID;
      logger := NopLogger;
      consulSvc := null;
      httpSrv := null;
      events := [];
      new;
      var i := 0;
      while i < |opts|
        invariant 0 <= i <= |opts|
        invariant Settings(svcID, logger) == ApplyAll(opts[..i], Settings(generatedID, NopLogger))
        invariant consulSvc == null && httpSrv == null && events == []
      {
        match opts[i] {
          case WithLogger(l) => logger := l;
          case WithServiceID(id) => svcID := id;
        }
        assert opts[..i + 1][..i] == opts[..i];
        i := i + 1;
      }
      assert opts[..i] == opts;
    }

    /** Appends steps to the log; ordered steps keep the log ordered. */
    method Record(more: seq<Event>)
      requires Valid() && Ordered(more, svcID)
      modifies this
      ensures Valid()
      ensures events == old(events) + more
      ensures svcID == old(svcID) && logger == old(logger) && consulSvc == old(consulSvc) && httpSrv == old(httpSrv)
    {
      OrderedAppend(events, more, svcID);
      events := events + more;
    }

    /** `consulSvc.Register()`, seen through the error it returns and the
        registry calls it makes. */
    static method RegisterWith(svc: Service, reply: Option<Error>) returns (err: Option<Error>)
      modifies svc.client
      ensures err == RegisterError(svc.cfg, svc.serviceID, reply)
      ensures svc.client.calls == old(svc.client.calls) + RegisterCalls(svc.cfg, svc.serviceID)
    {
      err := svc.Register(reply);
    }

    /** `initConsul`: a client for the registry at `addr`, or the creation error wrapped. */
    static method InitConsul(addr: string, clientErr: Option<Error>) returns (client: Client?, err: Option<Error>)
      ensures clientErr.Some? ==> client == null && err == Some(Wrapped("create consul client", clientErr.value))
      ensures clientErr.None? ==> client != null && fresh(client) && err == None
      ensures clientErr.None? ==> client.address == addr && client.calls == [] && client.registered == map[]
    {
      if clientErr.Some? {
        return null, Some(Wrapped("create consul client", clientErr.value));
      }
      client := new Client(addr);
      err := None;
    }

    /** The first step of `Run`: the HTTP server is built and kept. */
    method BuildServer()
      requires Valid()
      modifies this
      ensures Valid()
      ensures svcID == old(svcID) && logger == old(logger) && consulSvc == old(consulSvc)
      ensures events == old(events) + [ServerBuilt(cfg.addr)]
      ensures httpSrv != null && fresh(httpSrv) && fresh(httpSrv.router)
      ensures httpSrv.addr == cfg.addr && httpSrv.router.middlewares == Chain(cfg)
      ensures httpSrv.router.routes == ProxyRoutes(cfg.proxyServices) + FixedRoutes()
    {
      var srv := NewHTTPServer(cfg);
      httpSrv := srv;
      Record([ServerBuilt(cfg.addr)]);
    }

    /** `Run`: build the server, create the registry client, register, serve. */
    method Run(clientErr: Option<Error>, registerReply: Option<Error>, serveResult: Option<Error>) returns (err: Option<Error>)
      requires Valid()
      modifies this
      ensures Valid()
      ensures svcID == old(svcID) && logger == old(logger)
      ensures events == old(events) + RunOutcome(cfg, svcID, clientErr, RegisterError(cfg.consul, svcID, registerReply), serveResult).0
      ensures err == RunOutcome(cfg, svcID, clientErr, RegisterError(cfg.consul, svcID, registerReply), serveResult).1
      ensures httpSrv != null && fresh(httpSrv) && httpSrv.addr == cfg.addr
      ensures clientErr.Some? ==> consulSvc == old(consulSvc)
      ensures clientErr.None? ==>
                && consulSvc != null && fresh(consulSvc) && fresh(consulSvc.client)
                && consulSvc.client.address == cfg.consul.addr
                && consulSvc.client.calls == RegisterCalls(cfg.consul, svcID)
    {
      ghost var before := events;
      ghost var connected := ConnectOutcome(cfg, svcID, clientErr, RegisterError(cfg.consul, svcID, registerReply), serveResult);
      BuildServer();
      err := Connect(clientErr, registerReply, serveResult);
      assert events == before + ([ServerBuilt(cfg.addr)] + connected.0);
    }

    /** `Run` after the server is built: create the registry client, then
        register and serve. */
    method Connect(clientErr: Option<Error>, registerReply: Option<Error>, serveResult: Option<Error>) returns (err: Option<Error>)
      requires Valid()
      modifies this
      ensures Valid()
      ensures svcID == old(svcID) && logger == old(logger) && httpSrv == old(httpSrv)
      ensures events == old(events) + ConnectOutcome(cfg, svcID, clientErr, RegisterError(cfg.consul, svcID, registerReply), serveResult).0
      ensures err == ConnectOutcome(cfg, svcID, clientErr, RegisterError(cfg.consul, svcID, registerReply), serveResult).1
      ensures clientErr.Some? ==> consulSvc == old(consulSvc)
      ensures clientErr.None? ==>
                && consulSvc != null && fresh(consulSvc) && fresh(consulSvc.client)
                && consulSvc.client.address == cfg.consul.addr
                && consulSvc.client.calls == RegisterCalls(cfg.consul, svcID)
    {
      var client, e := InitConsul(cfg.consul.addr, clientErr);
      if e.Some? {
        return e;
      }
      Record([ClientCreated(cfg.consul.addr)]);
      err := RegisterAndServe(client, registerReply, serveResult);
    }

    /** The last steps of `Run`: make the registry handle, register, and
        serve only if the registration succeeded. */
    method RegisterAndServe(client: Client, registerReply: Option<Error>, serveResult: Option<Error>) returns (err: Option<Error>)
      requires Valid()
      requires client.address == cfg.consul.addr && client.calls == []
      modifies this, client
      ensures Valid()
      ensures svcID == old(svcID) && logger == old(logger) && httpSrv == old(httpSrv)
      ensures consulSvc != null && fresh(consulSvc) && consulSvc.client == client
      ensures client.calls == RegisterCalls(cfg.consul, svcID)
      ensures events == old(events) + RegisterOutcome(cfg, svcID, RegisterError(cfg.consul, svcID, registerReply), serveResult).0
      ensures err == RegisterOutcome(cfg, svcID, RegisterError(cfg.consul, svcID, registerReply), serveResult).1
    {
      var svc := new Service(client, cfg.consul, svcID);
      consulSvc := svc;

      ghost var calls := RegisterCalls(cfg.consul, svcID);
      var e := RegisterWith(svc, registerReply);
      assert client.calls == [] + calls;
      if e.Some? {
        Record([RegisterService(svcID, false)]);
        return e;
      }
      var started := [RegisterService(svcID, true), Serve(cfg.addr)];
      assert started[..1] == [RegisterService(svcID, true)];
      Record(started);
      err := ServeError(serveResult);
    }

    /** `Stop`: deregister, then shut the server down under the deadline;
        a failed deregistration returns at once. */
    method Stop(deregisterReply: Option<Error>, shutdownErr: Option<Error>) returns (err: Option<Error>)
      requires Valid()
      requires consulSvc != null && httpSrv != null
      modifies this, consulSvc.client
      ensures Valid()
      ensures svcID == old(svcID) && consulSvc == old(consulSvc) && httpSrv == old(httpSrv)
      ensures events == old(events) + StopOutcome(svcID, deregisterReply, shutdownErr).0
      ensures err == StopOutcome(svcID, deregisterReply, shutdownErr).1
      ensures consulSvc.client.calls == old(consulSvc.client.calls) + [DeregisterCall(svcID)]
      ensures consulSvc.client.registered ==
                if deregisterReply.None? then old(consulSvc.client.registered) - {svcID} else old(consulSvc.client.registered)
    {
      var e := consulSvc.Deregister(deregisterReply);
      if e.Some? {
        Record([DeregisterService(svcID, false)]);
        return e;
      }
      var stopped := [DeregisterService(svcID, true), Shutdown(ShutdownTimeoutSeconds)];
      assert stopped[1].Shutdown? && stopped[0] == DeregisterService(svcID, true);
      Record(stopped);
      if shutdownErr.Some? {
        return Some(Wrapped("http closing error", shutdownErr.value));
      }
      err := None;
    }
  }
}
