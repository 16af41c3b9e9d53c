/** This instance's entry in the Consul service registry
    (internal/infrastructure/consul/service.go). */
module Consul {
  import opened Errors
  import opened Configuration
  import opened Numbers

  /** The first index of `c` in `s`, or -1. */
  function IndexOfChar(s: string, c: char): (i: int)
    ensures -1 <= i < |s|
    ensures i >= 0 ==> s[i] == c && forall k :: 0 <= k < i ==> s[k] != c
    ensures i < 0 ==> c !in s
  {
    if s == [] then -1
    else if s[0] == c then 0
    else
      var j := IndexOfChar(s[1..], c);
      if j < 0 then -1 else j + 1
  }

  /** The last index of `c` in `s`, or -1. */
  function LastIndexOfChar(s: string, c: char): (i: int)
    ensures -1 <= i < |s|
    ensures i >= 0 ==> s[i] == c && forall k :: i < k < |s| ==> s[k] != c
    ensures i < 0 ==> c !in s
  {
    if s == [] then -1
    else if s[|s| - 1] == c then |s| - 1
    else LastIndexOfChar(s[..|s| - 1], c)
  }

  /** `*net.AddrError` for the address `hostport`. */
  function AddrError(hostport: string, why: string): Error
  {
    if hostport == "" then Leaf(why) else Leaf("address " + hostport + ": " + why)
  }

  /** The final checks of `net.SplitHostPort`: no `[` from index `j` on, no `]`
      from index `k` on; the port is everything after the last colon `i`. */
  function CheckBrackets(hostport: string, host: string, j: nat, k: nat, i: nat): Result<(string, string)>
    requires j <= |hostport| && k <= |hostport| && i < |hostport|
  {
    if '[' in hostport[j..] then Fail(AddrError(hostport, "unexpected '[' in address"))
    else if ']' in hostport[k..] then Fail(AddrError(hostport, "unexpected ']' in address"))
    else Ok((host, hostport[i + 1..]))
  }

  /** `net.SplitHostPort`: splits "host:port" or "[host]:port" at the last colon. */
  function SplitHostPort(hostport: string): (r: Result<(string, string)>)
    ensures r.Ok? ==> var (host, port) := r.value;
              || hostport == host + ":" + port
              || hostport == "[" + host + "]:" + port
    ensures r.Ok? ==> ':' !in r.value.1 && '[' !in r.value.1 && ']' !in r.value.1
    ensures ':' !in hostport ==> r.Fail?
  {
    var i := LastIndexOfChar(hostport, ':');
    if i < 0 then Fail(AddrError(hostport, "missing port in address"))
    else if hostport[0] == '[' then
      var end := IndexOfChar(hostport, ']');
      if end < 0 then Fail(AddrError(hostport, "missing ']' in address"))
      else if end + 1 == |hostport| then Fail(AddrError(hostport, "missing port in address"))
      else if end + 1 != i then
        if hostport[end + 1] == ':' then Fail(AddrError(hostport, "too many colons in address"))
        else Fail(AddrError(hostport, "missing port in address"))
      else
        var r := CheckBrackets(hostport, hostport[1..end], 1, end + 1, i);
        assert r.Ok? ==> hostport == "[" + hostport[1..end] + "]:" + hostport[i + 1..];
        r
    else
      var host := hostport[..i];
      if ':' in host then Fail(AddrError(hostport, "too many colons in address"))
      else
        var r := CheckBrackets(hostport, host, 0, 0, i);
        assert r.Ok? ==> hostport == host + ":" + hostport[i + 1..];
        r
  }

  /** `net.JoinHostPort`: brackets a host that contains a colon. */
  function JoinHostPort(host: string, port: string): string
  {
    if ':' in host then "[" + host + "]:" + port else host + ":" + port
  }

  /** In a plain "host:port" the last colon is the one after the host. */
  lemma SplitPlain(host: string, port: string)
    requires ':' !in host && '[' !in host && ']' !in host
    requires '[' !in port && ']' !in port && ':' !in port
    ensures SplitHostPort(host + ":" + port) == Ok((host, port))
  {
    var s := host + ":" + port;
    var n := |host|;
    assert s[n] == ':';
    assert forall k :: n < k < |s| ==> s[k] == port[k - n - 1];
    var i := LastIndexOfChar(s, ':');
    assert i == n;
    assert s[..n] == host;
    assert s[n + 1..] == port;
    assert s[0] != '[' by {
      if n > 0 { assert s[0] == host[0]; }
    }
    assert '[' !in s && ']' !in s;
    assert s[0..] == s;
  }

  /** Where the separators of "[host]:port" are. */
  lemma BracketedLayout(host: string, port: string)
    requires '[' !in host && ']' !in host
    requires ':' !in port
    ensures var s := "[" + host + "]:" + port;
            && s[0] == '['
            && IndexOfChar(s, ']') == |host| + 1
            && LastIndexOfChar(s, ':') == |host| + 2
  {
    var s := "[" + host + "]:" + port;
    var n := |host|;
    assert s[n + 1] == ']' && s[n + 2] == ':';
    assert forall k :: n + 2 < k < |s| ==> s[k] == port[k - n - 3];
    assert forall k :: 1 <= k < n + 1 ==> s[k] == host[k - 1];
  }

  /** In "[host]:port" the closing bracket is the first one, right before the last colon. */
  lemma SplitBracketed(host: string, port: string)
    requires '[' !in host && ']' !in host
    requires '[' !in port && ']' !in port && ':' !in port
    ensures SplitHostPort("[" + host + "]:" + port) == Ok((host, port))
  {
    var s := "[" + host + "]:" + port;
    var n := |host|;
    BracketedLayout(host, port);
    assert s[1..n + 1] == host;
    assert s[n + 3..] == port;
    assert s[1..] == host + "]:" + port;
    assert '[' !in s[1..];
    assert s[n + 2..] == ":" + port;
    assert ']' !in s[n + 2..];
  }

  /** Splitting undoes joining, for hosts and ports without brackets and ports without colons. */
  lemma SplitJoin(host: string, port: string)
    requires '[' !in host && ']' !in host
    requires '[' !in port && ']' !in port && ':' !in port
    ensures SplitHostPort(JoinHostPort(host, port)) == Ok((host, port))
  {
    if ':' in host {
      SplitBracketed(host, port);
    } else {
      SplitPlain(host, port);
    }
  }

  const CheckInterval: string := "5s"
  const CheckTimeout: string := "3s"

  /** The health check the registry runs against this instance. */
  datatype AgentServiceCheck = AgentServiceCheck(interval: string, timeout: string, http: string)

  /** `consulapi.AgentServiceRegistration` as the gateway fills it in. */
  datatype Registration = Registration(id: string, name: string, port: int, address: string, check: AgentServiceCheck)

  /** `fmt.Sprintf("http://%s:%d/health-check", host, port)`. */
  function HealthCheckURL(host: string, port: int): string
  {
    "http://" + host + ":" + Itoa(port) + "/health-check"
  }

  /** The check URL is the scheme, then host, colon and `%d` port, then the health-check path. */
  lemma HealthCheckUrlLayout(host: string, port: int)
    ensures var url := HealthCheckURL(host, port);
            && |url| == 7 + |host| + 1 + |Itoa(port)| + 13
            && url[..7] == "http://" && url[|url| - 13..] == "/health-check"
            && url[7..|url| - 13] == host + ":" + Itoa(port)
  {
    var url := HealthCheckURL(host, port);
    var authority := host + ":" + Itoa(port);
    assert url == "http://" + authority + "/health-check";
  }

  /** The record `Register` sends, or the parse error that stops it before any registry call. */
  function BuildRegistration(cfg: ConsulConfig, serviceID: string): (r: Result<Registration>)
    ensures SplitHostPort(cfg.agentAddr).Fail? ==>
              r == Fail(Wrapped("parse consul agent addr", SplitHostPort(cfg.agentAddr).error))
    ensures SplitHostPort(cfg.agentAddr).Ok? && Atoi(SplitHostPort(cfg.agentAddr).value.1).Fail? ==>
              r == Fail(Wrapped("parse consul agent port", Atoi(SplitHostPort(cfg.agentAddr).value.1).error))
    ensures r.Ok? <==> SplitHostPort(cfg.agentAddr).Ok? && Atoi(SplitHostPort(cfg.agentAddr).value.1).Ok?
    ensures r.Ok? ==>
              && r.value.id == serviceID
              && r.value.name == cfg.serviceFamilyName
              && SplitHostPort(cfg.agentAddr).value.0 == r.value.address
              && Atoi(SplitHostPort(cfg.agentAddr).value.1) == Ok(r.value.port)
              && r.value.check.interval == CheckInterval
              && r.value.check.timeout == CheckTimeout
              && r.value.check.http == HealthCheckURL(r.value.address, r.value.port)
  {
    match SplitHostPort(cfg.agentAddr)
    case Fail(e) => Fail(Wrapped("parse consul agent addr", e))
    case Ok((host, port)) =>
      match Atoi(port)
      case Fail(e) => Fail(Wrapped("parse consul agent port", e))
      case Ok(p) =>
        Ok(Registration(serviceID, cfg.serviceFamilyName, p, host,
                        AgentServiceCheck(CheckInterval, CheckTimeout, HealthCheckURL(host, p))))
  }

  /** `%d` writes neither brackets nor colons. */
  lemma ItoaHasNoSeparators(n: int)
    ensures '[' !in Itoa(n) && ']' !in Itoa(n) && ':' !in Itoa(n)
  {
    var digits := Itoa(n);
    assert forall k :: 0 <= k < |digits| ==> digits[k] == '-' || IsDigit(digits[k]);
  }

  /** Once the agent address splits and its port reads as `port`, the record is built with them. */
  lemma RegistrationFromParts(cfg: ConsulConfig, serviceID: string, host: string, port: int)
    requires SplitHostPort(cfg.agentAddr) == Ok((host, Itoa(port)))
    requires MinInt64 <= port <= MaxInt64
    ensures BuildRegistration(cfg, serviceID).Ok?
    ensures BuildRegistration(cfg, serviceID).value.address == host
    ensures BuildRegistration(cfg, serviceID).value.port == port
    ensures BuildRegistration(cfg, serviceID).value.check.http == HealthCheckURL(host, port)
  {
    AtoiItoa(port);
  }

  /** For a plain "host:port" agent address with a 64-bit port number, the
      registry is told to poll the same host and port at the health-check
      path (the port written back in canonical decimal form). */
  lemma CheckTargetsAgentAddr(cfg: ConsulConfig, serviceID: string, host: string, port: int)
    requires ':' !in host && '[' !in host && ']' !in host
    requires MinInt64 <= port <= MaxInt64
    requires cfg.agentAddr == host + ":" + Itoa(port)
    ensures BuildRegistration(cfg, serviceID).Ok?
    ensures BuildRegistration(cfg, serviceID).value.address == host
    ensures BuildRegistration(cfg, serviceID).value.port == port
    ensures BuildRegistration(cfg, serviceID).value.check.http == "http://" + cfg.agentAddr + "/health-check"
  {
    ItoaHasNoSeparators(port);
    SplitPlain(host, Itoa(port));
    RegistrationFromParts(cfg, serviceID, host, port);
    UrlOfAddr(host, Itoa(port), port);
  }

  lemma UrlOfAddr(host: string, digits: string, port: int)
    requires digits == Itoa(port)
    ensures HealthCheckURL(host, port) == "http://" + (host + ":" + digits) + "/health-check"
  {
  }

  /** A host that itself contains colons (an IPv6 address) does not survive
      being written as plain "host:port". */
  lemma PlainJoinWithColonFails(host: string, port: string)
    requires ':' in host && '[' !in host && ']' !in host
    requires ':' !in port
    ensures SplitHostPort(host + ":" + port).Fail?
  {
    var s := host + ":" + port;
    var n := |host|;
    assert s[n] == ':';
    assert forall k :: n < k < |s| ==> s[k] == port[k - n - 1];
    assert LastIndexOfChar(s, ':') == n;
    assert s[..n] == host;
    assert s[0] != '[' by {
      if n > 0 { assert s[0] == host[0]; }
    }
  }

  /** For a bracketed IPv6 agent address "[host]:port", the check URL is written
      with the bare host, so its authority "host:port" no longer splits into a
      host and a port. */
  lemma BracketedCheckUrl(cfg: ConsulConfig, serviceID: string, host: string, port: int)
    requires ':' in host && '[' !in host && ']' !in host
    requires MinInt64 <= port <= MaxInt64
    requires cfg.agentAddr == "[" + host + "]:" + Itoa(port)
    ensures BuildRegistration(cfg, serviceID).Ok?
    ensures BuildRegistration(cfg, serviceID).value.address == host
    ensures BuildRegistration(cfg, serviceID).value.check.http == "http://" + (host + ":" + Itoa(port)) + "/health-check"
    ensures SplitHostPort(host + ":" + Itoa(port)).Fail?
  {
    ItoaHasNoSeparators(port);
    SplitBracketed(host, Itoa(port));
    RegistrationFromParts(cfg, serviceID, host, port);
    UrlOfAddr(host, Itoa(port), port);
    PlainJoinWithColonFails(host, Itoa(port));
  }

  /** A call this client made to the agent. */
  datatype AgentCall = RegisterCall(registration: Registration) | DeregisterCall(id: string)

  /** A Consul API client: the calls it has made, in order, and the services
      registered through it. The agent's answer to each call is given. */
  class Client {
    const address: string
    var calls: seq<AgentCall>
    var registered: map<string, Registration>

    constructor (address: string)
      ensures this.address == address && calls == [] && registered == map[]
    {
      this.address := address;
      calls := [];
      registered := map[];
    }

    /** `Agent().ServiceRegister`: the agent accepts (`reply` is None) or rejects the registration. */
    method ServiceRegister(registration: Registration, reply: Option<Error>) returns (err: Option<Error>)
      modifies this
      ensures err == reply
      ensures calls == old(calls) + [RegisterCall(registration)]
      ensures registered == if reply.None? then old(registered)[registration.id := registration] else old(registered)
    {
      calls := calls + [RegisterCall(registration)];
      if reply.None? {
        registered := registered[registration.id := registration];
      }
      err := reply;
    }

    /** `Agent().ServiceDeregister`: the agent removes the service (`reply` is None) or fails. */
    method ServiceDeregister(id: string, reply: Option<Error>) returns (err: Option<Error>)
      modifies this
      ensures err == reply
      ensures calls == old(calls) + [DeregisterCall(id)]
      ensures registered == if reply.None? then old(registered) - {id} else old(registered)
    {
      calls := calls + [DeregisterCall(id)];
      if reply.None? {
        registered := registered - {id};
      }
      err := reply;
    }
  }

  /** What `Register` returns: the parse error, the registry's rejection
      wrapped, or nothing. */
  function RegisterError(cfg: ConsulConfig, serviceID: string, reply: Option<Error>): Option<Error>
  {
    match BuildRegistration(cfg, serviceID)
    case Fail(e) => Some(e)
    case Ok(_) => if reply.None? then None else Some(Wrapped("sign up service via consul", reply.value))
  }

  /** The registry calls `Register` makes: none when the agent address does
      not parse, else the one registration. */
  function RegisterCalls(cfg: ConsulConfig, serviceID: string): seq<AgentCall>
  {
    match BuildRegistration(cfg, serviceID)
    case Fail(_) => []
    case Ok(registration) => [RegisterCall(registration)]
  }

  /** The gateway's registry handle. Its configuration, service ID and client
      are fixed when it is made, so it deregisters the ID it registered. */
  class Service {
    const cfg: ConsulConfig
    const serviceID: string
    const client: Client

    constructor (client: Client, cfg: ConsulConfig, serviceID: string)
      ensures this.client == client && this.cfg == cfg && this.serviceID == serviceID
    {
      this.client := client;
      this.cfg := cfg;
      this.serviceID := serviceID;
    }

    /** Parses the agent address, then registers; a parse error means no registry call at all. */
    method Register(reply: Option<Error>) returns (err: Option<Error>)
      modifies client
      ensures err == RegisterError(cfg, serviceID, reply)
      ensures client.calls == old(client.calls) + RegisterCalls(cfg, serviceID)
      ensures BuildRegistration(cfg, serviceID).Fail? ==>
                && err == Some(BuildRegistration(cfg, serviceID).error)
                && client.calls == old(client.calls)
                && client.registered == old(client.registered)
      ensures BuildRegistration(cfg, serviceID).Ok? ==>
                var registration := BuildRegistration(cfg, serviceID).value;
                && err == (if reply.None? then None else Some(Wrapped("sign up service via consul", reply.value)))
                && client.calls == old(client.calls) + [RegisterCall(registration)]
                && client.registered ==
                     if reply.None? then old(client.registered)[serviceID := registration] else old(client.registered)
    {
      var built := BuildRegistration(cfg, serviceID);
      if built.Fail? {
        return Some(built.error);
      }
      var e := client.ServiceRegister(built.value, reply);
      if e.Some? {
        return Some(Wrapped("sign up service via consul", e.value));
      }
      return None;
    }

    /** Removes this instance from the registry by the ID it was made with. */
    method Deregister(reply: Option<Error>) returns (err: Option<Error>)
      modifies client
      ensures err == (if reply.None? then None else Some(Wrapped("deregister service in consul", reply.value)))
      ensures client.calls == old(client.calls) + [DeregisterCall(serviceID)]
      ensures client.registered == if reply.None? then old(client.registered) - {serviceID} else old(client.registered)
    {
      var e := client.ServiceDeregister(serviceID, reply);
      if e.Some? {
        return Some(Wrapped("deregister service in consul", e.value));
      }
      return None;
    }
  }
}
