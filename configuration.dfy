/** The configuration records the core reads (internal/config/cfg.go), as values.
    Loading them from file and environment is not part of this model. */
module Configuration {

  /** One proxied route: a path template and the HTTP method string as configured. */
  datatype EndpointsConfig = EndpointsConfig(uri: string, httpMethod: string)

  /** One backend: its host:port and the routes forwarded to it. */
  datatype ServicesConfig = ServicesConfig(addr: string, endpoints: seq<EndpointsConfig>)

  /** Where the registry lives, the address this instance announces, and the service name. */
  datatype ConsulConfig = ConsulConfig(addr: string, agentAddr: string, serviceFamilyName: string)

  datatype Config = Config(
    addr: string,
    permissionAddr: string,
    proxyServices: seq<ServicesConfig>,
    consul: ConsulConfig,
    swaggerBaseURL: string)
}
