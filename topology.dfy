/**
 * The entities of one snapshot of the reverse proxy's HTTP API, as the topology view
 * reads them. A JavaScript falsy string field (missing, `null` or `""`) is the empty
 * string here; a missing list is `None`, since an empty array is truthy in JavaScript.
 */
module Topology {
  import opened Wrappers
  import opened Dicts

  /** One backend server of a load balancer; its address is its only identity. */
  datatype Server = Server(address: string)

  /**
   * A service. `servers` is `loadBalancer.servers` (`None` when `loadBalancer` or its
   * `servers` list is missing); `serverStatus` maps a server address to its status.
   */
  datatype Service = Service(
    name: string,
    provider: string,
    kind: string,
    servers: Option<seq<Server>>,
    serverStatus: map<string, string>)

  /** A router. `service` is the empty string when the router names no service. */
  datatype Router = Router(
    name: string,
    provider: string,
    rule: string,
    entryPoints: Option<seq<string>>,
    service: string,
    middlewares: Option<seq<string>>)

  /** An entrypoint; `protocol` is `transport.protocol`. */
  datatype Entrypoint = Entrypoint(address: string, protocol: string)

  /**
   * A middleware: its `type`, `stripPrefix.prefixes` when present, and whether its
   * `headers` carry custom request or response headers.
   */
  datatype Middleware = Middleware(kind: string, stripPrefixes: Option<seq<string>>, customHeaders: bool)

  /** A TLS certificate: `main`, `domains.main`, `sans` and `domains.sans`. */
  datatype Certificate = Certificate(
    main: string,
    domainsMain: string,
    sans: Option<seq<string>>,
    domainsSans: Option<seq<string>>)

  /**
   * What the view receives: the five collections (each possibly absent), the overview's
   * `version` and the search query.
   */
  datatype Snapshot = Snapshot(
    routers: Option<Object<Router>>,
    services: Option<Object<Service>>,
    overviewVersion: string,
    entrypoints: Option<Object<Entrypoint>>,
    middlewares: Option<Object<Middleware>>,
    tlsCertificates: Option<seq<Certificate>>,
    searchQuery: string)

  /** The five collections the view is built from, each defaulted to empty when absent. */
  datatype Collections = Collections(
    routers: Object<Router>,
    services: Object<Service>,
    entrypoints: Object<Entrypoint>,
    middlewares: Object<Middleware>,
    certificates: seq<Certificate>)

  const LoadBalancer := "loadbalancer"

  /** `${router.name}@${router.provider}` */
  function RouterKey(r: Router): string {
    r.name + "@" + r.provider
  }

  /** `${service.name}@${service.provider}` */
  function ServiceKey(s: Service): string {
    s.name + "@" + s.provider
  }

  /** `${router.service}@${router.provider}` when the router names a service. */
  function ServiceRef(r: Router): (k: Option<string>)
    ensures k.Some? <==> r.service != ""
  {
    if r.service == "" then None else Some(r.service + "@" + r.provider)
  }

  /** A collection keyed the way the proxy's API keys it: by `name@provider`. */
  ghost predicate KeyedByIdentity(services: Object<Service>) {
    forall k :: k in services.entries ==> ServiceKey(services.entries[k]) == k
  }

  ghost predicate RoutersKeyedByIdentity(routers: Object<Router>) {
    forall k :: k in routers.entries ==> RouterKey(routers.entries[k]) == k
  }
}
