/** The values shared by every devmesh component: service records, registration
    requests, lease entries and the daemon's error codes. */
module Types {
  datatype Option<+T> = None | Some(value: T)

  datatype Result<+T, +E> = Ok(value: T) | Err(error: E)

  type Name = string
  type Id = string

  datatype Kind = TCP | HTTP

  /** The three sources the HTTP handlers and the Docker callbacks can produce. */
  datatype Source = Process | Manual | Docker

  datatype Status = Ready | Unavailable

  datatype Backend = Backend(host: string, port: int)

  /** A TCP service is reached on a port of the configured host, an HTTP service
      through a URL; `port == 0` in a URL is the scheme's default port. */
  datatype Frontend =
    | Port(port: int)
    | Url(scheme: string, host: string, urlPort: int)

  datatype Record = Record(
    name: Name,
    kind: Kind,
    appProtocol: string,
    ownerKey: string,
    producerID: Id,
    source: Source,
    backend: Option<Backend>,
    frontend: Frontend,
    hostname: string,
    status: Status)

  type Services = map<Name, Record>

  /** A registration request. `loopback` is the outcome of resolving the backend
      host; an empty `kind` means TCP and an empty `ownerKey` a key of its own. */
  datatype Request = Request(
    name: Name,
    kind: string,
    appProtocol: string,
    backend: Backend,
    loopback: bool,
    preferred: int,
    ttlSeconds: int,
    source: Source,
    ownerKey: string,
    containerID: Id,
    httpHost: string)

  datatype ErrorCode =
    | InvalidName | UnsupportedKind | InvalidBackend | InvalidRequest
    | NameConflict | PortExhausted | Internal

  /** `ttl` is the configured default lease in nanoseconds; `hash` stands for the
      32-bit FNV hash of a service name. */
  datatype Config = Config(
    ttl: int,
    minPort: int,
    maxPort: int,
    scheme: string,
    httpPort: int,
    hash: string -> nat)

  const SECOND: int := 1_000_000_000
  const MIN_TTL: int := 3 * SECOND
  const MAX_TTL: int := 3600 * SECOND

  /** What configuration validation establishes before a daemon is built. */
  ghost predicate ValidConfig(c: Config) {
    1 <= c.minPort <= c.maxPort <= 65535 && MIN_TTL <= c.ttl <= MAX_TTL
  }

  /** Any range of TCP ports and any default lease from three seconds to an hour will do. */
  lemma ValidConfigIff(c: Config)
    ensures ValidConfig(c) <==>
      1 <= c.minPort && c.minPort <= c.maxPort && c.maxPort <= 65535 && 3_000_000_000 <= c.ttl <= 3_600_000_000_000
  {}
}
