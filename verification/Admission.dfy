/** The checks internal/daemon/daemon.go registerLocked makes, in its order, before
    it changes anything, and the effective lease duration they accept. */
module Admission {
  import opened Types
  import opened Registry
  import opened Hosts

  // ----- Validation -----

  predicate Alnum(c: char) { 'a' <= c <= 'z' || '0' <= c <= '9' }

  /** Dot-separated labels of [a-z0-9-], each starting with a letter or digit. */
  predicate ValidName(s: string) {
    && 0 < |s| <= 120 && Alnum(s[0])
    && (forall i :: 0 <= i < |s| ==> Alnum(s[i]) || s[i] == '-' || s[i] == '.')
    && (forall i :: 0 <= i < |s| && s[i] == '.' ==> i + 1 < |s| && Alnum(s[i + 1]))
  }

  predicate ValidBackend(b: Backend, loopback: bool) {
    1 <= b.port <= 65535 && TrimSpace(b.host) != "" && loopback
  }

  function ParseKind(s: string): Option<Kind> {
    if s == "" || s == "tcp" then Some(TCP) else if s == "http" then Some(HTTP) else None
  }

  function SourceName(s: Source): string {
    match s case Process => "process" case Manual => "manual" case Docker => "docker"
  }

  // ----- Lease duration: Go multiplies in 64 bits -----

  const TWO63: int := 0x8000_0000_0000_0000
  const TWO64: int := 0x1_0000_0000_0000_0000

  /** Two's complement truncation of an exact product to int64. */
  function Wrap64(x: int): (r: int)
    ensures -TWO63 <= r < TWO63
    ensures (x - r) % TWO64 == 0
  {
    (x + TWO63) % TWO64 - TWO63
  }

  function EffectiveTTL(c: Config, q: Request): int {
    if q.source != Docker && q.ttlSeconds > 0 then Wrap64(q.ttlSeconds * SECOND) else c.ttl
  }

  predicate TTLAccepted(c: Config, q: Request) {
    q.source == Docker || MIN_TTL <= EffectiveTTL(c, q) <= MAX_TTL
  }

  // ----- Admission -----

  /** Everything the rest of a registration works from. */
  datatype Ticket = Ticket(
    name: Name, kind: Kind, hostname: string, appProtocol: string, source: Source,
    ownerKey: string, regID: Id, producerID: Id, backend: Backend, preferred: int, ttl: int)

  function OwnerKeyOf(q: Request, regID: Id): string {
    if q.ownerKey == "" then SourceName(q.source) + ":" + regID else q.ownerKey
  }

  function TicketOf(c: Config, q: Request, regID: Id, kind: Kind, hostname: string): Ticket {
    Ticket(q.name, kind, hostname, q.appProtocol, q.source, OwnerKeyOf(q, regID), regID,
           if q.source == Docker then q.containerID else regID, q.backend, q.preferred, EffectiveTTL(c, q))
  }

  /** Kind and hostname of a name are immutable, and a hostname has one owner. */
  predicate Compatible(services: Services, t: Ticket) {
    && (t.name in services ==> services[t.name].kind == t.kind)
    && (t.kind == HTTP ==>
          && (t.name in services ==> services[t.name].hostname == t.hostname)
          && !HostTaken(services, t.hostname, t.name))
  }

  function Admit(c: Config, services: Services, q: Request, regID: Id): (r: Result<Ticket, ErrorCode>) {
    if !ValidName(q.name) then Err(InvalidName) else
    var kind := ParseKind(q.kind);
    if kind == None then Err(UnsupportedKind) else
    if !ValidBackend(q.backend, q.loopback) then Err(InvalidBackend) else
    if !TTLAccepted(c, q) then Err(InvalidRequest) else
    var host := if kind.value == HTTP then CanonicalHost(q.httpHost) else Some("");
    if host == None then Err(InvalidRequest) else
    var t := TicketOf(c, q, regID, kind.value, host.value);
    if !Compatible(services, t) then Err(NameConflict) else
    if q.source == Docker && q.containerID == "" then Err(InvalidRequest) else
    if !Claimable(services, q.name, t.ownerKey) then Err(NameConflict) else
    Ok(t)
  }

  /** The record a ticket installs. */
  function RecordOf(t: Ticket, frontend: Frontend): Record {
    Record(t.name, t.kind, t.appProtocol, t.ownerKey, t.producerID, t.source,
           Some(t.backend), frontend, t.hostname, Ready)
  }

  /** The lease a same-owner replacement takes away before it installs anything. */
  predicate Retires(services: Services, t: Ticket) {
    t.name in services &&
    var existing := services[t.name];
    existing.ownerKey == t.ownerKey && existing.producerID != t.producerID && existing.source != Docker
  }

  /** The ticket carries what the request asked for, and a lease duration within bounds. */
  lemma AdmittedAsks(c: Config, services: Services, q: Request, regID: Id, t: Ticket)
    requires Admit(c, services, q, regID) == Ok(t)
    ensures t.name == q.name && t.backend == q.backend && t.source == q.source && t.regID == regID
    ensures t.preferred == q.preferred && t.appProtocol == q.appProtocol
    ensures t.producerID == if q.source == Docker then q.containerID else regID
    ensures q.ownerKey != "" ==> t.ownerKey == q.ownerKey
    ensures q.ownerKey == "" ==> t.ownerKey == match q.source
      case Process => "process:" + regID
      case Manual => "manual:" + regID
      case Docker => "docker:" + regID
    ensures t.ownerKey == OwnerKeyOf(q, regID) && t.ttl == EffectiveTTL(c, q) && Some(t.kind) == ParseKind(q.kind)
    ensures if t.kind == HTTP then CanonicalHost(q.httpHost) == Some(t.hostname) else t.hostname == ""
    ensures t.source != Docker ==> 3_000_000_000 <= t.ttl <= 3_600_000_000_000
  {}

  // ----- Lease durations -----

  /** Accepted leases last between three seconds and an hour. Below the wrap-around
      the accepted requests are exactly those of 3 to 3600 seconds and are honoured. */
  lemma TTLHonoured(c: Config, q: Request)
    requires ValidConfig(c) && q.source != Docker
    ensures TTLAccepted(c, q) ==> 3_000_000_000 <= EffectiveTTL(c, q) <= 3_600_000_000_000
    ensures q.ttlSeconds <= 0 ==> TTLAccepted(c, q) && EffectiveTTL(c, q) == c.ttl
    ensures 0 < q.ttlSeconds <= 9223372036 ==>
      (TTLAccepted(c, q) <==> 3 <= q.ttlSeconds <= 3600) && EffectiveTTL(c, q) == q.ttlSeconds * 1_000_000_000
  {}

  /** Beyond it the product wraps: a request is then never granted what it asked
      for, so an accepted positive request is honoured exactly up to 3600 seconds. */
  lemma TTLHonouredIff(c: Config, q: Request)
    requires ValidConfig(c) && q.source != Docker && q.ttlSeconds > 0 && TTLAccepted(c, q)
    ensures EffectiveTTL(c, q) == q.ttlSeconds * 1_000_000_000 <==> q.ttlSeconds <= 3600
  {
    TTLHonoured(c, q);
  }

  /** 2^55 + 15 seconds is accepted, as a lease of 15 seconds. */
  lemma TTLWrapExample(c: Config, q: Request)
    requires q.source != Docker && q.ttlSeconds == 0x80_0000_0000_0000 + 15
    ensures TTLAccepted(c, q) && EffectiveTTL(c, q) == 15_000_000_000
  {
    assert q.ttlSeconds * SECOND == 1953125 * TWO64 + 15 * SECOND;
    assert (1953125 * TWO64 + 15 * SECOND + TWO63) % TWO64 == 15 * SECOND + TWO63;
  }

  // ----- Owner keys -----

  /** Requests that name no owner get a key of their own: distinct for distinct IDs. */
  lemma OwnKeysDistinct(q: Request, id: Id, r: Request, other: Id)
    requires q.ownerKey == "" && r.ownerKey == "" && id != other
    ensures OwnerKeyOf(q, id) != OwnerKeyOf(r, other)
  {
    var a, b := SourceName(q.source) + ":", SourceName(r.source) + ":";
    var k, l := OwnerKeyOf(q, id), OwnerKeyOf(r, other);
    assert k[0] == a[0] && l[0] == b[0];
    assert k[|a|..] == id && l[|b|..] == other;
  }
}
