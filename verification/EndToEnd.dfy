/** What a producer gets out of registering, seen from its consumers: requests to the
    frontend it was given reach its backend until its publication ends. */
module EndToEnd {
  import opened Types
  import opened Registry
  import opened Admission
  import opened World
  import opened WorldInvariants
  import opened Theorems
  import opened CompletedRegistrations
  import L = Leases
  import R = Router
  import Hosts
  import Client
  import T = Timing

  // ----- What is in place when the registration is complete -----

  /** A registration that completes, whatever came between its steps, has put the requested
      backend behind the name, on a frontend of the kind that was asked for. */
  lemma PublishesRequest(c: Config, w: World, q: Request, regID: Id, w1: World, ls: seq<Label>, l: Label, v: World)
    requires Inv(c, w) && Completes(c, w, q, regID, w1, ls, l, v)
    ensures Inv(c, v) && q.name in v.reg
    ensures v.reg[q.name].backend == Some(q.backend) && v.reg[q.name].status == Ready
    ensures v.reg[q.name].name == q.name && v.reg[q.name].ownerKey == OwnerKeyOf(q, regID)
    ensures v.reg[q.name].kind == if q.kind == "http" then HTTP else TCP
    ensures v.reg[q.name].source == q.source && v.reg[q.name].appProtocol == q.appProtocol
    ensures v.reg[q.name].producerID == if q.source == Docker then q.containerID else regID
    ensures v.reg[q.name].kind == HTTP ==>
      && Hosts.CanonicalHost(q.httpHost) == Some(v.reg[q.name].hostname)
      && v.reg[q.name].frontend == R.FrontendURL(c, v.reg[q.name].hostname)
    ensures v.reg[q.name].kind == TCP ==>
      q.name in v.fronts.runtimes && v.reg[q.name].frontend == Port(v.fronts.runtimes[q.name])
  {
    CompletedDoes(c, w, q, regID, w1, ls, l, v);
    AdmittedAsks(c, w.reg, q, regID, w1.phase.t);
    FrontendsInPlace(c, v, q.name);
  }

  lemma FrontendsInPlace(c: Config, v: World, n: Name)
    requires Inv(c, v) && n in v.reg
    ensures v.reg[n].kind == HTTP ==> v.reg[n].frontend == R.FrontendURL(c, v.reg[n].hostname)
    ensures v.reg[n].kind == TCP ==> n in v.fronts.runtimes && v.reg[n].frontend == Port(v.fronts.runtimes[n])
  {
    assert UrlInv(c, v.reg, v.phase) && RuntimeInv(v.reg, v.fronts.runtimes, v.phase);
  }

  lemma LeaseIsAlive(c: Config, w: World, q: Request, regID: Id, w1: World, ls: seq<Label>, l: Label, v: World)
    requires Inv(c, w) && Completes(c, w, q, regID, w1, ls, l, v) && q.source != Docker
    ensures l.Grant? && q.name in v.reg && T.Alive(v, LeaseOf(c, q, regID, l.token, v.clock), v.reg[q.name])
    ensures regID in v.book.leases && v.book.leases[regID] == LeaseOf(c, q, regID, l.token, v.clock)
    ensures MIN_TTL <= EffectiveTTL(c, q) <= MAX_TTL
  {
    hide Inv, EffectiveTTL;
    CompletedDoes(c, w, q, regID, w1, ls, l, v);
    AdmittedAsks(c, w.reg, q, regID, w1.phase.t);
  }

  /** Its lease can be renewed with the token that was issued, by one full TTL from any
      moment before its deadline, which is one TTL after it was added, and not from the
      deadline on; it can be deleted with that token. Any other token is refused as
      unauthorized and changes nothing. */
  lemma LeaseIsUsable(c: Config, w: World, q: Request, regID: Id, w1: World, ls: seq<Label>, l: Label, v: World,
                      token: string, now: int)
    requires Inv(c, w) && Completes(c, w, q, regID, w1, ls, l, v) && q.source != Docker
    ensures l.Grant?
    ensures L.Renewal(v.book.leases, regID, token, now).1 ==
      if now >= v.clock + EffectiveTTL(c, q) then Err(L.NotFound)
      else if token == l.token then Ok(now + EffectiveTTL(c, q)) else Err(L.Unauthorized)
    ensures L.Deletion(v.book.leases, regID, token) ==
      if token == l.token then (v.book.leases - {regID}, None) else (v.book.leases, Some(L.Unauthorized))
  {
    hide Inv, Completes, EffectiveTTL;
    LeaseIsAlive(c, w, q, regID, w1, ls, l, v);
  }

  // ----- Requests -----

  /** A plain hostname is the route key of the very text it was requested as. */
  lemma PlainRequestKey(raw: string, h: string)
    requires Hosts.CanonicalHost(raw) == Some(h) && Hosts.Plain(h)
    ensures Hosts.NormalizeHost(raw) == h
  {
    var t := Hosts.Lower(Hosts.TrimSpace(raw));
    assert ':' !in t by {
      assert t == h || t == h + ".";
    }
    assert Hosts.SplitHost(t) == None;
    assert t[0] == h[0];
  }

  /** Whoever registers meanwhile, a service that owns its key is routed to, but for the
      moment between its own record and its own route. */
  lemma StillRouted(c: Config, v: World, n: Name, header: string, b: Backend)
    requires UrlInv(c, v.reg, v.phase) && RouteInv(v.reg, v.routes, v.phase)
    requires !(v.phase.Installed? && v.phase.t.name == n)
    requires n in v.reg && v.reg[n].kind == HTTP && Hosts.NormalizeHost(header) == v.reg[n].hostname
    requires CurrentBackend(v.reg, n) == Some(b) && R.OwnsKey(v.reg, n)
    ensures R.Served(v.routes, v.reg, header) == R.ProxiedTo(b)
  {
    var key := v.reg[n].hostname;
    Hosts.FixedPointIff(key);
    assert v.reg[n].frontend == R.FrontendURL(c, key);
    assert key in v.routes;
    assert v.reg[v.routes[key]].frontend == R.FrontendURL(c, v.reg[v.routes[key]].hostname);
  }

  /** Host headers with which a consumer asks for a service: the hostname as it was
      requested, or as it is registered, with a port. */
  predicate AsksFor(header: string, raw: string, hostname: string) {
    header == raw ||
    ('[' !in hostname && ']' !in hostname && |hostname| < |header| && header[|hostname|] == ':' &&
     header[..|hostname|] == hostname && Hosts.Digits(header[|hostname| + 1..]))
  }

  lemma AskedKey(header: string, raw: string, h: string)
    requires Hosts.CanonicalHost(raw) == Some(h) && Hosts.Plain(h) && AsksFor(header, raw, h)
    ensures Hosts.NormalizeHost(header) == h
  {
    if header == raw {
      PlainRequestKey(raw, h);
    } else {
      Hosts.CanonicalIsAccepted(raw);
      AskedWithPort(header, raw, h);
    }
  }

  lemma AskedWithPort(header: string, raw: string, h: string)
    requires Hosts.Accepted(h) && Hosts.Plain(h) && header != raw && AsksFor(header, raw, h)
    ensures Hosts.NormalizeHost(header) == h
  {
    var port := header[|h| + 1..];
    assert header == h + ":" + port;
    Hosts.HostWithPortIff(h, port);
  }

  lemma StillListening(c: Config, v: World, n: Name)
    requires Inv(c, v) && n in v.reg && v.reg[n].kind == TCP
    ensures n in v.fronts.runtimes && v.reg[n].frontend == Port(v.fronts.runtimes[n])
    ensures v.fronts.runtimes[n] in v.fronts.bound
  {
    assert v.fronts.runtimes[n] in v.fronts.runtimes.Values;
  }

  /** The service is reached: its name has the backend, a TCP frontend listens on its port,
      and for HTTP, if the service owns its route key, the proxy sends the request there. */
  ghost predicate Reached(v: World, name: Name, f: Frontend, b: Backend, header: string) {
    && CurrentBackend(v.reg, name) == Some(b)
    && match f
       case Port(p) => name in v.fronts.runtimes && v.fronts.runtimes[name] == p && p in v.fronts.bound
       case Url(_, _, _) => R.OwnsKey(v.reg, name) ==> R.Served(v.routes, v.reg, header) == R.ProxiedTo(b)
  }

  lemma UnchangedIsReached(c: Config, v: World, n: Name, raw: string, b: Backend, header: string)
    requires Inv(c, v) && n in v.reg && v.reg[n].backend == Some(b) && v.reg[n].status == Ready
    requires !(v.phase.Installed? && v.phase.t.name == n)
    requires v.reg[n].kind == HTTP ==> Hosts.CanonicalHost(raw) == Some(v.reg[n].hostname)
    requires AsksFor(header, raw, v.reg[n].hostname)
    ensures Reached(v, n, v.reg[n].frontend, b, header)
  {
    FrontendFitsKind(c, v, n);
    if v.reg[n].kind == TCP {
      StillListening(c, v, n);
    } else if R.OwnsKey(v.reg, n) {
      AskedKey(header, raw, v.reg[n].hostname);
      StillRouted(c, v, n, header, b);
    }
  }

  lemma FrontendFitsKind(c: Config, v: World, n: Name)
    requires Inv(c, v) && n in v.reg
    ensures v.reg[n].frontend.Port? <==> v.reg[n].kind == TCP
  {
    assert RouteInv(v.reg, v.routes, v.phase) && RuntimeInv(v.reg, v.fronts.runtimes, v.phase);
  }

  // ----- Over runs -----

  lemma InstallDisplaces(c: Config, w: World, n: Name)
    requires Inv(c, w) && w.phase.Fronted? && w.phase.t.name == n && n in w.reg && w.reg[n].status == Ready
    ensures Displaces(w, Install, w.reg[n])
  {
    assert PhaseInv(w.reg, w.book, w.phase) && NamesMatch(w.reg);
  }

  lemma InstalledBy(c: Config, w: World, l: Label)
    requires Apply(c, w, l).phase.Installed? && !w.phase.Installed?
    ensures l.Install? && w.phase.Fronted? && w.phase.t == Apply(c, w, l).phase.t
  {}

  /** While the record is not displaced, no registration of its name is at its record. */
  lemma {:induction false} NotBeingInstalled(c: Config, w: World, ls: seq<Label>, n: Name)
    requires Inv(c, w) && w.phase.Idle? && n in w.reg && w.reg[n].status == Ready && !Displaced(c, w, ls, w.reg[n])
    ensures !(Exec(c, w, ls).phase.Installed? && Exec(c, w, ls).phase.t.name == n)
  {
    if ls != [] {
      var front, l := ls[..|ls| - 1], ls[|ls| - 1];
      var u := Exec(c, w, front);
      NotBeingInstalled(c, w, front, n);
      NoWrongfulDisplacement(c, w, front, n);
      RunKeeps(c, w, front);
      StillNotInstalled(c, u, l, n, w.reg[n]);
    }
  }

  lemma StillNotInstalled(c: Config, u: World, l: Label, n: Name, rec: Record)
    requires Inv(c, u) && n in u.reg && u.reg[n] == rec && rec.status == Ready && !Displaces(u, l, rec)
    requires !(u.phase.Installed? && u.phase.t.name == n)
    ensures !(Apply(c, u, l).phase.Installed? && Apply(c, u, l).phase.t.name == n)
  {
    hide Inv, Apply, Displaces;
    if Apply(c, u, l).phase.Installed? {
      if u.phase.Installed? {
        StaysInstalled(c, u, l);
      } else {
        InstalledBy(c, u, l);
        if u.phase.t.name == n {
          InstallDisplaces(c, u, n);
        }
      }
    }
  }

  lemma StaysInstalled(c: Config, u: World, l: Label)
    requires u.phase.Installed? && Apply(c, u, l).phase.Installed?
    ensures Apply(c, u, l).phase.t == u.phase.t
  {}

  /** From the moment a registration completes, over any run, until a step that may
      displace its record: requests to its frontend reach the backend that was requested,
      whoever else registers, expires or fails meanwhile. */
  lemma ServedUntilDisplaced(c: Config, w: World, q: Request, regID: Id, w1: World, ls: seq<Label>, l: Label, v: World,
                             more: seq<Label>, header: string)
    requires Inv(c, w) && Completes(c, w, q, regID, w1, ls, l, v)
    requires q.name in v.reg ==>
      !Displaced(c, v, more, v.reg[q.name]) && AsksFor(header, q.httpHost, v.reg[q.name].hostname)
    ensures q.name in v.reg && Reached(Exec(c, v, more), q.name, v.reg[q.name].frontend, q.backend, header)
  {
    PublishesRequest(c, w, q, regID, w1, ls, l, v);
    ServedAlong(c, v, q, more, header);
  }

  lemma ServedAlong(c: Config, v: World, q: Request, more: seq<Label>, header: string)
    requires Inv(c, v) && v.phase.Idle? && q.name in v.reg && !Displaced(c, v, more, v.reg[q.name])
    requires v.reg[q.name].backend == Some(q.backend) && v.reg[q.name].status == Ready
    requires v.reg[q.name].kind == HTTP ==> Hosts.CanonicalHost(q.httpHost) == Some(v.reg[q.name].hostname)
    requires AsksFor(header, q.httpHost, v.reg[q.name].hostname)
    ensures Reached(Exec(c, v, more), q.name, v.reg[q.name].frontend, q.backend, header)
  {
    hide Inv, Exec, Displaced, Reached, AsksFor, Hosts.CanonicalHost;
    NoWrongfulDisplacement(c, v, more, q.name);
    NotBeingInstalled(c, v, more, q.name);
    RunKeeps(c, v, more);
    UnchangedIsReached(c, Exec(c, v, more), q.name, q.httpHost, q.backend, header);
  }

  /** The answer to the registration, as far as heartbeats depend on it. */
  function AnswerTo(c: Config, q: Request, regID: Id, token: string): Client.Response {
    Client.Response(regID, token, EffectiveTTL(c, q) / SECOND, None)
  }

  /** A producer that registers, derives its heartbeat interval from the answer and misses
      no two heartbeats in a row: over any run in which nobody deletes its lease with its
      token, registers in its owner's name or restarts the daemon, its next heartbeat is
      accepted and requests to its frontend reach its backend. */
  lemma ServedOnSchedule(c: Config, w: World, q: Request, regID: Id, w1: World, ls: seq<Label>, l: Label, v: World,
                         more: seq<Label>, header: string)
    requires Inv(c, w) && Completes(c, w, q, regID, w1, ls, l, v) && q.source != Docker && l.Grant?
    requires T.OnSchedule(c, v, more, LeaseOf(c, q, regID, l.token, v.clock),
                          Client.Interval(Client.BelievedTTL(AnswerTo(c, q, regID, l.token))), v.clock)
    requires q.name in v.reg ==> AsksFor(header, q.httpHost, v.reg[q.name].hostname)
    ensures q.name in v.reg && Reached(Exec(c, v, more), q.name, v.reg[q.name].frontend, q.backend, header)
    ensures L.Renewal(Exec(c, v, more).book.leases, regID, l.token, Exec(c, v, more).clock).1 ==
      Ok(Exec(c, v, more).clock + EffectiveTTL(c, q))
  {
    hide Inv, Completes, Exec, EffectiveTTL, OwnerKeyOf, T.OnSchedule, T.Alive, Reached, AsksFor, L.Renewal,
      Hosts.CanonicalHost, Client.BelievedTTL, Client.Interval;
    PublishesRequest(c, w, q, regID, w1, ls, l, v);
    LeaseIsAlive(c, w, q, regID, w1, ls, l, v);
    KeptOnSchedule(c, v, more, LeaseOf(c, q, regID, l.token, v.clock), v.reg[q.name], AnswerTo(c, q, regID, l.token),
                   v.clock);
    RunKeeps(c, v, more);
    UnchangedIsReached(c, Exec(c, v, more), q.name, q.httpHost, q.backend, header);
  }

  lemma KeptOnSchedule(c: Config, w: World, ls: seq<Label>, e: L.Entry, rec: Record, r: Client.Response, start: int)
    requires Inv(c, w) && T.Alive(w, e, rec) && w.book.leases[e.id].expiresAt == start + e.ttl
    requires r.id == e.id && r.token == e.token && r.ttlSeconds == e.ttl / SECOND
    requires T.OnSchedule(c, w, ls, e, Client.Interval(Client.BelievedTTL(r)), start)
    ensures e.name in Exec(c, w, ls).reg && Exec(c, w, ls).reg[e.name] == rec
    ensures Exec(c, w, ls).phase.Idle? || Exec(c, w, ls).phase.t.name != e.name
    ensures L.Renewal(Exec(c, w, ls).book.leases, e.id, e.token, Exec(c, w, ls).clock).1 ==
      Ok(Exec(c, w, ls).clock + e.ttl)
  {
    hide Inv, Exec, T.OnSchedule;
    T.ScheduledClientKeepsLease(c, w, ls, e, rec, r, start);
  }
}
