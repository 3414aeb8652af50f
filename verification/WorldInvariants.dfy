/** Every step of the world keeps its invariant. */
module WorldInvariants {
  import opened Types
  import opened Registry
  import opened Admission
  import opened World
  import L = Leases
  import S = Store
  import F = Frontends
  import R = Router
  import Hosts

  // ----- The books -----

  /** Dropping one lease keeps the books; only the record it belonged to is left to
      account for. */
  lemma OverKeeps(reg: Services, b: Book, phase: Phase, id: Id)
    requires BookInv(reg, b, phase)
    ensures PhaseInv(reg, Over(b, id), phase) && IdInv(reg, Over(b, id))
    ensures LeaseInv(reg, Over(b, id).leases) && OnceInv(Over(b, id))
    ensures forall n :: n in reg && Leased(reg[n]) && reg[n].producerID != id ==> Accounted(reg, Over(b, id), phase, n)
  {
    forall n | n in reg && Leased(reg[n]) && reg[n].producerID != id
      ensures Accounted(reg, Over(b, id), phase, n)
    {
      assert Accounted(reg, b, phase, n);
    }
  }

  /** A lease that carries the name of a checked ticket is the one it retires. */
  lemma OnlyRetiredLease(reg: Services, b: Book, t: Ticket, id: Id)
    requires BookInv(reg, b, Checked(t))
    requires id in b.leases && b.leases[id].name == t.name
    ensures Retires(reg, t) && reg[t.name].producerID == id
  {
    assert id in b.granted && id in b.issued && id !in b.containers;
  }

  lemma RetireBook(reg: Services, b: Book, t: Ticket)
    requires BookInv(reg, b, Checked(t))
    ensures BookInv(reg, if Retires(reg, t) then Over(b, reg[t.name].producerID) else b, Retired(t))
  {
    var b' := if Retires(reg, t) then Over(b, reg[t.name].producerID) else b;
    if Retires(reg, t) {
      OverKeeps(reg, b, Checked(t), reg[t.name].producerID);
    }
    forall id | id in b'.leases ensures b'.leases[id].name != t.name {
      if b.leases[id].name == t.name {
        OnlyRetiredLease(reg, b, t, id);
      }
    }
    forall n | n in reg && Leased(reg[n]) ensures Accounted(reg, b', Retired(t), n) {
      assert Accounted(reg, b, Checked(t), n);
    }
  }

  lemma DeletedBook(reg: Services, b: Book, phase: Phase, e: Ending, token: string)
    requires BookInv(reg, b, phase)
    ensures BookInv(reg, Deleted(b, e, token), phase)
  {
    if e in b.fetched && L.Deletion(b.leases, e.id, token).1.None? {
      OverKeeps(reg, b, phase, e.id);
      assert e.id in b.granted;
      var b' := Deleted(b, e, token);
      forall n | n in reg && Leased(reg[n]) ensures Accounted(reg, b', phase, n) {
        assert reg[n].producerID != e.id ==> Accounted(reg, Over(b, e.id), phase, n);
      }
    }
  }

  lemma LateBook(reg: Services, b: Book, phase: Phase, id: Id)
    requires BookInv(reg, b, phase) && id in b.leases
    ensures BookInv(reg, Stranding(Over(b, id), id), phase)
  {
    OverKeeps(reg, b, phase, id);
    assert id in b.granted;
  }

  lemma TimelyPhase(reg: Services, b: Book, phase: Phase, id: Id, now: int)
    requires PhaseInv(reg, b, phase) && IdInv(reg, b) && id in b.leases
    ensures PhaseInv(reg, Prolonged(b, id, now), phase) && IdInv(reg, Prolonged(b, id, now))
  {}

  lemma TimelyBook(reg: Services, b: Book, phase: Phase, id: Id, now: int)
    requires BookInv(reg, b, phase) && id in b.leases
    ensures BookInv(reg, Prolonged(b, id, now), phase)
  {
    var b' := Prolonged(b, id, now);
    assert b'.leases.Keys == b.leases.Keys;
    TimelyPhase(reg, b, phase, id, now);
    assert LeaseInv(reg, b'.leases);
    forall n | n in reg && Leased(reg[n]) ensures Accounted(reg, b', phase, n) {
      assert Accounted(reg, b, phase, n);
    }
  }

  lemma RenewedBook(reg: Services, b: Book, phase: Phase, id: Id, token: string, now: int)
    requires BookInv(reg, b, phase)
    ensures BookInv(reg, Renewed(b, id, token, now), phase)
  {
    if id in b.leases {
      if LateRenewal(b, id, now) {
        LateBook(reg, b, phase, id);
      } else {
        TimelyBook(reg, b, phase, id, now);
      }
    }
  }

  lemma SweptBook(reg: Services, b: Book, phase: Phase, at: int)
    requires BookInv(reg, b, phase)
    ensures BookInv(reg, Swept(b, at), phase)
  {
    var b' := Swept(b, at);
    forall n | n in reg && Leased(reg[n]) ensures Accounted(reg, b', phase, n) {
      assert Accounted(reg, b, phase, n);
      var id := reg[n].producerID;
      if id in L.Overdue(b.leases, at) {
        assert b.leases[id].name == n;
      }
    }
  }

  lemma EndBook(reg: Services, b: Book, e: Ending)
    requires BookInv(reg, b, Idle) && e in b.pending
    ensures BookInv(Cleared(reg, e.name, e.id), b.(pending := b.pending - {e}), Idle)
  {
  }

  lemma ForgetBook(reg: Services, b: Book, e: Ending)
    requires BookInv(reg, b, Idle) && e.id !in b.issued
    ensures BookInv(Cleared(reg, e.name, e.id), b.(containers := b.containers + {e.id}), Idle)
  {
  }

  lemma InstallBook(reg: Services, b: Book, t: Ticket, f: Frontend)
    requires BookInv(reg, b, Fronted(t, f))
    ensures BookInv(reg[t.name := RecordOf(t, f)], b, Installed(t))
  {
  }

  /** Between retirement and installation the books do not depend on the phase. */
  predicate Between(phase: Phase) { phase.Retired? || phase.Listening? || phase.Fronted? }

  lemma BetweenBook(reg: Services, b: Book, phase: Phase, phase': Phase)
    requires BookInv(reg, b, phase) && Between(phase) && Between(phase') && phase.t == phase'.t
    ensures BookInv(reg, b, phase')
  {
    forall n | n in reg && Leased(reg[n]) ensures Accounted(reg, b, phase', n) {
      assert Accounted(reg, b, phase, n);
    }
  }

  /** A registration of a new name can be given up without loss. */
  lemma AbandonBook(reg: Services, b: Book, phase: Phase)
    requires BookInv(reg, b, phase) && Between(phase) && phase.t.name !in reg
    ensures BookInv(reg, b, Idle)
  {
    forall n | n in reg && Leased(reg[n]) ensures Accounted(reg, b, Idle, n) {
      assert Accounted(reg, b, phase, n);
    }
  }

  lemma RouteBook(reg: Services, b: Book, t: Ticket)
    requires BookInv(reg, b, Installed(t))
    ensures BookInv(reg, b, Routed(t))
  {
    forall n | n in reg && Leased(reg[n]) ensures Accounted(reg, b, Routed(t), n) {
      assert Accounted(reg, b, Installed(t), n);
    }
  }

  lemma GrantBook(reg: Services, b: Book, t: Ticket, token: string, now: int)
    requires BookInv(reg, b, Routed(t)) && t.source != Docker
    ensures BookInv(reg, Granted(b, L.NewEntry(t.regID, t.name, t.ownerKey, token, t.ttl, now)), Idle)
  {
    var b' := Granted(b, L.NewEntry(t.regID, t.name, t.ownerKey, token, t.ttl, now));
    assert t.regID !in b.leases && b.ended[t.regID] == 0;
    forall n | n in reg && Leased(reg[n]) ensures Accounted(reg, b', Idle, n) {
      assert Accounted(reg, b, Routed(t), n);
    }
  }

  lemma NoTokenBook(reg: Services, b: Book, t: Ticket)
    requires BookInv(reg, b, Routed(t)) && t.source != Docker
    ensures BookInv(reg, Stranding(b, t.regID), Idle)
  {
    assert t.regID !in b.leases;
    forall n | n in reg && Leased(reg[n]) ensures Accounted(reg, Stranding(b, t.regID), Idle, n) {
      assert Accounted(reg, b, Routed(t), n);
    }
  }

  lemma DoneBook(reg: Services, b: Book, t: Ticket)
    requires BookInv(reg, b, Routed(t)) && t.source == Docker
    ensures BookInv(reg, b, Idle)
  {
    forall n | n in reg && Leased(reg[n]) ensures Accounted(reg, b, Idle, n) {
      assert Accounted(reg, b, Routed(t), n);
    }
  }

  lemma FetchBook(reg: Services, b: Book, phase: Phase, id: Id)
    requires BookInv(reg, b, phase)
    ensures BookInv(reg, Fetch(b, id), phase)
  {
    assert id in b.leases ==> id in b.granted;
    forall n | n in reg && Leased(reg[n]) ensures Accounted(reg, Fetch(b, id), phase, n) {
      assert Accounted(reg, b, phase, n);
    }
  }

  lemma BeginBook(reg: Services, b: Book, c: Config, q: Request, regID: Id, t: Ticket)
    requires BookInv(reg, b, Idle) && FreshID(b, q, regID) && Admit(c, reg, q, regID) == Ok(t)
    ensures BookInv(reg, Issued(b, t), Checked(t))
  {
    var b' := Issued(b, t);
    assert regID !in b.granted;
    forall n | n in reg && Leased(reg[n]) ensures Accounted(reg, b', Checked(t), n) {
      assert Accounted(reg, b, Idle, n);
    }
  }

  // ----- Frontends and routes -----

  /** Phases on which no frontend invariant depends. */
  predicate Quiet(phase: Phase) { phase.Idle? || phase.Checked? || phase.Retired? || phase.Routed? }

  lemma QuietFronts(c: Config, reg: Services, f: F.Fronts, routes: R.Routes, phase: Phase, phase': Phase)
    requires FrontInv(c, reg, f, routes, phase) && Quiet(phase) && Quiet(phase')
    requires phase'.Idle? || (!phase.Idle? && phase.t == phase'.t)
    ensures FrontInv(c, reg, f, routes, phase')
  {
  }

  lemma BeginFronts(c: Config, reg: Services, f: F.Fronts, routes: R.Routes, q: Request, regID: Id, t: Ticket)
    requires FrontInv(c, reg, f, routes, Idle) && Admit(c, reg, q, regID) == Ok(t)
    ensures FrontInv(c, reg, f, routes, Checked(t))
  {
    if t.kind == HTTP {
      Hosts.CanonicalIsAccepted(q.httpHost);
    }
  }

  lemma ReuseFronts(c: Config, reg: Services, f: F.Fronts, routes: R.Routes, t: Ticket)
    requires FrontInv(c, reg, f, routes, Retired(t)) && t.kind == TCP && t.name in f.runtimes
    ensures FrontInv(c, reg, f, routes, Fronted(t, Port(f.runtimes[t.name])))
  {
  }

  lemma WebUrls(c: Config, reg: Services, t: Ticket)
    requires UrlInv(c, reg, Retired(t)) && t.kind == HTTP && Compatible(reg, t)
    ensures UrlInv(c, reg, Fronted(t, R.FrontendURL(c, t.hostname)))
    ensures t.name in reg ==> reg[t.name].frontend == R.FrontendURL(c, t.hostname)
  {
  }

  lemma WebFronts(reg: Services, f: F.Fronts, routes: R.Routes, t: Ticket, url: Frontend)
    requires PortInv(f, Retired(t)) && RuntimeInv(reg, f.runtimes, Retired(t)) && RouteInv(reg, routes, Retired(t))
    requires t.kind == HTTP && url.Url? && (t.name in reg ==> reg[t.name].frontend == url)
    ensures PortInv(f, Fronted(t, url)) && RuntimeInv(reg, f.runtimes, Fronted(t, url))
    ensures RouteInv(reg, routes, Fronted(t, url))
  {
  }

  lemma BindFronts(c: Config, reg: Services, f: F.Fronts, routes: R.Routes, t: Ticket, port: int)
    requires FrontInv(c, reg, f, routes, Retired(t)) && t.kind == TCP && t.name !in f.runtimes
    requires F.Bindable(f.bound, port)
    ensures FrontInv(c, reg, f.(bound := f.bound + {port}), routes, Listening(t, port))
  {
  }

  lemma PersistPorts(f: F.Fronts, t: Ticket, port: int, writeOk: bool)
    requires PortInv(f, Listening(t, port))
    ensures var (store, ok) := S.PortSet(f.store, t.name, port, writeOk);
      if ok then PortInv(F.Fronts(f.bound, f.runtimes[t.name := port], store), Fronted(t, Port(port)))
      else PortInv(f.(bound := f.bound - {port}, store := store), Idle)
  {
    var runtimes := f.runtimes[t.name := port];
    assert runtimes.Values == f.runtimes.Values + {port} by {
      assert forall n :: n in f.runtimes ==> runtimes[n] == f.runtimes[n];
      assert runtimes[t.name] == port;
    }
  }

  lemma PersistFronts(c: Config, reg: Services, runtimes: map<Name, int>, routes: R.Routes, t: Ticket, port: int)
    requires RuntimeInv(reg, runtimes, Listening(t, port)) && t.kind == TCP && t.name !in runtimes
    requires UrlInv(c, reg, Listening(t, port)) && RouteInv(reg, routes, Listening(t, port))
    ensures RuntimeInv(reg, runtimes[t.name := port], Fronted(t, Port(port))) && RuntimeInv(reg, runtimes, Idle)
    ensures UrlInv(c, reg, Fronted(t, Port(port))) && UrlInv(c, reg, Idle)
    ensures RouteInv(reg, routes, Fronted(t, Port(port))) && RouteInv(reg, routes, Idle)
  {
  }

  lemma InstallUrls(c: Config, reg: Services, t: Ticket, front: Frontend)
    requires UrlInv(c, reg, Fronted(t, front))
    ensures UrlInv(c, reg[t.name := RecordOf(t, front)], Installed(t))
  {
  }

  lemma InstallRuntimes(reg: Services, f: F.Fronts, t: Ticket, front: Frontend)
    requires PortInv(f, Fronted(t, front)) && RuntimeInv(reg, f.runtimes, Fronted(t, front)) && Compatible(reg, t)
    ensures PortInv(f, Installed(t)) && RuntimeInv(reg[t.name := RecordOf(t, front)], f.runtimes, Installed(t))
  {
  }

  lemma InstallRoutes(reg: Services, routes: R.Routes, t: Ticket, front: Frontend)
    requires RouteInv(reg, routes, Fronted(t, front)) && Compatible(reg, t)
    ensures RouteInv(reg[t.name := RecordOf(t, front)], routes, Installed(t))
  {
  }

  /** The key under which the route is stored is the host in the record's URL. */
  lemma RouteKey(c: Config, reg: Services, t: Ticket)
    requires UrlInv(c, reg, Installed(t)) && t.kind == HTTP
    requires t.name in reg && reg[t.name] == RecordOf(t, reg[t.name].frontend)
    ensures reg[t.name].frontend.Url? && R.Routed(map[], t.hostname, t.name) == map[reg[t.name].frontend.host := t.name]
    ensures Hosts.NormalizeHost(t.hostname) == reg[t.name].frontend.host
  {
  }

  lemma RouteRoutes(reg: Services, routes: R.Routes, t: Ticket)
    requires RouteInv(reg, routes, Installed(t))
    requires t.name in reg && reg[t.name] == RecordOf(t, reg[t.name].frontend)
    ensures RouteInv(reg, if t.kind == HTTP then routes[reg[t.name].frontend.host := t.name] else routes, Routed(t))
  {
  }

  lemma RoutedFronts(c: Config, reg: Services, f: F.Fronts, t: Ticket)
    requires PortInv(f, Installed(t)) && RuntimeInv(reg, f.runtimes, Installed(t)) && UrlInv(c, reg, Installed(t))
    ensures PortInv(f, Routed(t)) && RuntimeInv(reg, f.runtimes, Routed(t)) && UrlInv(c, reg, Routed(t))
  {
  }

  lemma ClearedUrls(c: Config, reg: Services, name: Name, id: Id)
    requires UrlInv(c, reg, Idle)
    ensures UrlInv(c, Cleared(reg, name, id), Idle)
  {
    var reg' := Cleared(reg, name, id);
    forall n | n in reg' && reg'[n].kind == HTTP
      ensures Hosts.Accepted(reg'[n].hostname) && reg'[n].frontend == R.FrontendURL(c, reg'[n].hostname)
    {
      StaleRemovalIgnored(reg, name, id, n);
    }
  }

  lemma ClearedRuntimes(reg: Services, f: F.Fronts, name: Name, id: Id)
    requires RuntimeInv(reg, f.runtimes, Idle)
    ensures RuntimeInv(Cleared(reg, name, id), f.runtimes, Idle)
  {
  }

  lemma ClearedRoutes(reg: Services, routes: R.Routes, name: Name, id: Id)
    requires RouteInv(reg, routes, Idle)
    ensures RouteInv(Cleared(reg, name, id), routes, Idle)
  {
  }

  lemma FlushPorts(f: F.Fronts, phase: Phase, writeOk: bool)
    requires PortInv(f, phase)
    ensures PortInv(f.(store := S.Flushed(f.store, writeOk)), phase)
  {
  }

  // ----- Steps -----

  /** A name without a runtime has no record yet. */
  lemma NewName(c: Config, w: World)
    requires Inv(c, w) && (NeedsRuntime(w) || w.phase.Listening?)
    ensures w.phase.t.name !in w.reg
  {
  }

  lemma BeginKeeps(c: Config, w: World, q: Request, regID: Id)
    requires Inv(c, w)
    ensures Inv(c, BeginStep(c, w, q, regID))
  {
    var r := Admit(c, w.reg, q, regID);
    if w.phase.Idle? && FreshID(w.book, q, regID) && r.Ok? {
      BeginFronts(c, w.reg, w.fronts, w.routes, q, regID, r.value);
      BeginBook(w.reg, w.book, c, q, regID, r.value);
    }
  }

  lemma RetireKeeps(c: Config, w: World)
    requires Inv(c, w)
    ensures Inv(c, RetireStep(w))
  {
    if w.phase.Checked? {
      RetireBook(w.reg, w.book, w.phase.t);
      QuietFronts(c, w.reg, w.fronts, w.routes, w.phase, Retired(w.phase.t));
    }
  }

  lemma ReuseKeeps(c: Config, w: World)
    requires Inv(c, w)
    ensures Inv(c, ReuseStep(w))
  {
    if w.phase.Retired? && w.phase.t.kind == TCP && w.phase.t.name in w.fronts.runtimes {
      ReuseFronts(c, w.reg, w.fronts, w.routes, w.phase.t);
      BetweenBook(w.reg, w.book, w.phase, ReuseStep(w).phase);
    }
  }

  lemma BindKeeps(c: Config, w: World, k: nat)
    requires Inv(c, w)
    ensures Inv(c, BindStep(c, w, k))
  {
    if NeedsRuntime(w) && k < |CandidatesFor(c, w)| && F.Bindable(w.fronts.bound, CandidatesFor(c, w)[k]) {
      var port := CandidatesFor(c, w)[k];
      BindFronts(c, w.reg, w.fronts, w.routes, w.phase.t, port);
      BetweenBook(w.reg, w.book, w.phase, Listening(w.phase.t, port));
    }
  }

  lemma ExhaustKeeps(c: Config, w: World)
    requires Inv(c, w)
    ensures Inv(c, ExhaustStep(w))
  {
    if NeedsRuntime(w) {
      NewName(c, w);
      QuietFronts(c, w.reg, w.fronts, w.routes, w.phase, Idle);
      AbandonBook(w.reg, w.book, w.phase);
    }
  }

  lemma PersistKeeps(c: Config, w: World, ok: bool)
    requires Inv(c, w)
    ensures Inv(c, PersistStep(w, ok))
  {
    if w.phase.Listening? {
      var (t, port) := (w.phase.t, w.phase.port);
      NewName(c, w);
      PersistPorts(w.fronts, t, port, ok);
      PersistFronts(c, w.reg, w.fronts.runtimes, w.routes, t, port);
      BetweenBook(w.reg, w.book, w.phase, Fronted(t, Port(port)));
      AbandonBook(w.reg, w.book, w.phase);
    }
  }

  lemma WebKeeps(c: Config, w: World)
    requires Inv(c, w)
    ensures Inv(c, WebStep(c, w))
  {
    if w.phase.Retired? && w.phase.t.kind == HTTP {
      var url := R.FrontendURL(c, w.phase.t.hostname);
      WebUrls(c, w.reg, w.phase.t);
      WebFronts(w.reg, w.fronts, w.routes, w.phase.t, url);
      BetweenBook(w.reg, w.book, w.phase, Fronted(w.phase.t, url));
    }
  }

  lemma InstallKeeps(c: Config, w: World)
    requires Inv(c, w)
    ensures Inv(c, InstallStep(w))
  {
    if w.phase.Fronted? {
      InstallBook(w.reg, w.book, w.phase.t, w.phase.frontend);
      InstallUrls(c, w.reg, w.phase.t, w.phase.frontend);
      InstallRuntimes(w.reg, w.fronts, w.phase.t, w.phase.frontend);
      InstallRoutes(w.reg, w.routes, w.phase.t, w.phase.frontend);
    }
  }

  lemma RouteKeeps(c: Config, w: World)
    requires Inv(c, w)
    ensures Inv(c, RouteStep(w))
  {
    if w.phase.Installed? {
      RouteBook(w.reg, w.book, w.phase.t);
      RoutedFronts(c, w.reg, w.fronts, w.phase.t);
      RouteRoutes(w.reg, w.routes, w.phase.t);
      if w.phase.t.kind == HTTP {
        RouteKey(c, w.reg, w.phase.t);
      }
    }
  }

  lemma GrantKeeps(c: Config, w: World, token: string)
    requires Inv(c, w)
    ensures Inv(c, GrantStep(w, token))
  {
    if AwaitsLease(w) {
      GrantBook(w.reg, w.book, w.phase.t, token, w.clock);
      QuietFronts(c, w.reg, w.fronts, w.routes, w.phase, Idle);
    }
  }

  lemma NoTokenKeeps(c: Config, w: World)
    requires Inv(c, w)
    ensures Inv(c, NoTokenStep(w))
  {
    if AwaitsLease(w) {
      NoTokenBook(w.reg, w.book, w.phase.t);
      QuietFronts(c, w.reg, w.fronts, w.routes, w.phase, Idle);
    }
  }

  lemma DoneKeeps(c: Config, w: World)
    requires Inv(c, w)
    ensures Inv(c, DoneStep(w))
  {
    if w.phase.Routed? && w.phase.t.source == Docker {
      DoneBook(w.reg, w.book, w.phase.t);
      QuietFronts(c, w.reg, w.fronts, w.routes, w.phase, Idle);
    }
  }

  lemma EndKeeps(c: Config, w: World, e: Ending)
    requires Inv(c, w)
    ensures Inv(c, EndStep(w, e))
  {
    if w.phase.Idle? && e in w.book.pending {
      EndBook(w.reg, w.book, e);
      ClearedUrls(c, w.reg, e.name, e.id);
      ClearedRuntimes(w.reg, w.fronts, e.name, e.id);
      ClearedRoutes(w.reg, w.routes, e.name, e.id);
    }
  }

  lemma ForgetKeeps(c: Config, w: World, e: Ending)
    requires Inv(c, w)
    ensures Inv(c, ForgetStep(w, e))
  {
    if w.phase.Idle? && e.id !in w.book.issued {
      ForgetBook(w.reg, w.book, e);
      ClearedUrls(c, w.reg, e.name, e.id);
      ClearedRuntimes(w.reg, w.fronts, e.name, e.id);
      ClearedRoutes(w.reg, w.routes, e.name, e.id);
    }
  }

  lemma FreshKeeps(c: Config, clock: int, issued: map<Id, Name>, containers: set<Id>, file: S.File, backupOk: bool)
    requires ValidConfig(c) && issued.Keys !! containers && S.Loaded(file, backupOk).Ok?
    ensures Inv(c, Fresh(clock, issued, containers, S.Loaded(file, backupOk).value, file))
  {
  }

  lemma RegisterStepKeeps(c: Config, w: World, l: Label)
    requires Inv(c, w)
    requires l.Begin? || l.Retire? || l.Reuse? || l.Bind? || l.Exhaust? || l.Persist? || l.Web?
    ensures Inv(c, Apply(c, w, l))
  {
    match l
    case Begin(q, regID) => BeginKeeps(c, w, q, regID);
    case Retire => RetireKeeps(c, w);
    case Reuse => ReuseKeeps(c, w);
    case Bind(k) => BindKeeps(c, w, k);
    case Exhaust => ExhaustKeeps(c, w);
    case Persist(ok) => PersistKeeps(c, w, ok);
    case Web => WebKeeps(c, w);
  }

  lemma LeaseStepKeeps(c: Config, w: World, l: Label)
    requires Inv(c, w) && (l.Get? || l.Delete? || l.Renew? || l.Sweep?)
    ensures Inv(c, Apply(c, w, l))
  {
    match l
    case Get(id) => FetchBook(w.reg, w.book, w.phase, id);
    case Delete(e, token) => DeletedBook(w.reg, w.book, w.phase, e, token);
    case Renew(id, token) => RenewedBook(w.reg, w.book, w.phase, id, token, w.clock);
    case Sweep(at) => SweptBook(w.reg, w.book, w.phase, at);
  }

  lemma FinishStepKeeps(c: Config, w: World, l: Label)
    requires Inv(c, w) && (l.Install? || l.Route? || l.Grant? || l.NoToken? || l.Done?)
    ensures Inv(c, Apply(c, w, l))
  {
    match l
    case Install => InstallKeeps(c, w);
    case Route => RouteKeeps(c, w);
    case Grant(token) => GrantKeeps(c, w, token);
    case NoToken => NoTokenKeeps(c, w);
    case Done => DoneKeeps(c, w);
  }

  lemma OutsideStepKeeps(c: Config, w: World, l: Label)
    requires Inv(c, w) && (l.Tick? || l.Flush? || l.Restart?)
    ensures Inv(c, Apply(c, w, l))
  {
    match l
    case Tick(_) =>
    case Flush(ok) => FlushPorts(w.fronts, w.phase, ok);
    case Restart(ok) =>
      if S.Loaded(w.fronts.store.file, ok).Ok? {
        FreshKeeps(c, w.clock, w.book.issued, w.book.containers, w.fronts.store.file, ok);
      }
  }

  lemma StepKeeps(c: Config, w: World, l: Label)
    requires Inv(c, w)
    ensures Inv(c, Apply(c, w, l))
  {
    if l.Install? || l.Route? || l.Grant? || l.NoToken? || l.Done? {
      FinishStepKeeps(c, w, l);
    } else if l.End? {
      EndKeeps(c, w, l.e);
    } else if l.Forget? {
      ForgetKeeps(c, w, l.e);
    } else if l.Get? || l.Delete? || l.Renew? || l.Sweep? {
      LeaseStepKeeps(c, w, l);
    } else if l.Tick? || l.Flush? || l.Restart? {
      OutsideStepKeeps(c, w, l);
    } else {
      RegisterStepKeeps(c, w, l);
    }
  }

  lemma {:induction false} RunKeeps(c: Config, w: World, ls: seq<Label>)
    requires Inv(c, w)
    ensures Inv(c, Exec(c, w, ls))
  {
    if ls != [] {
      RunKeeps(c, w, ls[..|ls| - 1]);
      StepKeeps(c, Exec(c, w, ls[..|ls| - 1]), ls[|ls| - 1]);
    }
  }

  lemma ExecSplit(c: Config, w: World, ls: seq<Label>, l: Label)
    ensures Exec(c, w, ls + [l]) == Apply(c, Exec(c, w, ls), l)
  {
    assert (ls + [l])[..|ls|] == ls;
  }

  lemma {:induction false} ExecConcat(c: Config, w: World, ls: seq<Label>, more: seq<Label>)
    ensures Exec(c, w, ls + more) == Exec(c, Exec(c, w, ls), more)
  {
    if more == [] {
      assert ls + more == ls;
    } else {
      ExecConcat(c, w, ls, more[..|more| - 1]);
      assert (ls + more)[..|ls + more| - 1] == ls + more[..|more| - 1];
    }
  }

  lemma TickStep(c: Config, w: World, d: nat)
    ensures Apply(c, w, Tick(d)) == w.(clock := w.clock + d)
  {}

  lemma GetStep(c: Config, w: World, id: Id)
    ensures Apply(c, w, Get(id)) == w.(book := Fetch(w.book, id))
  {}

  lemma DeleteStep(c: Config, w: World, e: Ending, token: string)
    ensures Apply(c, w, Delete(e, token)) == w.(book := Deleted(w.book, e, token))
  {}

  lemma SweepStep(c: Config, w: World, at: int)
    ensures Apply(c, w, Sweep(at)) == if at <= w.clock then w.(book := Swept(w.book, at)) else w
  {}

  lemma FlushStep(c: Config, w: World, ok: bool)
    ensures Apply(c, w, Flush(ok)) == w.(fronts := w.fronts.(store := S.Flushed(w.fronts.store, ok)))
  {}

  lemma EndSteps(c: Config, w: World, e: Ending)
    ensures Apply(c, w, End(e)) == EndStep(w, e)
    ensures Apply(c, w, Forget(e)) == ForgetStep(w, e)
  {}

  lemma RenewStep(c: Config, w: World, id: Id, token: string)
    ensures Apply(c, w, Renew(id, token)) == w.(book := Renewed(w.book, id, token, w.clock))
  {}

  lemma InitKeeps(c: Config, w: World)
    requires ValidConfig(c) && Init(w)
    ensures Inv(c, w)
  {
    var mem, file, backupOk :|
      S.Loaded(file, backupOk) == Ok(mem) && w == Fresh(w.clock, map[], {}, mem, file);
    FreshKeeps(c, w.clock, map[], {}, file, backupOk);
  }
}
