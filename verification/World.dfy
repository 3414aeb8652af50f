/** The daemon as a transition system at the granularity of its own locks.

    Register and endPublication run under the daemon mutex, so a registration is a
    chain of phases during which no end takes effect. Heartbeats, deletions and the
    sweeper take only the lease lock and interleave with every phase; what they have
    removed but not yet ended is in `pending`. A label that is not enabled leaves the
    world alone, so every sequence of labels is a run. */
module World {
  import opened Types
  import opened Registry
  import opened Admission
  import L = Leases
  import S = Store
  import F = Frontends
  import R = Router
  import Hosts

  /** A publication whose lease is gone and whose record is still to be ended, or one
      that a deletion request has looked up. */
  datatype Ending = Ending(name: Name, id: Id)

  /** How far the registration holding the daemon mutex has got. */
  datatype Phase =
    | Idle
    | Checked(t: Ticket)
    | Retired(t: Ticket)
    | Listening(t: Ticket, port: int)
    | Fronted(t: Ticket, frontend: Frontend)
    | Installed(t: Ticket)
    | Routed(t: Ticket)

  /** The lease table and what surrounds it: ends still to be carried out, look-ups of
      deletion requests, the IDs issued (each for one name) and the container IDs seen, the leases
      granted in this incarnation and how often each was ended, and the publications
      left behind without a lease. */
  datatype Book = Book(
    leases: L.Table,
    pending: set<Ending>,
    fetched: set<Ending>,
    issued: map<Id, Name>,
    containers: set<Id>,
    granted: set<Id>,
    ended: multiset<Id>,
    stranded: set<Id>)

  datatype World = World(
    clock: int,
    reg: Services,
    book: Book,
    fronts: F.Fronts,
    routes: R.Routes,
    phase: Phase)

  datatype Label =
    // A registration, phase by phase.
    | Begin(q: Request, regID: Id)
    | Retire
    | Reuse
    | Bind(k: nat)
    | Exhaust
    | Persist(writeOk: bool)
    | Web
    | Install
    | Route
    | Grant(token: string)
    | NoToken
    | Done
    // Ends, under the daemon mutex.
    | End(e: Ending)
    | Forget(e: Ending)
    // Lease operations, under the lease lock only.
    | Get(id: Id)
    | Delete(e: Ending, token: string)
    | Renew(id: Id, token: string)
    | Sweep(at: int)
    // The surroundings.
    | Tick(d: nat)
    | Flush(writeOk: bool)
    | Restart(backupOk: bool)

  // ----- Registration steps -----

  predicate FreshID(b: Book, q: Request, regID: Id) {
    && regID !in b.issued && regID !in b.containers
    && (q.source == Docker ==> q.containerID !in b.issued && q.containerID != regID)
  }

  function BeginStep(c: Config, w: World, q: Request, regID: Id): World {
    if !w.phase.Idle? || !FreshID(w.book, q, regID) then w
    else match Admit(c, w.reg, q, regID)
      case Err(_) => w
      case Ok(t) => w.(phase := Checked(t), book := Issued(w.book, t))
  }

  function Issued(b: Book, t: Ticket): Book {
    b.(issued := b.issued[t.regID := t.name],
       containers := if t.source == Docker then b.containers + {t.producerID} else b.containers)
  }

  /** The lease of `id` is over. */
  function Over(b: Book, id: Id): Book {
    b.(leases := b.leases - {id}, ended := if id in b.leases then b.ended + multiset{id} else b.ended)
  }

  function RetireStep(w: World): World {
    if !w.phase.Checked? then w
    else
      var t := w.phase.t;
      w.(phase := Retired(t), book := if Retires(w.reg, t) then Over(w.book, w.reg[t.name].producerID) else w.book)
  }

  predicate NeedsRuntime(w: World) {
    w.phase.Retired? && w.phase.t.kind == TCP && w.phase.t.name !in w.fronts.runtimes
  }

  function CandidatesFor(c: Config, w: World): seq<int>
    requires !w.phase.Idle?
  {
    F.Candidates(c, w.phase.t.name, S.Remembered(w.fronts.store, w.phase.t.name), w.phase.t.preferred)
  }

  function ReuseStep(w: World): World {
    if w.phase.Retired? && w.phase.t.kind == TCP && w.phase.t.name in w.fronts.runtimes
    then w.(phase := Fronted(w.phase.t, Port(w.fronts.runtimes[w.phase.t.name])))
    else w
  }

  /** Binding succeeds on some candidate; the earlier ones were refused by the host. */
  function BindStep(c: Config, w: World, k: nat): World {
    if NeedsRuntime(w) && k < |CandidatesFor(c, w)| && F.Bindable(w.fronts.bound, CandidatesFor(c, w)[k])
    then
      var port := CandidatesFor(c, w)[k];
      w.(phase := Listening(w.phase.t, port), fronts := w.fronts.(bound := w.fronts.bound + {port}))
    else w
  }

  function ExhaustStep(w: World): World {
    if NeedsRuntime(w) then w.(phase := Idle) else w
  }

  function WebStep(c: Config, w: World): World {
    if w.phase.Retired? && w.phase.t.kind == HTTP
    then w.(phase := Fronted(w.phase.t, R.FrontendURL(c, w.phase.t.hostname)))
    else w
  }

  function PersistStep(w: World, writeOk: bool): World {
    if !w.phase.Listening? then w
    else
      var (t, port) := (w.phase.t, w.phase.port);
      var (store, ok) := S.PortSet(w.fronts.store, t.name, port, writeOk);
      if ok then
        w.(phase := Fronted(t, Port(port)),
           fronts := F.Fronts(w.fronts.bound, w.fronts.runtimes[t.name := port], store))
      else
        w.(phase := Idle, fronts := w.fronts.(bound := w.fronts.bound - {port}, store := store))
  }

  function InstallStep(w: World): World {
    if !w.phase.Fronted? then w
    else
      var t := w.phase.t;
      if Claimable(w.reg, t.name, t.ownerKey)
      then w.(phase := Installed(t), reg := w.reg[t.name := RecordOf(t, w.phase.frontend)])
      else w.(phase := Idle)
  }

  function RouteStep(w: World): World {
    if !w.phase.Installed? then w
    else
      var t := w.phase.t;
      w.(phase := Routed(t), routes := if t.kind == HTTP then R.Routed(w.routes, t.hostname, t.name) else w.routes)
  }

  predicate AwaitsLease(w: World) { w.phase.Routed? && w.phase.t.source != Docker }

  function Granted(b: Book, e: L.Entry): Book {
    b.(granted := b.granted + {e.id}, leases := b.leases[e.id := e])
  }

  function GrantStep(w: World, token: string): World {
    if !AwaitsLease(w) then w
    else
      var t := w.phase.t;
      w.(phase := Idle, book := Granted(w.book, L.NewEntry(t.regID, t.name, t.ownerKey, token, t.ttl, w.clock)))
  }

  function Stranding(b: Book, id: Id): Book { b.(stranded := b.stranded + {id}) }

  /** The token generator failed: the record stays, the caller gets an error. */
  function NoTokenStep(w: World): World {
    if AwaitsLease(w) then w.(phase := Idle, book := Stranding(w.book, w.phase.t.regID)) else w
  }

  function DoneStep(w: World): World {
    if w.phase.Routed? && w.phase.t.source == Docker then w.(phase := Idle) else w
  }

  // ----- Steps of the others -----

  function EndStep(w: World, e: Ending): World {
    if w.phase.Idle? && e in w.book.pending
    then w.(reg := Cleared(w.reg, e.name, e.id), book := w.book.(pending := w.book.pending - {e}))
    else w
  }

  function ForgetStep(w: World, e: Ending): World {
    if w.phase.Idle? && e.id !in w.book.issued
    then w.(reg := Cleared(w.reg, e.name, e.id), book := w.book.(containers := w.book.containers + {e.id}))
    else w
  }

  function Fetch(b: Book, id: Id): Book {
    if id in b.leases then b.(fetched := b.fetched + {Ending(b.leases[id].name, id)}) else b
  }

  function Deleted(b: Book, e: Ending, token: string): Book {
    if e in b.fetched && L.Deletion(b.leases, e.id, token).1.None?
    then Over(b, e.id).(pending := b.pending + {e})
    else b
  }

  /** A renewal that comes at or after the deadline, before the sweeper. */
  predicate LateRenewal(b: Book, id: Id, now: int) {
    id in b.leases && L.Elapsed(b.leases[id], now)
  }

  function Prolonged(b: Book, id: Id, now: int): Book
    requires id in b.leases
  {
    b.(leases := b.leases[id := b.leases[id].(expiresAt := now + b.leases[id].ttl)])
  }

  function Renewed(b: Book, id: Id, token: string, now: int): Book {
    if id !in b.leases then b
    else if LateRenewal(b, id, now) then Stranding(Over(b, id), id)
    else if b.leases[id].token != token then b
    else Prolonged(b, id, now)
  }

  /** The table changes just as the lease manager changes it. */
  lemma RenewedTable(b: Book, id: Id, token: string, now: int)
    ensures Renewed(b, id, token, now).leases == L.Renewal(b.leases, id, token, now).0
  {}

  function Swept(b: Book, at: int): Book {
    var taken := L.Overdue(b.leases, at);
    b.(leases := L.Surviving(b.leases, at),
       pending := b.pending + (set id | id in taken :: Ending(b.leases[id].name, id)),
       ended := b.ended + multiset(taken))
  }

  /** A crash loses everything but the state file; issued IDs are never reused. */
  function RestartStep(w: World, backupOk: bool): World {
    var file := w.fronts.store.file;
    match S.Loaded(file, backupOk)
    case Err(_) => w
    case Ok(mem) => Fresh(w.clock, w.book.issued, w.book.containers, mem, file)
  }

  function Fresh(clock: int, issued: map<Id, Name>, containers: set<Id>, mem: S.Model, file: S.File): World {
    World(clock, map[], Book(map[], {}, {}, issued, containers, {}, multiset{}, {}),
          F.Fronts({}, map[], S.State(mem, false, file)), map[], Idle)
  }

  /** A daemon just started over an arbitrary file that Load accepts. */
  ghost predicate Init(w: World) {
    exists mem, file, backupOk ::
      S.Loaded(file, backupOk) == Ok(mem) && w == Fresh(w.clock, map[], {}, mem, file)
  }

  function Apply(c: Config, w: World, l: Label): World {
    match l
    case Begin(q, regID) => BeginStep(c, w, q, regID)
    case Retire => RetireStep(w)
    case Reuse => ReuseStep(w)
    case Bind(k) => BindStep(c, w, k)
    case Exhaust => ExhaustStep(w)
    case Persist(ok) => PersistStep(w, ok)
    case Web => WebStep(c, w)
    case Install => InstallStep(w)
    case Route => RouteStep(w)
    case Grant(token) => GrantStep(w, token)
    case NoToken => NoTokenStep(w)
    case Done => DoneStep(w)
    case End(e) => EndStep(w, e)
    case Forget(e) => ForgetStep(w, e)
    case Get(id) => w.(book := Fetch(w.book, id))
    case Delete(e, token) => w.(book := Deleted(w.book, e, token))
    case Renew(id, token) => w.(book := Renewed(w.book, id, token, w.clock))
    case Sweep(at) => if at <= w.clock then w.(book := Swept(w.book, at)) else w
    case Tick(d) => w.(clock := w.clock + d)
    case Flush(ok) => w.(fronts := w.fronts.(store := S.Flushed(w.fronts.store, ok)))
    case Restart(ok) => RestartStep(w, ok)
  }

  function Exec(c: Config, w: World, ls: seq<Label>): World {
    if ls == [] then w else Apply(c, Exec(c, w, ls[..|ls| - 1]), ls[|ls| - 1])
  }

  // ----- What every run keeps -----

  /** A ready publication that should hold a lease. */
  predicate Leased(rec: Record) { rec.status == Ready && rec.source != Docker }

  /** The record is in place and the lease still to be added. */
  predicate AfterInstall(phase: Phase) { phase.Installed? || phase.Routed? }

  /** Until the record is installed, the checks of Begin still hold; from retirement
      on no lease carries the name. */
  ghost predicate PhaseInv(reg: Services, b: Book, phase: Phase) {
    !phase.Idle? ==>
      var t := phase.t;
      && t.regID in b.issued && b.issued[t.regID] == t.name && t.regID !in b.granted && t.regID !in b.stranded
      && (forall e :: e in b.pending + b.fetched ==> e.id != t.regID)
      && (t.source != Docker ==> MIN_TTL <= t.ttl <= MAX_TTL)
      && (if t.source == Docker then t.producerID in b.containers else t.producerID == t.regID)
      && (phase.Checked? || forall id :: id in b.leases ==> b.leases[id].name != t.name)
      && (if AfterInstall(phase) then
            t.name in reg && reg[t.name] == RecordOf(t, reg[t.name].frontend)
          else
            Compatible(reg, t) && Claimable(reg, t.name, t.ownerKey))
  }

  /** Registration IDs are never container IDs and never change name. */
  ghost predicate IdInv(reg: Services, b: Book) {
    && b.issued.Keys !! b.containers
    && (forall n :: n in reg ==>
          var id := reg[n].producerID;
          if reg[n].source == Docker then id in b.containers else id in b.issued && b.issued[id] == n)
    && b.granted <= b.issued.Keys && b.stranded <= b.issued.Keys
    && (forall e :: e in b.pending + b.fetched ==> e.id in b.issued && b.issued[e.id] == e.name)
  }

  /** Each lease belongs to the current, ready publication of its name. */
  ghost predicate LeaseInv(reg: Services, leases: L.Table) {
    forall id :: id in leases ==>
      var e := leases[id];
      && e.id == id && MIN_TTL <= e.ttl <= MAX_TTL
      && e.name in reg && Leased(reg[e.name]) && reg[e.name].producerID == id && reg[e.name].ownerKey == e.ownerKey
  }

  /** Every granted lease is live or was ended, exactly one of the two, and once; what
      is being ended or was left behind is not live. */
  ghost predicate OnceInv(b: Book) {
    && (forall id :: (if id in b.leases then 1 else 0) + b.ended[id] == (if id in b.granted then 1 else 0))
    && (forall e :: e in b.pending ==> e.id in b.granted && e.id !in b.leases && e.id !in b.stranded)
    && (forall id :: id in b.stranded ==> id !in b.leases)
  }

  /** The registration in hand is about to replace the record of `n`, or has just
      installed it and not yet added its lease. */
  predicate InHand(reg: Services, phase: Phase, n: Name) {
    !phase.Idle? && phase.t.name == n && (AfterInstall(phase) || (!phase.Checked? && Retires(reg, phase.t)))
  }

  predicate Accounted(reg: Services, b: Book, phase: Phase, n: Name)
    requires n in reg
  {
    var id := reg[n].producerID;
    id in b.leases || Ending(n, id) in b.pending || id in b.stranded || InHand(reg, phase, n)
  }

  ghost predicate LiveInv(reg: Services, b: Book, phase: Phase) {
    forall n :: n in reg && Leased(reg[n]) ==> Accounted(reg, b, phase, n)
  }

  /** The ports a restarted daemon would remember. */
  function OnDisk(s: S.State): S.Ports {
    var loaded := S.Loaded(s.file, true);
    if loaded.Ok? then loaded.value.ports else map[]
  }

  /** Every runtime's port is its own, bound, remembered and on disk, and nothing else
      is bound but the port of a runtime about to be created. */
  ghost predicate PortInv(f: F.Fronts, phase: Phase) {
    && S.Sound(f.store)
    && (forall n :: n in f.runtimes ==>
          && 1 <= f.runtimes[n] <= 65535
          && n in f.store.mem.ports && f.store.mem.ports[n] == f.runtimes[n]
          && n in OnDisk(f.store) && OnDisk(f.store)[n] == f.runtimes[n])
    && (forall m, n :: m in f.runtimes && n in f.runtimes && m != n ==> f.runtimes[m] != f.runtimes[n])
    && f.bound == f.runtimes.Values + (if phase.Listening? then {phase.port} else {})
    && (phase.Listening? ==>
          phase.t.kind == TCP && phase.t.name !in f.runtimes && 1 <= phase.port <= 65535
          && phase.port !in f.runtimes.Values)
  }

  /** Runtimes are exactly the TCP services, but for the one being registered. */
  ghost predicate RuntimeInv(reg: Services, runtimes: map<Name, int>, phase: Phase) {
    && (forall n :: n in reg && reg[n].kind == TCP ==> n in runtimes && reg[n].frontend == Port(runtimes[n]))
    && (forall n :: n in runtimes ==>
          (n in reg && reg[n].kind == TCP) || (phase.Fronted? && phase.t.name == n && phase.t.kind == TCP))
    && (phase.Fronted? && phase.t.kind == TCP ==>
          phase.t.name in runtimes && phase.frontend == Port(runtimes[phase.t.name]))
  }

  ghost predicate UrlInv(c: Config, reg: Services, phase: Phase) {
    && (forall n :: n in reg && reg[n].kind == HTTP ==>
          Hosts.Accepted(reg[n].hostname) && reg[n].frontend == R.FrontendURL(c, reg[n].hostname))
    && (!phase.Idle? && phase.t.kind == HTTP ==> Hosts.Accepted(phase.t.hostname))
    && (phase.Fronted? && phase.t.kind == HTTP ==> phase.frontend == R.FrontendURL(c, phase.t.hostname))
  }

  /** A route's key is the host in the URL of the service it leads to, and every HTTP
      service has a route but for the one being registered. */
  ghost predicate RouteInv(reg: Services, routes: R.Routes, phase: Phase) {
    && NamesMatch(reg) && HostsUnique(reg)
    && (forall n :: n in reg ==> if reg[n].kind == HTTP then reg[n].frontend.Url? else reg[n].hostname == "")
    && (forall k :: k in routes ==>
          routes[k] in reg && reg[routes[k]].kind == HTTP && reg[routes[k]].frontend.host == k)
    && (forall n :: n in reg && reg[n].kind == HTTP ==>
          reg[n].frontend.host in routes || (phase.Installed? && phase.t.name == n))
    && (!phase.Idle? && phase.t.kind == TCP ==> phase.t.hostname == "")
    && (phase.Fronted? && phase.t.kind == HTTP ==>
          phase.frontend.Url? && (phase.t.name in reg ==> phase.frontend == reg[phase.t.name].frontend))
  }

  ghost predicate BookInv(reg: Services, b: Book, phase: Phase) {
    PhaseInv(reg, b, phase) && IdInv(reg, b) && LeaseInv(reg, b.leases) && OnceInv(b) && LiveInv(reg, b, phase)
  }

  ghost predicate FrontInv(c: Config, reg: Services, f: F.Fronts, routes: R.Routes, phase: Phase) {
    PortInv(f, phase) && RuntimeInv(reg, f.runtimes, phase) && UrlInv(c, reg, phase) && RouteInv(reg, routes, phase)
  }

  ghost predicate Inv(c: Config, w: World) {
    ValidConfig(c) && BookInv(w.reg, w.book, w.phase) && FrontInv(c, w.reg, w.fronts, w.routes, w.phase)
  }
}
