/** What holds over every run of the daemon, from any start and under any
    interleaving of registrations, heartbeats, deletions, sweeps, container events,
    failed writes and crashes. */
module Theorems {
  import opened Types
  import opened Registry
  import opened Admission
  import opened World
  import opened WorldInvariants
  import L = Leases
  import S = Store
  import F = Frontends
  import R = Router
  import Hosts
  import DockerWatch

  // ----- Leases and publications -----

  /** Every lease stands for the current, ready publication of its name, under its own
      ID and owner key, and a name has at most one lease. */
  lemma LeasesAgreeWithRecords(c: Config, w0: World, ls: seq<Label>, id: Id, other: Id)
    requires ValidConfig(c) && Init(w0)
    requires id in Exec(c, w0, ls).book.leases
    ensures var w := Exec(c, w0, ls);
      var e := w.book.leases[id];
      && MIN_TTL <= e.ttl <= MAX_TTL
      && e.name in w.reg
      && w.reg[e.name].status == Ready && w.reg[e.name].source != Docker
      && w.reg[e.name].producerID == id && w.reg[e.name].ownerKey == e.ownerKey
      && (other in w.book.leases && w.book.leases[other].name == e.name ==> other == id)
  {
    InitKeeps(c, w0);
    RunKeeps(c, w0, ls);
  }

  /** The two steps after which a ready publication is left without a lease. */
  predicate Strands(w: World, l: Label) {
    (l.Renew? && LateRenewal(w.book, l.id, w.clock)) || (l.NoToken? && AwaitsLease(w))
  }

  /** No such step occurs along the run. */
  predicate NeverStrands(c: Config, w: World, ls: seq<Label>) {
    ls == [] || (NeverStrands(c, w, ls[..|ls| - 1]) && !Strands(Exec(c, w, ls[..|ls| - 1]), ls[|ls| - 1]))
  }

  /** The step leaves the publication of `id` without a lease. */
  predicate StrandsId(w: World, l: Label, id: Id) {
    || (l.Renew? && l.id == id && LateRenewal(w.book, id, w.clock))
    || (l.NoToken? && AwaitsLease(w) && w.phase.t.regID == id)
  }

  /** The step loses all state but the file. */
  predicate Restarts(w: World, l: Label) { l.Restart? && S.Loaded(w.fronts.store.file, l.backupOk).Ok? }

  /** Along the run, and since the last restart, a late renewal of `id` or a failure to
      make its token has occurred. */
  predicate StrandedAlong(c: Config, w: World, ls: seq<Label>, id: Id) {
    ls != [] &&
    var v, l := Exec(c, w, ls[..|ls| - 1]), ls[|ls| - 1];
    !Restarts(v, l) && (StrandedAlong(c, w, ls[..|ls| - 1], id) || StrandsId(v, l, id))
  }

  lemma StrandedBy(c: Config, w: World, l: Label, id: Id)
    ensures id in Apply(c, w, l).book.stranded <==> !Restarts(w, l) && (id in w.book.stranded || StrandsId(w, l, id))
  {}

  /** The set of stranded publications is exactly what the steps of the run say. */
  lemma {:induction false} StrandedIffAlong(c: Config, w: World, ls: seq<Label>, id: Id)
    requires w.book.stranded == {}
    ensures id in Exec(c, w, ls).book.stranded <==> StrandedAlong(c, w, ls, id)
  {
    if ls != [] {
      StrandedIffAlong(c, w, ls[..|ls| - 1], id);
      StrandedBy(c, Exec(c, w, ls[..|ls| - 1]), ls[|ls| - 1], id);
    }
  }

  lemma StrandedStep(c: Config, w: World, l: Label)
    requires !Strands(w, l)
    ensures Apply(c, w, l).book.stranded <= w.book.stranded
  {}

  lemma {:induction false} NothingStranded(c: Config, w: World, ls: seq<Label>)
    requires w.book.stranded == {} && NeverStrands(c, w, ls)
    ensures Exec(c, w, ls).book.stranded == {}
  {
    if ls != [] {
      NothingStranded(c, w, ls[..|ls| - 1]);
      StrandedStep(c, Exec(c, w, ls[..|ls| - 1]), ls[|ls| - 1]);
    }
  }

  /** In a run without them every ready leased record holds its lease, or its end is
      pending, or the registration in hand is about to settle it. */
  lemma LiveBackendsAreLeased(c: Config, w0: World, ls: seq<Label>, n: Name)
    requires ValidConfig(c) && Init(w0) && NeverStrands(c, w0, ls)
    requires var w := Exec(c, w0, ls); n in w.reg && Leased(w.reg[n])
    ensures var w := Exec(c, w0, ls);
      || w.reg[n].producerID in w.book.leases
      || Ending(n, w.reg[n].producerID) in w.book.pending
      || InHand(w.reg, w.phase, n)
  {
    InitKeeps(c, w0);
    NothingStranded(c, w0, ls);
    RunKeeps(c, w0, ls);
  }

  /** So a dead producer leaves nothing behind: in such a run, when the daemon is idle, no
      end is pending and no lease is overdue, every ready leased record has its lease, with
      time left. */
  lemma NothingStaleAtRest(c: Config, w0: World, ls: seq<Label>, n: Name)
    requires ValidConfig(c) && Init(w0) && NeverStrands(c, w0, ls)
    requires var w := Exec(c, w0, ls);
      && w.phase.Idle? && w.book.pending == {} && L.Overdue(w.book.leases, w.clock) == {}
      && n in w.reg && Leased(w.reg[n])
    ensures var w := Exec(c, w0, ls);
      var id := w.reg[n].producerID;
      id in w.book.leases && w.book.leases[id].name == n && w.clock < w.book.leases[id].expiresAt
  {
    LiveBackendsAreLeased(c, w0, ls, n);
    InitKeeps(c, w0);
    RunKeeps(c, w0, ls);
    var w := Exec(c, w0, ls);
    var id := w.reg[n].producerID;
    assert IdInv(w.reg, w.book) && LeaseInv(w.reg, w.book.leases);
    assert id !in L.Overdue(w.book.leases, w.clock);
  }

  // ----- Displacement -----

  /** The steps that may make a ready record stop being current: the end of its own
      publication, pending or sent by its own container, a registration by its own
      owner, and a restart. */
  predicate Displaces(w: World, l: Label, rec: Record) {
    match l
    case End(e) => e == Ending(rec.name, rec.producerID) && e in w.book.pending
    case Forget(e) => e == Ending(rec.name, rec.producerID) && e.id !in w.book.issued
    case Install => w.phase.Fronted? && w.phase.t.name == rec.name && w.phase.t.ownerKey == rec.ownerKey
    case Restart(_) => Restarts(w, l)
    case _ => false
  }

  lemma RegFrame(c: Config, w: World, l: Label)
    requires !l.Install? && !l.End? && !l.Forget? && !l.Restart?
    ensures Apply(c, w, l).reg == w.reg
  {}

  lemma StepLeavesRecord(c: Config, w: World, l: Label, n: Name)
    requires NamesMatch(w.reg) && n in w.reg && w.reg[n].status == Ready && !Displaces(w, l, w.reg[n])
    ensures n in Apply(c, w, l).reg && Apply(c, w, l).reg[n] == w.reg[n]
  {
    if !l.Install? && !l.End? && !l.Forget? && !l.Restart? {
      RegFrame(c, w, l);
    }
  }

  /** Some step of the run displaces the record. */
  predicate Displaced(c: Config, w: World, ls: seq<Label>, rec: Record) {
    ls != [] &&
    (Displaced(c, w, ls[..|ls| - 1], rec) || Displaces(Exec(c, w, ls[..|ls| - 1]), ls[|ls| - 1], rec))
  }

  /** Over any run a ready record stays exactly as it is until such a step. An end for
      an older publication, however late, is none. */
  lemma {:induction false} NoWrongfulDisplacement(c: Config, w: World, ls: seq<Label>, n: Name)
    requires Inv(c, w) && n in w.reg && w.reg[n].status == Ready && !Displaced(c, w, ls, w.reg[n])
    ensures n in Exec(c, w, ls).reg && Exec(c, w, ls).reg[n] == w.reg[n]
  {
    if ls != [] {
      var front := ls[..|ls| - 1];
      NoWrongfulDisplacement(c, w, front, n);
      RunKeeps(c, w, front);
      StepLeavesRecord(c, Exec(c, w, front), ls[|ls| - 1], n);
    }
  }

  /** A pending end is the end of a lease that was granted and is over. */
  lemma PendingMeansEnded(c: Config, w0: World, ls: seq<Label>, e: Ending)
    requires ValidConfig(c) && Init(w0) && e in Exec(c, w0, ls).book.pending
    ensures var b := Exec(c, w0, ls).book; e.id in b.granted && e.id !in b.leases && b.ended[e.id] == 1
  {
    InitKeeps(c, w0);
    RunKeeps(c, w0, ls);
  }

  // ----- Each lease ends once, and for good -----

  /** Live leases and ends add up to the leases granted, ID by ID. */
  lemma EachLeaseEndsOnce(c: Config, w0: World, ls: seq<Label>, id: Id)
    requires ValidConfig(c) && Init(w0)
    ensures var b := Exec(c, w0, ls).book;
      (if id in b.leases then 1 else 0) + b.ended[id] == (if id in b.granted then 1 else 0)
  {
    InitKeeps(c, w0);
    RunKeeps(c, w0, ls);
  }

  /** An issued ID that holds no lease and is not about to get one. */
  predicate Spent(w: World, id: Id) {
    id in w.book.issued && id !in w.book.leases && (w.phase.Idle? || w.phase.t.regID != id)
  }

  lemma LeaseFrame(c: Config, w: World, l: Label)
    requires !l.Grant?
    ensures Apply(c, w, l).book.leases.Keys <= w.book.leases.Keys
  {}

  lemma SpentStep(c: Config, w: World, l: Label, id: Id)
    requires Spent(w, id)
    ensures Spent(Apply(c, w, l), id)
  {
    IssuedStep(c, w, l);
    if !l.Grant? {
      LeaseFrame(c, w, l);
    }
    if !l.Begin? && !l.Restart? {
      PhaseFrame(c, w, l);
    }
  }

  /** Over and done with, and not left behind either. */
  predicate Gone(w: World, id: Id) { Spent(w, id) && id !in w.book.stranded }

  lemma {:induction false} StaysGone(c: Config, w: World, ls: seq<Label>, id: Id)
    requires Gone(w, id)
    ensures Gone(Exec(c, w, ls), id)
  {
    if ls != [] {
      StaysGone(c, w, ls[..|ls| - 1], id);
      SpentStep(c, Exec(c, w, ls[..|ls| - 1]), ls[|ls| - 1], id);
      StrandedBy(c, Exec(c, w, ls[..|ls| - 1]), ls[|ls| - 1], id);
    }
  }

  lemma SweptIsGone(c: Config, w: World, at: int, id: Id)
    requires Inv(c, w) && id in L.Overdue(w.book.leases, at)
    ensures Gone(w.(book := Swept(w.book, at)), id)
  {
    assert OnceInv(w.book) && id in w.book.granted;
  }

  /** A sweep interleaved with everything else: whatever happens after it took the lease,
      once the end it left pending has been carried out and no registration is in hand, no
      ready record belongs to that publication. */
  lemma SweepTakesEffect(c: Config, w: World, at: int, ls: seq<Label>, id: Id, n: Name)
    requires Inv(c, w) && at <= w.clock && id in L.Overdue(w.book.leases, at)
    requires var v := Exec(c, w.(book := Swept(w.book, at)), ls);
      v.phase.Idle? && Ending(n, id) !in v.book.pending && n in v.reg && Leased(v.reg[n])
    ensures Exec(c, w.(book := Swept(w.book, at)), ls).reg[n].producerID != id
  {
    var w1 := w.(book := Swept(w.book, at));
    SweptBook(w.reg, w.book, w.phase, at);
    SweptIsGone(c, w, at, id);
    StaysGone(c, w1, ls, id);
    RunKeeps(c, w1, ls);
    assert Accounted(Exec(c, w1, ls).reg, Exec(c, w1, ls).book, Exec(c, w1, ls).phase, n);
  }

  /** An issued ID whose lease, if it is still in the table, is past its deadline, and
      that is not about to get another. */
  predicate Dead(w: World, id: Id) {
    && id in w.book.issued && (w.phase.Idle? || w.phase.t.regID != id)
    && (id in w.book.leases ==> L.Elapsed(w.book.leases[id], w.clock))
  }

  /** No step but a renewal changes an entry of the table, or puts back one that is
      gone; and none turns the clock back. */
  lemma EntryFrame(c: Config, w: World, l: Label, id: Id)
    requires !l.Renew? && id in w.book.issued && (w.phase.Idle? || w.phase.t.regID != id)
    ensures w.clock <= Apply(c, w, l).clock
    ensures id in Apply(c, w, l).book.leases ==>
      id in w.book.leases && Apply(c, w, l).book.leases[id] == w.book.leases[id]
  {}

  lemma DeadFrame(c: Config, w: World, l: Label, id: Id)
    requires Dead(w, id)
    ensures id in Apply(c, w, l).book.leases ==> L.Elapsed(Apply(c, w, l).book.leases[id], Apply(c, w, l).clock)
  {
    hide Apply;
    if l.Renew? {
      RenewStep(c, w, l.id, l.token);
    } else {
      EntryFrame(c, w, l, id);
    }
  }

  lemma DeadStep(c: Config, w: World, l: Label, id: Id)
    requires Dead(w, id)
    ensures Dead(Apply(c, w, l), id)
  {
    IssuedStep(c, w, l);
    DeadFrame(c, w, l, id);
    if !l.Begin? && !l.Restart? {
      PhaseFrame(c, w, l);
    }
  }

  /** Every lease past its deadline is dead, swept or not. */
  lemma ElapsedIsDead(c: Config, w: World, id: Id)
    requires Inv(c, w) && id in w.book.leases && L.Elapsed(w.book.leases[id], w.clock)
    ensures Dead(w, id)
  {
    assert OnceInv(w.book) && id in w.book.granted;
  }

  /** From its deadline on no renewal of a lease ever succeeds, whatever happens in
      between, across restarts; and once it has been removed no deletion finds it. */
  lemma {:induction false} ExpiryIsFinal(c: Config, w: World, ls: seq<Label>, id: Id, token: string)
    requires Dead(w, id)
    ensures var w' := Exec(c, w, ls);
      && Dead(w', id) && L.Renewal(w'.book.leases, id, token, w'.clock).1 == Err(L.NotFound)
      && (Spent(w, id) ==> Spent(w', id) && L.Deletion(w'.book.leases, id, token) == (w'.book.leases, Some(L.NotFound)))
  {
    if ls != [] {
      var v := Exec(c, w, ls[..|ls| - 1]);
      ExpiryIsFinal(c, w, ls[..|ls| - 1], id, token);
      DeadStep(c, v, ls[|ls| - 1], id);
      if Spent(w, id) {
        SpentStep(c, v, ls[|ls| - 1], id);
      }
    }
  }

  /** What is fixed about the lease of an issued ID: all of it but the deadline. */
  predicate OnTerms(w: World, id: Id, e: L.Entry) {
    && id in w.book.issued && (w.phase.Idle? || w.phase.t.regID != id)
    && (id in w.book.leases ==> w.book.leases[id] == e.(expiresAt := w.book.leases[id].expiresAt))
  }

  lemma TermsFrame(c: Config, w: World, l: Label, id: Id)
    requires id in w.book.issued && (w.phase.Idle? || w.phase.t.regID != id)
    ensures id in Apply(c, w, l).book.leases ==>
      id in w.book.leases
      && Apply(c, w, l).book.leases[id] == w.book.leases[id].(expiresAt := Apply(c, w, l).book.leases[id].expiresAt)
  {
    hide Apply;
    if l.Renew? {
      RenewStep(c, w, l.id, l.token);
    } else {
      EntryFrame(c, w, l, id);
    }
  }

  lemma TermsStep(c: Config, w: World, l: Label, id: Id, e: L.Entry)
    requires OnTerms(w, id, e)
    ensures OnTerms(Apply(c, w, l), id, e)
  {
    IssuedStep(c, w, l);
    TermsFrame(c, w, l, id);
    if !l.Begin? && !l.Restart? {
      PhaseFrame(c, w, l);
    }
  }

  /** No renewal, replacement or restart changes the TTL, the token, the name or the
      owner of a lease: for as long as it exists it is the one that was granted. */
  lemma {:induction false} LeaseTermsFixed(c: Config, w: World, ls: seq<Label>, id: Id)
    requires Inv(c, w) && id in w.book.leases
    ensures OnTerms(Exec(c, w, ls), id, w.book.leases[id])
  {
    if ls == [] {
      assert OnceInv(w.book) && id in w.book.granted;
    } else {
      LeaseTermsFixed(c, w, ls[..|ls| - 1], id);
      TermsStep(c, Exec(c, w, ls[..|ls| - 1]), ls[|ls| - 1], id, w.book.leases[id]);
    }
  }

  // ----- The late renewal -----

  /** A record whose publication was left without a lease, nobody being about to
      replace it. */
  predicate Stuck(w: World, rec: Record) {
    && rec.name in w.reg && w.reg[rec.name] == rec && Leased(rec)
    && rec.producerID in w.book.stranded
    && (w.phase.Idle? || w.phase.t.name != rec.name)
  }

  /** A heartbeat that reaches an expired lease before the sweeper does is answered
      like an unknown one, and leaves the record ready with nothing to end it. */
  lemma LateRenewalSticks(c: Config, w: World, id: Id, token: string)
    requires Inv(c, w) && LateRenewal(w.book, id, w.clock)
    requires w.phase.Idle? || w.phase.t.name != w.book.leases[id].name
    ensures L.Renewal(w.book.leases, id, token, w.clock).1 == Err(L.NotFound)
    ensures w.book.leases[id].name in w.reg && w.reg[w.book.leases[id].name].producerID == id
    ensures Stuck(w.(book := Renewed(w.book, id, token, w.clock)), w.reg[w.book.leases[id].name])
  {
    assert LeaseInv(w.reg, w.book.leases) && NamesMatch(w.reg);
    assert id in Renewed(w.book, id, token, w.clock).stranded;
  }

  /** Requests that could free the name again: those of the record's own owner. */
  predicate Reclaims(l: Label, rec: Record) {
    l.Restart? || (l.Begin? && OwnerKeyOf(l.q, l.regID) == rec.ownerKey && l.regID != rec.producerID)
  }

  lemma BeginLeavesStuck(c: Config, w: World, q: Request, regID: Id, rec: Record)
    requires Stuck(w, rec) && rec.producerID in w.book.issued
    requires OwnerKeyOf(q, regID) != rec.ownerKey || regID == rec.producerID
    ensures Stuck(BeginStep(c, w, q, regID), rec)
  {
    if q.name == rec.name && w.phase.Idle? && FreshID(w.book, q, regID) {
      StuckRefuses(c, w, rec, q, regID);
    }
  }

  lemma StuckRefuses(c: Config, w: World, rec: Record, q: Request, regID: Id)
    requires Stuck(w, rec) && q.name == rec.name && OwnerKeyOf(q, regID) != rec.ownerKey
    ensures Admit(c, w.reg, q, regID).Err?
  {}

  /** The registration in hand keeps its ticket, and nothing unstrands an ID. */
  lemma PhaseFrame(c: Config, w: World, l: Label)
    requires !l.Begin? && !l.Restart?
    ensures var v := Apply(c, w, l); (v.phase.Idle? || (!w.phase.Idle? && v.phase.t == w.phase.t))
    ensures w.book.stranded <= Apply(c, w, l).book.stranded
  {}

  lemma StuckStep(c: Config, w: World, l: Label, rec: Record)
    requires NamesMatch(w.reg) && OnceInv(w.book) && rec.producerID in w.book.issued
    requires Stuck(w, rec) && !Reclaims(l, rec)
    ensures Stuck(Apply(c, w, l), rec)
  {
    if l.Begin? {
      BeginLeavesStuck(c, w, l.q, l.regID, rec);
    } else {
      PhaseFrame(c, w, l);
      StepLeavesRecord(c, w, l, rec.name);
    }
  }

  /** No step of the run frees the name. */
  predicate NeverReclaimed(ls: seq<Label>, rec: Record) {
    forall i :: 0 <= i < |ls| ==> !Reclaims(ls[i], rec)
  }

  /** In every later run the dead producer's record stays ready and every registration
      of the name under another owner key is refused. */
  lemma {:induction false} StuckForever(c: Config, w: World, ls: seq<Label>, rec: Record, q: Request, regID: Id)
    requires Inv(c, w) && Stuck(w, rec) && NeverReclaimed(ls, rec)
    requires q.name == rec.name && OwnerKeyOf(q, regID) != rec.ownerKey
    ensures Stuck(Exec(c, w, ls), rec)
    ensures Admit(c, Exec(c, w, ls).reg, q, regID).Err?
  {
    if ls != [] {
      var front := ls[..|ls| - 1];
      StuckForever(c, w, front, rec, q, regID);
      RunKeeps(c, w, front);
      StuckStep(c, Exec(c, w, front), ls[|ls| - 1], rec);
    }
    StuckRefuses(c, Exec(c, w, ls), rec, q, regID);
  }

  /** For a record of the public API no such owner exists: every ID issued later gives
      a different owner key, so until a restart the name is lost to everyone, the
      crashed producer included. */
  lemma PublicNameLost(c: Config, w: World, ls: seq<Label>, rec: Record, mine: Request, q: Request, regID: Id)
    requires Inv(c, w) && Stuck(w, rec)
    requires mine.ownerKey == "" && rec.ownerKey == OwnerKeyOf(mine, rec.producerID)
    requires forall i :: 0 <= i < |ls| ==>
      !ls[i].Restart? && (ls[i].Begin? ==> ls[i].q.ownerKey != rec.ownerKey)
    requires q.name == rec.name && q.ownerKey == "" && regID !in Exec(c, w, ls).book.issued
    ensures Admit(c, Exec(c, w, ls).reg, q, regID).Err?
  {
    forall i | 0 <= i < |ls| ensures !Reclaims(ls[i], rec) {
      if ls[i].Begin? && ls[i].q.ownerKey == "" && ls[i].regID != rec.producerID {
        OwnKeysDistinct(ls[i].q, ls[i].regID, mine, rec.producerID);
      }
    }
    IssuedGrows(c, w, ls, rec.producerID);
    OwnKeysDistinct(q, regID, mine, rec.producerID);
    StuckForever(c, w, ls, rec, q, regID);
  }

  lemma IssuedStep(c: Config, w: World, l: Label)
    ensures w.book.issued.Keys <= Apply(c, w, l).book.issued.Keys
  {}

  lemma {:induction false} IssuedGrows(c: Config, w: World, ls: seq<Label>, id: Id)
    requires id in w.book.issued
    ensures id in Exec(c, w, ls).book.issued
  {
    if ls != [] {
      IssuedGrows(c, w, ls[..|ls| - 1], id);
      IssuedStep(c, Exec(c, w, ls[..|ls| - 1]), ls[|ls| - 1]);
    }
  }

  // ----- Frontends -----

  predicate SameFrontend(r: Record, r': Record) {
    r'.kind == r.kind && r'.hostname == r.hostname && r'.frontend == r.frontend
  }

  /** The daemon does not restart along the run. */
  predicate NeverRestarts(c: Config, w: World, ls: seq<Label>) {
    ls == [] || (NeverRestarts(c, w, ls[..|ls| - 1]) && !Restarts(Exec(c, w, ls[..|ls| - 1]), ls[|ls| - 1]))
  }

  lemma InstallKeepsFrontend(c: Config, w: World, n: Name)
    requires PhaseInv(w.reg, w.book, w.phase) && RuntimeInv(w.reg, w.fronts.runtimes, w.phase)
    requires UrlInv(c, w.reg, w.phase) && RouteInv(w.reg, w.routes, w.phase) && n in w.reg
    ensures n in InstallStep(w).reg && SameFrontend(w.reg[n], InstallStep(w).reg[n])
  {
    if w.phase.Fronted? && w.phase.t.name == n {
      assert Claimable(w.reg, n, w.phase.t.ownerKey) && Compatible(w.reg, w.phase.t);
      assert w.reg[n].frontend == w.phase.frontend;
    }
  }

  lemma StepKeepsFrontend(c: Config, w: World, l: Label, n: Name)
    requires Inv(c, w) && n in w.reg && !Restarts(w, l)
    ensures n in Apply(c, w, l).reg && SameFrontend(w.reg[n], Apply(c, w, l).reg[n])
  {
    hide Apply, InstallStep;
    if l.Restart? {
      RestartIs(c, w, l.backupOk);
    } else if l.Install? {
      InstallIs(c, w);
      InstallKeepsFrontend(c, w, n);
    } else if l.End? || l.Forget? {
      EndSteps(c, w, l.e);
      StaleRemovalIgnored(w.reg, l.e.name, l.e.id, n);
    } else {
      RegFrame(c, w, l);
    }
  }

  /** Once a name has a record, its kind, hostname and frontend are settled until the
      daemon restarts, whoever registers, expires or takes over. */
  lemma {:induction false} FrontendPermanence(c: Config, w: World, ls: seq<Label>, n: Name)
    requires Inv(c, w) && n in w.reg && NeverRestarts(c, w, ls)
    ensures n in Exec(c, w, ls).reg && SameFrontend(w.reg[n], Exec(c, w, ls).reg[n])
  {
    if ls != [] {
      FrontendPermanence(c, w, ls[..|ls| - 1], n);
      RunKeeps(c, w, ls[..|ls| - 1]);
      StepKeepsFrontend(c, Exec(c, w, ls[..|ls| - 1]), ls[|ls| - 1], n);
    }
  }

  /** Between registrations the runtimes are exactly the TCP services, each on a bound
      port of its own that is remembered in memory and on disk; nothing else is bound. */
  lemma RuntimesMatchServices(c: Config, w0: World, ls: seq<Label>, m: Name, n: Name)
    requires ValidConfig(c) && Init(w0) && Exec(c, w0, ls).phase.Idle?
    ensures var w := Exec(c, w0, ls);
      var f := w.fronts;
      && (n in f.runtimes <==> n in w.reg && w.reg[n].kind == TCP)
      && f.bound == f.runtimes.Values
      && (n in f.runtimes ==>
            && w.reg[n].frontend == Port(f.runtimes[n])
            && S.Remembered(f.store, n) == f.runtimes[n]
            && n in OnDisk(f.store) && OnDisk(f.store)[n] == f.runtimes[n])
      && (m in f.runtimes && n in f.runtimes && m != n ==> f.runtimes[m] != f.runtimes[n])
  {
    InitKeeps(c, w0);
    RunKeeps(c, w0, ls);
  }

  /** Crash at any step, in any phase, after any failed writes: the next daemon starts,
      offers every live runtime's port first, and needs no further write to keep it. */
  lemma CrashKeepsFrontends(c: Config, w: World, backupOk: bool, n: Name, preferred: int, writeOk: bool)
    requires PortInv(w.fronts, w.phase) && n in w.fronts.runtimes
    ensures var p := w.fronts.runtimes[n];
      var s := RestartStep(w, backupOk).fronts.store;
      && S.Loaded(w.fronts.store.file, backupOk).Ok?
      && RestartStep(w, backupOk).fronts.bound == {}
      && S.Remembered(s, n) == p && !s.dirty
      && F.Candidates(c, n, p, preferred) != [] && F.Candidates(c, n, p, preferred)[0] == p
      && S.PortSet(s, n, p, writeOk) == (s, true)
  {
    assert OnDisk(w.fronts.store)[n] == w.fronts.runtimes[n];
  }

  /** A daemon started over any document that Load accepts, of whatever version, remembers
      each of its ports, tries a port other than 0 first for its name, and needs no write to
      keep it. */
  lemma StartsFromFile(c: Config, clock: int, v: int, ports: S.Ports, backupOk: bool, n: Name, preferred: int,
                       writeOk: bool)
    requires v <= 1 && n in ports && ports[n] != 0
    ensures var file := S.Doc(v, Some(ports));
      && S.Loaded(file, backupOk).Ok?
      && var w := Fresh(clock, map[], {}, S.Loaded(file, backupOk).value, file);
         && Init(w) && S.Remembered(w.fronts.store, n) == ports[n]
         && F.Candidates(c, n, ports[n], preferred) != [] && F.Candidates(c, n, ports[n], preferred)[0] == ports[n]
         && S.PortSet(w.fronts.store, n, ports[n], writeOk) == (w.fronts.store, true)
  {
    S.DocumentLoads(v, Some(ports), backupOk, n);
    F.SuggestedFirst(c, n, ports[n], preferred);
  }

  /** Memory and disk hold port `p` for `n`, and nobody is about to bind another one. */
  predicate Kept(w: World, n: Name, p: int) {
    && n in w.fronts.store.mem.ports && w.fronts.store.mem.ports[n] == p
    && n in OnDisk(w.fronts.store) && OnDisk(w.fronts.store)[n] == p
    && (n in w.fronts.runtimes || w.phase.Idle? || w.phase.t.name != n)
  }

  /** A name without a runtime is registered. */
  predicate Claims(w: World, l: Label, n: Name) { l.Begin? && l.q.name == n && n !in w.fronts.runtimes }

  predicate NeverClaimed(c: Config, w: World, ls: seq<Label>, n: Name) {
    ls == [] || (NeverClaimed(c, w, ls[..|ls| - 1], n) && !Claims(Exec(c, w, ls[..|ls| - 1]), ls[|ls| - 1], n))
  }

  lemma StoreFrame(c: Config, w: World, l: Label)
    requires !l.Persist? && !l.Flush? && !l.Restart?
    ensures Apply(c, w, l).fronts.store == w.fronts.store && Apply(c, w, l).fronts.runtimes == w.fronts.runtimes
  {}

  lemma PersistKept(w: World, writeOk: bool, n: Name, p: int)
    requires PortInv(w.fronts, w.phase) && Kept(w, n, p)
    ensures Kept(PersistStep(w, writeOk), n, p)
  {}

  lemma BeginKept(c: Config, w: World, q: Request, regID: Id, n: Name, p: int)
    requires Kept(w, n, p) && !Claims(w, Begin(q, regID), n)
    ensures Kept(BeginStep(c, w, q, regID), n, p)
  {}

  lemma FlushKept(w: World, writeOk: bool, n: Name, p: int)
    requires PortInv(w.fronts, w.phase) && Kept(w, n, p)
    ensures Kept(w.(fronts := w.fronts.(store := S.Flushed(w.fronts.store, writeOk))), n, p)
  {}

  lemma KeptStep(c: Config, w: World, l: Label, n: Name, p: int)
    requires PortInv(w.fronts, w.phase) && Kept(w, n, p) && !Claims(w, l, n)
    ensures Kept(Apply(c, w, l), n, p)
  {
    hide Apply, PortInv, Kept, PersistStep, BeginStep, RestartStep, S.Flushed;
    match l
    case Persist(ok) =>
      PersistKept(w, ok, n, p);
      PersistIs(c, w, ok);
    case Flush(ok) =>
      FlushKept(w, ok, n, p);
      FlushStep(c, w, ok);
    case Begin(q, regID) =>
      BeginKept(c, w, q, regID, n, p);
      BeginIs(c, w, q, regID);
    case Restart(ok) =>
      RestartKept(w, ok, n, p);
      RestartIs(c, w, ok);
    case _ =>
      OtherKept(c, w, l, n, p);
  }

  lemma InstallIs(c: Config, w: World)
    ensures Apply(c, w, Install) == InstallStep(w)
  {}

  lemma PersistIs(c: Config, w: World, ok: bool)
    ensures Apply(c, w, Persist(ok)) == PersistStep(w, ok)
  {}

  lemma BeginIs(c: Config, w: World, q: Request, regID: Id)
    ensures Apply(c, w, Begin(q, regID)) == BeginStep(c, w, q, regID)
  {}

  lemma RestartIs(c: Config, w: World, ok: bool)
    ensures Apply(c, w, Restart(ok)) == RestartStep(w, ok)
  {}

  lemma RestartKept(w: World, backupOk: bool, n: Name, p: int)
    requires Kept(w, n, p)
    ensures Kept(RestartStep(w, backupOk), n, p)
  {}

  lemma OtherKept(c: Config, w: World, l: Label, n: Name, p: int)
    requires Kept(w, n, p) && !l.Persist? && !l.Flush? && !l.Restart? && !l.Begin?
    ensures Kept(Apply(c, w, l), n, p)
  {
    hide Apply;
    StoreFrame(c, w, l);
    PhaseFrame(c, w, l);
  }

  lemma {:induction false} KeptAlong(c: Config, w: World, ls: seq<Label>, n: Name, p: int)
    requires Inv(c, w) && Kept(w, n, p) && NeverClaimed(c, w, ls, n)
    ensures Kept(Exec(c, w, ls), n, p)
  {
    if ls != [] {
      KeptAlong(c, w, ls[..|ls| - 1], n, p);
      RunKeeps(c, w, ls[..|ls| - 1]);
      KeptStep(c, Exec(c, w, ls[..|ls| - 1]), ls[|ls| - 1], n, p);
    }
  }

  lemma RuntimeKept(c: Config, w: World, n: Name)
    requires Inv(c, w) && n in w.fronts.runtimes
    ensures Kept(w, n, w.fronts.runtimes[n]) && w.fronts.runtimes[n] != 0
  {
    assert PortInv(w.fronts, w.phase);
  }

  lemma KeptMeans(c: Config, v: World, n: Name, p: int, preferred: int, writeOk: bool, backupOk: bool)
    requires Kept(v, n, p) && p != 0
    ensures var s := RestartStep(v, backupOk).fronts.store;
      && S.Remembered(v.fronts.store, n) == p && n in OnDisk(v.fronts.store) && OnDisk(v.fronts.store)[n] == p
      && F.Candidates(c, n, p, preferred) != [] && F.Candidates(c, n, p, preferred)[0] == p
      && S.Remembered(s, n) == p && S.PortSet(s, n, p, writeOk) == (s, true)
  {}

  /** Over any run from a state in which `n` listens on a port, through any number of
      crashes at any step, failed writes and registrations of others, and until `n` is
      registered without a runtime: memory and disk keep the port, it is the first
      candidate, and after a restart it takes no write to keep it. */
  lemma CrashSafety(c: Config, w: World, ls: seq<Label>, n: Name, preferred: int, writeOk: bool, backupOk: bool)
    requires Inv(c, w) && n in w.fronts.runtimes && NeverClaimed(c, w, ls, n)
    ensures var v := Exec(c, w, ls);
      var p := w.fronts.runtimes[n];
      var s := RestartStep(v, backupOk).fronts.store;
      && S.Remembered(v.fronts.store, n) == p && n in OnDisk(v.fronts.store) && OnDisk(v.fronts.store)[n] == p
      && F.Candidates(c, n, S.Remembered(v.fronts.store, n), preferred) != []
      && F.Candidates(c, n, S.Remembered(v.fronts.store, n), preferred)[0] == p
      && S.Remembered(s, n) == p && S.PortSet(s, n, p, writeOk) == (s, true)
  {
    hide Inv, Exec, NeverClaimed, RestartStep, F.Candidates;
    RuntimeKept(c, w, n);
    KeptAlong(c, w, ls, n, w.fronts.runtimes[n]);
    KeptMeans(c, Exec(c, w, ls), n, w.fronts.runtimes[n], preferred, writeOk, backupOk);
  }

  // ----- What the Docker watcher may rely on -----

  /** No step but the installation of a Docker registration makes a Docker record ready
      or changes one that is. */
  lemma OnlyDockerPublishesForDocker(c: Config, w: World, l: Label)
    requires !(l.Install? && w.phase.Fronted? && w.phase.t.source == Docker)
    ensures DockerWatch.Rely(w.reg, Apply(c, w, l).reg)
  {
    if !l.Install? && !l.End? && !l.Forget? && !l.Restart? {
      RegFrame(c, w, l);
    }
  }

  // ----- Routing -----

  lemma RoutesIndexed(c: Config, w: World)
    requires Inv(c, w) && !(w.phase.Installed? && w.phase.t.kind == HTTP)
    ensures R.Indexed(w.routes, w.reg)
  {
    assert PhaseInv(w.reg, w.book, w.phase);
    forall n | n in w.reg && w.reg[n].kind == HTTP
      ensures Hosts.Accepted(w.reg[n].hostname) && w.reg[n].frontend.host == Hosts.NormalizeHost(w.reg[n].hostname)
    {
      assert w.reg[n].frontend == R.FrontendURL(c, w.reg[n].hostname);
    }
  }

  /** In every reachable state, but for the moment between installing an HTTP record and
      storing its route, the proxy answers all requests as the registry would if and only
      if all registered hostnames are plain. */
  lemma RoutingAgreesWithRegistry(c: Config, w0: World, ls: seq<Label>)
    requires ValidConfig(c) && Init(w0)
    requires !(Exec(c, w0, ls).phase.Installed? && Exec(c, w0, ls).phase.t.kind == HTTP)
    ensures R.Agrees(Exec(c, w0, ls).routes, Exec(c, w0, ls).reg) <==> R.AllPlain(Exec(c, w0, ls).reg)
  {
    InitKeeps(c, w0);
    RunKeeps(c, w0, ls);
    RoutesIndexed(c, Exec(c, w0, ls));
    R.RoutingAgreesIff(Exec(c, w0, ls).routes, Exec(c, w0, ls).reg);
  }
}
