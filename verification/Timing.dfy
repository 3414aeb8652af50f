/** Heartbeats in time: over every run of the daemon, a producer that renews its lease
    before the deadline keeps lease and publication, whatever else happens. */
module Timing {
  import opened Types
  import opened Registry
  import opened Admission
  import opened World
  import opened WorldInvariants
  import opened Theorems
  import L = Leases
  import Client

  /** Nobody deletes the lease with its token, replaces the publication in its owner's
      name, or restarts the daemon. */
  predicate LeftAlone(l: Label, e: L.Entry) {
    && !l.Restart?
    && !(l.Delete? && l.e.id == e.id && l.token == e.token)
    && !(l.Begin? && l.q.name == e.name && OwnerKeyOf(l.q, l.regID) == e.ownerKey)
  }

  /** The lease lives with time to spare, its terms are those of `e`, its record is
      `rec`, and nobody is about to replace that. */
  predicate Alive(w: World, e: L.Entry, rec: Record) {
    && e.id in w.book.leases && w.book.leases[e.id] == e.(expiresAt := w.book.leases[e.id].expiresAt)
    && w.clock < w.book.leases[e.id].expiresAt
    && e.name in w.reg && w.reg[e.name] == rec
    && (w.phase.Idle? || w.phase.t.name != e.name)
  }

  /** The clock does not reach the deadline before the next heartbeat. */
  predicate InTime(w: World, l: Label, id: Id) {
    l.Tick? ==> id in w.book.leases && w.clock + l.d < w.book.leases[id].expiresAt
  }

  /** Every step of the run leaves the publication alone and is in time. */
  predicate Punctual(c: Config, w: World, ls: seq<Label>, e: L.Entry) {
    ls == [] ||
    (Punctual(c, w, ls[..|ls| - 1], e)
     && LeftAlone(ls[|ls| - 1], e) && InTime(Exec(c, w, ls[..|ls| - 1]), ls[|ls| - 1], e.id))
  }

  // ----- Step by step -----

  /** What the invariant says about a live lease. */
  predicate Holder(w: World, e: L.Entry, rec: Record) {
    && e.id in w.book.issued && Ending(e.name, e.id) !in w.book.pending
    && e.ttl > 0 && rec.status == Ready && rec.ownerKey == e.ownerKey && rec.producerID == e.id
    && (forall n :: n in w.reg && w.reg[n].producerID == e.id ==> n == e.name)
    && (w.phase.Idle? || w.phase.t.regID != e.id)
  }

  lemma AliveHolds(c: Config, w: World, e: L.Entry, rec: Record)
    requires Inv(c, w) && Alive(w, e, rec)
    ensures Holder(w, e, rec)
  {
    assert LeaseInv(w.reg, w.book.leases) && OnceInv(w.book) && e.id in w.book.granted;
    forall n | n in w.reg && w.reg[n].producerID == e.id ensures n == e.name {
      assert IdInv(w.reg, w.book);
    }
  }

  lemma BeginAlive(c: Config, w: World, q: Request, regID: Id, e: L.Entry, rec: Record)
    requires Alive(w, e, rec) && Holder(w, e, rec) && LeftAlone(Begin(q, regID), e)
    ensures Alive(BeginStep(c, w, q, regID), e, rec)
  {
    if q.name == e.name {
      assert !Claimable(w.reg, q.name, OwnerKeyOf(q, regID));
    }
  }

  lemma RegisterAlive(c: Config, w: World, l: Label, e: L.Entry, rec: Record)
    requires Alive(w, e, rec) && Holder(w, e, rec)
    requires l.Retire? || l.Reuse? || l.Bind? || l.Exhaust? || l.Persist? || l.Web? || l.Install? || l.Route?
             || l.Grant? || l.NoToken? || l.Done?
    ensures Alive(Apply(c, w, l), e, rec)
  {}

  /** The deadline after a renewal: only one with the lease's own token moves it. */
  function Prolongs(w: World, id: Id, token: string, e: L.Entry): int
    requires e.id in w.book.leases
  {
    if id == e.id && token == e.token then w.clock + e.ttl else w.book.leases[e.id].expiresAt
  }

  lemma RenewAlive(w: World, id: Id, token: string, e: L.Entry, rec: Record)
    requires Alive(w, e, rec) && e.ttl > 0
    ensures var v := w.(book := Renewed(w.book, id, token, w.clock));
      Alive(v, e, rec) && v.book.leases[e.id].expiresAt == Prolongs(w, id, token, e)
  {}

  lemma DeleteAlive(w: World, d: Ending, token: string, e: L.Entry, rec: Record)
    requires Alive(w, e, rec) && !(d.id == e.id && token == e.token)
    ensures Alive(w.(book := Deleted(w.book, d, token)), e, rec)
  {}

  lemma SweepAlive(w: World, at: int, e: L.Entry, rec: Record)
    requires Alive(w, e, rec) && at <= w.clock
    ensures Alive(w.(book := Swept(w.book, at)), e, rec)
  {}

  lemma OtherAlive(c: Config, w: World, l: Label, e: L.Entry, rec: Record)
    requires Alive(w, e, rec) && e.ttl > 0 && LeftAlone(l, e) && InTime(w, l, e.id)
    requires l.Get? || l.Delete? || l.Renew? || l.Sweep? || l.Tick? || l.Flush?
    ensures Alive(Apply(c, w, l), e, rec)
  {
    hide Apply, Renewed, Deleted, Swept;
    match l
    case Get(id) => GetStep(c, w, id);
    case Delete(d, token) =>
      DeleteStep(c, w, d, token);
      DeleteAlive(w, d, token, e, rec);
    case Renew(id, token) =>
      RenewStep(c, w, id, token);
      RenewAlive(w, id, token, e, rec);
    case Sweep(at) =>
      SweepStep(c, w, at);
      if at <= w.clock {
        SweepAlive(w, at, e, rec);
      }
    case Tick(d) => TickStep(c, w, d);
    case Flush(ok) => FlushStep(c, w, ok);
  }

  lemma EndAlive(c: Config, w: World, l: Label, e: L.Entry, rec: Record)
    requires Alive(w, e, rec) && Holder(w, e, rec) && (l.End? || l.Forget?)
    ensures Alive(Apply(c, w, l), e, rec)
  {}

  lemma AliveStep(c: Config, w: World, l: Label, e: L.Entry, rec: Record)
    requires Inv(c, w) && Alive(w, e, rec) && LeftAlone(l, e) && InTime(w, l, e.id)
    ensures Alive(Apply(c, w, l), e, rec)
  {
    AliveHolds(c, w, e, rec);
    if l.Begin? {
      BeginAlive(c, w, l.q, l.regID, e, rec);
    } else if l.End? || l.Forget? {
      EndAlive(c, w, l, e, rec);
    } else if l.Get? || l.Delete? || l.Renew? || l.Sweep? || l.Tick? || l.Flush? {
      OtherAlive(c, w, l, e, rec);
    } else {
      RegisterAlive(c, w, l, e, rec);
    }
  }

  lemma {:induction false} StaysAlive(c: Config, w: World, ls: seq<Label>, e: L.Entry, rec: Record)
    requires Inv(c, w) && Alive(w, e, rec) && Punctual(c, w, ls, e)
    ensures Alive(Exec(c, w, ls), e, rec)
  {
    if ls != [] {
      var front := ls[..|ls| - 1];
      StaysAlive(c, w, front, e, rec);
      RunKeeps(c, w, front);
      AliveStep(c, Exec(c, w, front), ls[|ls| - 1], e, rec);
    }
  }

  lemma AliveAnswers(w: World, e: L.Entry, rec: Record)
    requires Alive(w, e, rec)
    ensures L.Renewal(w.book.leases, e.id, e.token, w.clock).1 == Ok(w.clock + e.ttl)
  {}

  /** Over any punctual run the lease lives on its own terms, its record stays exactly
      as it is, and a heartbeat with its token succeeds at any point. */
  lemma PunctualLeaseSurvives(c: Config, w: World, ls: seq<Label>, e: L.Entry, rec: Record)
    requires Inv(c, w) && Alive(w, e, rec) && Punctual(c, w, ls, e)
    ensures var v := Exec(c, w, ls);
      && Alive(v, e, rec) && rec.status == Ready && rec.producerID == e.id
      && L.Renewal(v.book.leases, e.id, e.token, v.clock).1 == Ok(v.clock + e.ttl)
  {
    hide Inv, Exec, Punctual;
    AliveHolds(c, w, e, rec);
    StaysAlive(c, w, ls, e, rec);
    AliveAnswers(Exec(c, w, ls), e, rec);
  }

  // ----- The client's schedule -----

  /** When the last heartbeat with the token was processed, or `start`. */
  function LastBeat(c: Config, w: World, ls: seq<Label>, e: L.Entry, start: int): int {
    if ls == [] then start
    else if ls[|ls| - 1] == Renew(e.id, e.token) then Exec(c, w, ls[..|ls| - 1]).clock
    else LastBeat(c, w, ls[..|ls| - 1], e, start)
  }

  /** The publication is left alone, and no two heartbeats in a row are missed: the clock
      never gets further than two intervals beyond the last one. */
  predicate OnSchedule(c: Config, w: World, ls: seq<Label>, e: L.Entry, interval: int, start: int) {
    ls == [] ||
    var front, l := ls[..|ls| - 1], ls[|ls| - 1];
    && OnSchedule(c, w, front, e, interval, start) && LeftAlone(l, e)
    && (l.Tick? ==> Exec(c, w, front).clock + l.d <= LastBeat(c, w, front, e, start) + 2 * interval)
  }

  lemma DeadlineStep(c: Config, w: World, l: Label, e: L.Entry, rec: Record)
    requires Alive(w, e, rec) && Alive(Apply(c, w, l), e, rec) && Holder(w, e, rec)
    ensures Apply(c, w, l).book.leases[e.id].expiresAt ==
      if l == Renew(e.id, e.token) then w.clock + e.ttl else w.book.leases[e.id].expiresAt
  {
    hide Apply, Renewed;
    if l.Renew? {
      RenewAlive(w, l.id, l.token, e, rec);
      RenewStep(c, w, l.id, l.token);
    } else {
      EntryFrame(c, w, l, e.id);
    }
  }

  /** On schedule is in time, and the deadline is one TTL beyond the last heartbeat. */
  lemma {:induction false} ScheduleIsPunctual(c: Config, w: World, ls: seq<Label>, e: L.Entry, rec: Record,
                                              interval: int, start: int)
    requires Inv(c, w) && Alive(w, e, rec) && w.book.leases[e.id].expiresAt == start + e.ttl
    requires OnSchedule(c, w, ls, e, interval, start) && 2 * interval < e.ttl
    ensures Punctual(c, w, ls, e) && Alive(Exec(c, w, ls), e, rec)
    ensures Exec(c, w, ls).book.leases[e.id].expiresAt == LastBeat(c, w, ls, e, start) + e.ttl
  {
    if ls != [] {
      var front, l := ls[..|ls| - 1], ls[|ls| - 1];
      ScheduleIsPunctual(c, w, front, e, rec, interval, start);
      RunKeeps(c, w, front);
      AliveStep(c, Exec(c, w, front), l, e, rec);
      AliveHolds(c, Exec(c, w, front), e, rec);
      DeadlineStep(c, Exec(c, w, front), l, e, rec);
    }
  }

  /** A client that computes its interval from the answer to its registration and misses
      no two heartbeats in a row never loses its lease or its publication over any run of
      the daemon, and never gets a 404. */
  lemma ScheduledClientKeepsLease(c: Config, w: World, ls: seq<Label>, e: L.Entry,
                                  rec: Record, r: Client.Response, start: int)
    requires Inv(c, w) && Alive(w, e, rec) && w.book.leases[e.id].expiresAt == start + e.ttl
    requires r.id == e.id && r.token == e.token && r.ttlSeconds == e.ttl / SECOND
    requires OnSchedule(c, w, ls, e, Client.Interval(Client.BelievedTTL(r)), start)
    ensures var v := Exec(c, w, ls);
      && Alive(v, e, rec) && rec.status == Ready
      && L.Renewal(v.book.leases, r.id, r.token, v.clock).1 == Ok(v.clock + e.ttl)
  {
    assert LeaseInv(w.reg, w.book.leases);
    Client.ClientNeverOverestimates(e.ttl, r);
    ScheduleIsPunctual(c, w, ls, e, rec, Client.Interval(Client.BelievedTTL(r)), start);
    PunctualLeaseSurvives(c, w, ls, e, rec);
  }
}
