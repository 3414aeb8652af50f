/** Registering a fixed list of containers over and over, without any publication being
    ended in between: the second round changes nothing. */
module Convergence {
  import opened Types
  import opened Registry
  import opened Admission
  import R = Router

  /** `url` stands for the router's FrontendURL. */
  type Urls = string -> Frontend

  function UrlsOf(c: Config): Urls { (h: string) => R.FrontendURL(c, h) }

  /** TCP services have no hostname, HTTP services have one and its URL. */
  ghost predicate WellFormed(url: Urls, reg: Services) {
    forall n :: n in reg ==>
      if reg[n].kind == HTTP then reg[n].hostname != "" && reg[n].frontend == url(reg[n].hostname)
      else reg[n].hostname == ""
  }

  predicate ValidTicket(t: Ticket) { t.kind == HTTP <==> t.hostname != "" }

  /** The registry-dependent half of admission. */
  predicate Accepts(reg: Services, t: Ticket) {
    Compatible(reg, t) && Claimable(reg, t.name, t.ownerKey)
  }

  /** An existing service keeps its frontend; a new TCP service needs a port. */
  function FrontIn(url: Urls, reg: Services, t: Ticket, port: Option<int>): Option<Frontend> {
    if t.kind == HTTP then Some(url(t.hostname))
    else if t.name in reg then Some(reg[t.name].frontend)
    else if port.Some? then Some(Port(port.value)) else None
  }

  function Published(url: Urls, reg: Services, t: Ticket, port: Option<int>): Services {
    var f := FrontIn(url, reg, t, port);
    if Accepts(reg, t) && f.Some? then reg[t.name := RecordOf(t, f.value)] else reg
  }

  function PortAt(ports: map<nat, int>, i: nat): Option<int> {
    if i in ports then Some(ports[i]) else None
  }

  /** The registry after the first `i` registrations; `ports[j]` is the port that the
      j-th one gets if it needs a new one. */
  function After(url: Urls, reg: Services, ts: seq<Option<Ticket>>, ports: map<nat, int>, i: nat): Services
    requires i <= |ts|
  {
    if i == 0 then reg else
    var before := After(url, reg, ts, ports, i - 1);
    if ts[i - 1].Some? then Published(url, before, ts[i - 1].value, PortAt(ports, i - 1)) else before
  }

  /** The service is ready under the ticket's owner and identity. */
  predicate Settled(reg: Services, t: Ticket) {
    Accepts(reg, t) && t.name in reg && reg[t.name].status == Ready
  }

  // ----- One registration cannot undo another -----

  lemma PublishedSettles(url: Urls, reg: Services, t: Ticket, port: Option<int>)
    requires Accepts(reg, t) && FrontIn(url, reg, t, port).Some?
    ensures Settled(Published(url, reg, t, port), t)
  {
    var reg' := Published(url, reg, t, port);
    assert forall m :: m in reg' && m != t.name ==> m in reg && reg'[m] == reg[m];
  }

  lemma PublishedWellFormed(url: Urls, reg: Services, t: Ticket, port: Option<int>)
    requires WellFormed(url, reg) && ValidTicket(t)
    ensures WellFormed(url, Published(url, reg, t, port))
  {}

  /** Kind and hostname of existing services survive. */
  lemma IdentityKept(url: Urls, reg: Services, u: Ticket, port: Option<int>, m: Name)
    requires WellFormed(url, reg) && ValidTicket(u) && m in reg
    ensures var reg' := Published(url, reg, u, port);
      m in reg' && reg'[m].kind == reg[m].kind && reg'[m].hostname == reg[m].hostname
      && reg'[m].frontend == reg[m].frontend
  {}

  lemma TakenKept(url: Urls, reg: Services, u: Ticket, port: Option<int>, hostname: string, name: Name)
    requires WellFormed(url, reg) && ValidTicket(u) && HostTaken(reg, hostname, name)
    ensures HostTaken(Published(url, reg, u, port), hostname, name)
  {
    var m :| m in reg && m != name && reg[m].hostname == hostname;
    IdentityKept(url, reg, u, port, m);
  }

  lemma SettledStays(url: Urls, reg: Services, t: Ticket, u: Ticket, port: Option<int>)
    requires WellFormed(url, reg) && ValidTicket(t) && ValidTicket(u) && Settled(reg, t)
    ensures Settled(Published(url, reg, u, port), t)
  {
    var reg' := Published(url, reg, u, port);
    IdentityKept(url, reg, u, port, t.name);
    forall m | m in reg' && m != t.name ensures t.kind == HTTP ==> reg'[m].hostname != t.hostname {
      assert t.kind == HTTP && u.kind == HTTP && u.name == m && u.hostname == t.hostname ==>
        HostTaken(reg, u.hostname, u.name);
    }
  }

  lemma BlockedStays(url: Urls, reg: Services, t: Ticket, u: Ticket, port: Option<int>)
    requires WellFormed(url, reg) && ValidTicket(t) && ValidTicket(u) && !Accepts(reg, t)
    ensures !Accepts(Published(url, reg, u, port), t)
  {
    if t.name in reg {
      IdentityKept(url, reg, u, port, t.name);
    }
    if t.kind == HTTP && HostTaken(reg, t.hostname, t.name) {
      TakenKept(url, reg, u, port, t.hostname, t.name);
    }
  }

  // ----- Rounds -----

  ghost predicate ValidTickets(ts: seq<Option<Ticket>>) {
    forall i :: 0 <= i < |ts| && ts[i].Some? ==> ValidTicket(ts[i].value)
  }

  lemma {:induction false} AfterWellFormed(url: Urls, reg: Services, ts: seq<Option<Ticket>>,
                                           ports: map<nat, int>, i: nat)
    requires WellFormed(url, reg) && ValidTickets(ts) && i <= |ts|
    ensures WellFormed(url, After(url, reg, ts, ports, i))
  {
    if i > 0 {
      AfterWellFormed(url, reg, ts, ports, i - 1);
      if ts[i - 1].Some? {
        PublishedWellFormed(url, After(url, reg, ts, ports, i - 1), ts[i - 1].value, PortAt(ports, i - 1));
      }
    }
  }

  /** From `j` on, an admitted ticket stays settled and a refused one stays refused. */
  lemma {:induction false} VerdictStays(url: Urls, reg: Services, ts: seq<Option<Ticket>>, ports: map<nat, int>,
                                        t: Ticket, j: nat, i: nat)
    requires WellFormed(url, reg) && ValidTickets(ts) && ValidTicket(t) && j <= i <= |ts|
    ensures Settled(After(url, reg, ts, ports, j), t) ==> Settled(After(url, reg, ts, ports, i), t)
    ensures !Accepts(After(url, reg, ts, ports, j), t) ==> !Accepts(After(url, reg, ts, ports, i), t)
    decreases i
  {
    if j < i {
      VerdictStays(url, reg, ts, ports, t, j, i - 1);
      AfterWellFormed(url, reg, ts, ports, i - 1);
      var before := After(url, reg, ts, ports, i - 1);
      if ts[i - 1].Some? {
        if Settled(before, t) {
          SettledStays(url, before, t, ts[i - 1].value, PortAt(ports, i - 1));
        }
        if !Accepts(before, t) {
          BlockedStays(url, before, t, ts[i - 1].value, PortAt(ports, i - 1));
        }
      }
    }
  }

  /** The j-th ticket is admitted when its turn comes. */
  predicate Admitted(url: Urls, reg: Services, ts: seq<Option<Ticket>>, ports: map<nat, int>, j: nat)
    requires j < |ts|
  {
    ts[j].Some? && Accepts(After(url, reg, ts, ports, j), ts[j].value)
  }

  /** No allocation fails: every ticket admitted in its turn gets a frontend. */
  ghost predicate AllFronted(url: Urls, reg: Services, ts: seq<Option<Ticket>>, ports: map<nat, int>) {
    forall i: nat :: i < |ts| && Admitted(url, reg, ts, ports, i) ==>
      FrontIn(url, After(url, reg, ts, ports, i), ts[i].value, PortAt(ports, i)).Some?
  }

  /** Where no allocation fails, being admitted when one's turn comes, being settled at the
      end of the round, and being admitted in a following round are the same. */
  lemma AdmittedIffSettled(url: Urls, reg: Services, ts: seq<Option<Ticket>>, ports: map<nat, int>, j: nat)
    requires WellFormed(url, reg) && ValidTickets(ts) && AllFronted(url, reg, ts, ports) && j < |ts| && ts[j].Some?
    ensures var r := After(url, reg, ts, ports, |ts|);
      if Admitted(url, reg, ts, ports, j) then Settled(r, ts[j].value) else !Accepts(r, ts[j].value)
  {
    var t := ts[j].value;
    if Admitted(url, reg, ts, ports, j) {
      PublishedSettles(url, After(url, reg, ts, ports, j), t, PortAt(ports, j));
      VerdictStays(url, reg, ts, ports, t, j + 1, |ts|);
    } else {
      VerdictStays(url, reg, ts, ports, t, j, |ts|);
    }
  }

  lemma AdmittedAgain(url: Urls, reg: Services, ts: seq<Option<Ticket>>,
                      ports: map<nat, int>, ports': map<nat, int>, j: nat)
    requires WellFormed(url, reg) && ValidTickets(ts) && AllFronted(url, reg, ts, ports) && j < |ts|
    ensures var r := After(url, reg, ts, ports, |ts|);
      && (Admitted(url, r, ts, ports', j) <==> Admitted(url, reg, ts, ports, j))
      && (Admitted(url, reg, ts, ports, j) ==> Settled(After(url, r, ts, ports', j), ts[j].value))
  {
    if ts[j].Some? {
      var r := After(url, reg, ts, ports, |ts|);
      AdmittedIffSettled(url, reg, ts, ports, j);
      AfterWellFormed(url, reg, ts, ports, |ts|);
      VerdictStays(url, r, ts, ports', ts[j].value, 0, j);
    }
  }

  /** Some ticket for `m` was admitted among the first `i`. */
  predicate Touched(url: Urls, reg: Services, ts: seq<Option<Ticket>>, ports: map<nat, int>, m: Name, i: nat)
    requires i <= |ts|
  {
    i > 0 && (Touched(url, reg, ts, ports, m, i - 1)
              || (Admitted(url, reg, ts, ports, i - 1) && ts[i - 1].value.name == m))
  }

  /** Half-way through the second round: the names already met hold what the first round
      gave them at the same point, all others what it left behind. */
  ghost predicate Replayed(s: Services, r: Services, q: Services, m: Name, touched: bool) {
    if touched then m in s && m in r && m in q && q[m] == s[m].(frontend := r[m].frontend)
    else (m in q <==> m in r) && (m in q ==> q[m] == r[m])
  }

  lemma {:induction false} SecondRoundReplays(url: Urls, reg: Services, ts: seq<Option<Ticket>>, ports: map<nat, int>,
                                              ports': map<nat, int>, i: nat, m: Name)
    requires WellFormed(url, reg) && ValidTickets(ts) && AllFronted(url, reg, ts, ports) && i <= |ts|
    ensures var r := After(url, reg, ts, ports, |ts|);
      Replayed(After(url, reg, ts, ports, i), r, After(url, r, ts, ports', i), m, Touched(url, reg, ts, ports, m, i))
  {
    if i > 0 {
      var r := After(url, reg, ts, ports, |ts|);
      SecondRoundReplays(url, reg, ts, ports, ports', i - 1, m);
      AdmittedAgain(url, reg, ts, ports, ports', i - 1);
      AfterWellFormed(url, reg, ts, ports, |ts|);
      if Admitted(url, reg, ts, ports, i - 1) && ts[i - 1].value.name == m {
        AdmittedIffSettled(url, reg, ts, ports, i - 1);
        AfterWellFormed(url, r, ts, ports', i - 1);
      }
    }
  }

  /** The second round, whatever ports it is offered, ends where it began. */
  lemma SecondRoundChangesNothing(url: Urls, reg: Services, ts: seq<Option<Ticket>>,
                                  ports: map<nat, int>, ports': map<nat, int>)
    requires WellFormed(url, reg) && ValidTickets(ts) && AllFronted(url, reg, ts, ports)
    ensures var r := After(url, reg, ts, ports, |ts|); After(url, r, ts, ports', |ts|) == r
  {
    var r := After(url, reg, ts, ports, |ts|);
    var q := After(url, r, ts, ports', |ts|);
    forall m ensures (m in q <==> m in r) && (m in q ==> q[m] == r[m]) {
      SecondRoundReplays(url, reg, ts, ports, ports', |ts|, m);
    }
  }
}
