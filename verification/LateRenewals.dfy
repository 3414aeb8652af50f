/** The one way in which a dead producer's backend outlives its lease: a heartbeat that
    finds the lease expired before the sweeper does removes it without ending the
    publication. */
module LateRenewals {
  import opened Types
  import opened Registry
  import opened Admission
  import opened World
  import opened WorldInvariants
  import opened Registration
  import opened Theorems
  import L = Leases
  import Hosts

  /** In every run, outside the registration in hand: a ready leased record has neither
      lease nor pending end if and only if, since the last restart, its lease was renewed
      too late or its token could not be made. */
  lemma UnleasedIffStranded(c: Config, w0: World, ls: seq<Label>, n: Name)
    requires ValidConfig(c) && Init(w0)
    requires var w := Exec(c, w0, ls); n in w.reg && Leased(w.reg[n]) && !InHand(w.reg, w.phase, n)
    ensures var w := Exec(c, w0, ls);
      var id := w.reg[n].producerID;
      (id !in w.book.leases && Ending(n, id) !in w.book.pending) <==> StrandedAlong(c, w0, ls, id)
  {
    InitKeeps(c, w0);
    RunKeeps(c, w0, ls);
    StrandedIffAlong(c, w0, ls, Exec(c, w0, ls).reg[n].producerID);
  }

  /** Where the swept client recovers, the late one is locked out: its 404 is followed by
      a conflict with its own dead record. */
  lemma RenewThenRefused(c: Config, w: World, id: Id, token: string, mine: Request, q: Request, regID: Id)
    requires Inv(c, w) && w.phase.Idle? && LateRenewal(w.book, id, w.clock)
    requires mine.ownerKey == "" && w.book.leases[id].ownerKey == OwnerKeyOf(mine, id)
    requires q.name == w.book.leases[id].name && q.ownerKey == "" && regID !in w.book.issued
    ensures L.Renewal(w.book.leases, id, token, w.clock).1 == Err(L.NotFound)
    ensures Admit(c, w.reg, q, regID).Err?
    ensures Renewed(w.book, id, token, w.clock).leases == w.book.leases - {id}
  {
    LateRenewalSticks(c, w, id, token);
    assert id in w.book.granted;
    OwnKeysDistinct(q, regID, mine, id);
    assert LeaseInv(w.reg, w.book.leases);
    StuckRefuses(c, w.(book := Renewed(w.book, id, token, w.clock)), w.reg[q.name], q, regID);
  }

  /** How long it takes the clock to reach a deadline. */
  function Until(clock: int, deadline: int): nat { if clock < deadline then deadline - clock else 0 }

  /** Every lease of every reachable state whose name nobody is registering can end this
      way: the clock reaches its deadline, and a heartbeat comes before the sweep. */
  lemma EveryLeaseCanBeStranded(c: Config, w: World, id: Id, token: string)
    requires Inv(c, w) && id in w.book.leases
    requires w.phase.Idle? || w.phase.t.name != w.book.leases[id].name
    ensures var e := w.book.leases[id];
      var v := Exec(c, w, [Tick(Until(w.clock, e.expiresAt))] + [Renew(id, token)]);
      && e.name in w.reg && w.reg[e.name].name == e.name && w.reg[e.name].producerID == id
      && v.phase == w.phase && v.reg == w.reg && Stuck(v, w.reg[e.name])
  {
    var d := Until(w.clock, w.book.leases[id].expiresAt);
    var later := w.(clock := w.clock + d);
    assert [] + [Tick(d)] == [Tick(d)];
    ExecSplit(c, w, [], Tick(d));
    TickStep(c, w, d);
    ExecSplit(c, w, [Tick(d)], Renew(id, token));
    RenewStep(c, later, id, token);
    LateRenewalSticks(c, later, id, token);
    assert NamesMatch(w.reg);
  }

  const EXAMPLE: Request :=
    Request("a", "http", "", Backend("h", 80), true, 0, 0, Process, "", "", "x")

  lemma ExampleIsAdmitted(c: Config, services: Services)
    requires ValidConfig(c) && services == map[]
    ensures Admit(c, services, EXAMPLE, "r") == Ok(TicketOf(c, EXAMPLE, "r", HTTP, "x"))
  {
    assert ValidName("a");
    assert Hosts.TrimSpace("h") == "h" && Hosts.TrimSpace("x") == "x" by {
      assert !Hosts.Space('h') && !Hosts.Space('x');
    }
    assert Hosts.Lower("x") == "x";
    assert Hosts.CanonicalHost("x") == Some("x");
  }

  lemma ExampleIsLeased(c: Config, w0: World, env: Env)
    requires ValidConfig(c) && Init(w0) && env == Env("r", None, true, Some("k"))
    ensures var w := Exec(c, w0, Plan(EXAMPLE, env));
      w.phase.Idle? && "r" in w.book.leases && w.book.leases["r"].name == "a"
  {
    ExampleIsAdmitted(c, w0.reg);
    RegisteredDoes(c, w0, EXAMPLE, env, TicketOf(c, EXAMPLE, "r", HTTP, "x"));
    RegisteredIsRun(c, w0, EXAMPLE, env);
  }

  lemma StuckMeansUnleased(c: Config, w: World, rec: Record)
    requires Inv(c, w) && Stuck(w, rec)
    ensures rec.producerID !in w.book.leases && Ending(rec.name, rec.producerID) !in w.book.pending
    ensures w.reg[rec.name] == rec && Leased(rec)
  {
    assert OnceInv(w.book);
  }

  /** A run of a fresh daemon that leaves a ready record with neither lease nor pending
      end: register, let the lease elapse, send one heartbeat before the sweep. */
  lemma StrandingRun(c: Config, w0: World) returns (ls: seq<Label>)
    requires ValidConfig(c) && Init(w0)
    ensures var w := Exec(c, w0, ls);
      && w.phase.Idle? && "a" in w.reg && Leased(w.reg["a"])
      && w.reg["a"].producerID !in w.book.leases && Ending("a", w.reg["a"].producerID) !in w.book.pending
  {
    hide Inv, Exec, Plan, Init;
    var env := Env("r", None, true, Some("k"));
    ExampleIsLeased(c, w0, env);
    InitKeeps(c, w0);
    RunKeeps(c, w0, Plan(EXAMPLE, env));
    var w1 := Exec(c, w0, Plan(EXAMPLE, env));
    var late := [Tick(Until(w1.clock, w1.book.leases["r"].expiresAt))] + [Renew("r", "k")];
    EveryLeaseCanBeStranded(c, w1, "r", "k");
    ls := Plan(EXAMPLE, env) + late;
    ExecConcat(c, w0, Plan(EXAMPLE, env), late);
    RunKeeps(c, w0, ls);
    StuckMeansUnleased(c, Exec(c, w0, ls), w1.reg["a"]);
  }
}
