/** Two services, two hostnames, one route: a run of the daemon after which a request is
    answered by the wrong backend. */
module SharedRoute {
  import opened Types
  import opened Registry
  import opened Admission
  import opened World
  import opened WorldInvariants
  import opened Registration
  import R = Router
  import Hosts

  function Ask(name: Name, host: string, port: int): Request {
    Request(name, "http", "", Backend("h", port), true, 0, 0, Process, "", "", host)
  }

  function EnvOf(regID: Id): Env { Env(regID, None, true, Some("k")) }

  function TicketFor(c: Config, name: Name, host: string, port: int, regID: Id, hostname: string): Ticket {
    TicketOf(c, Ask(name, host, port), regID, HTTP, hostname)
  }

  lemma AskAdmitted(c: Config, services: Services, name: Name, host: string, port: int, regID: Id, hostname: string)
    requires ValidConfig(c) && ValidName(name) && 1 <= port <= 65535 && Hosts.CanonicalHost(host) == Some(hostname)
    requires name !in services && forall n :: n in services ==> services[n].hostname != hostname
    ensures Admit(c, services, Ask(name, host, port), regID) == Ok(TicketFor(c, name, host, port, regID, hostname))
  {
    assert Hosts.TrimSpace("h") == "h" by {
      assert !Hosts.Space('h');
    }
  }

  lemma AskDoes(c: Config, w: World, name: Name, host: string, port: int, regID: Id, hostname: string)
    requires ValidConfig(c) && ValidName(name) && 1 <= port <= 65535 && Hosts.CanonicalHost(host) == Some(hostname)
    requires name !in w.reg && forall n :: n in w.reg ==> w.reg[n].hostname != hostname
    requires w.phase.Idle? && regID !in w.book.issued && regID !in w.book.containers
    ensures var v := Exec(c, w, Plan(Ask(name, host, port), EnvOf(regID)));
      && v.phase.Idle? && v.book.issued.Keys == w.book.issued.Keys + {regID} && v.book.containers == w.book.containers
      && v.routes == R.Routed(w.routes, hostname, name)
      && v.reg == w.reg[name := RecordOf(TicketFor(c, name, host, port, regID, hostname), R.FrontendURL(c, hostname))]
  {
    var q, env := Ask(name, host, port), EnvOf(regID);
    AskAdmitted(c, w.reg, name, host, port, regID, hostname);
    RegisteredDoes(c, w, q, env, TicketFor(c, name, host, port, regID, hostname));
    RegisteredIsRun(c, w, q, env);
  }

  /** "a" holds hostname "a" and "b" holds "a."; both are ready, and a request for "a"
      reaches the backend of "b". */
  lemma SharedKeyRun(c: Config, w0: World) returns (ls: seq<Label>)
    requires ValidConfig(c) && Init(w0)
    ensures var w := Exec(c, w0, ls);
      && "a" in w.reg && w.reg["a"].hostname == "a" && CurrentBackend(w.reg, "a") == Some(Backend("h", 80))
      && "b" in w.reg && w.reg["b"].hostname == "a." && CurrentBackend(w.reg, "b") == Some(Backend("h", 81))
      && R.Served(w.routes, w.reg, "a") == R.ProxiedTo(Backend("h", 81))
  {
    hide Exec, Plan, Hosts.CanonicalHost, Hosts.NormalizeHost;
    var first, second := Plan(Ask("a", "a", 80), EnvOf("r")), Plan(Ask("b", "a..", 81), EnvOf("s"));
    ls := first + second;
    Hosts.DistinctHostsOneKey();
    AskDoes(c, w0, "a", "a", 80, "r", "a");
    var w1 := Exec(c, w0, first);
    AskDoes(c, w1, "b", "a..", 81, "s", "a.");
    ExecConcat(c, w0, first, second);
  }
}
