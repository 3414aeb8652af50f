/** internal/dockerwatch: the watcher's `tracked` map and its reconciliation passes. */
module DockerWatch {
  import opened Types
  import opened Registry
  import opened Admission
  import opened Convergence
  import Hosts

  // ----- Containers -----

  /** One answer of the Docker API to an inspect call, as far as it matters: a failed
      call, a container that is not running, one that cannot be registered, one whose
      port is not published yet, or the registration it asks for. */
  datatype Inspect = Failed | NotRunning | Rejected | NotPublished | Found(q: Request)

  datatype Labels = Malformed | Disabled | Enabled

  /** A listed container with the answers that successive inspect calls get. */
  datatype Container = Container(id: Id, labels: Labels, answers: seq<Inspect>)

  const RETRIES: nat := 7

  /** What registerContainer settles on: the first answer that is not a missing port,
      or a missing port after seven retries; running out of answers is a failure. */
  function Settle(answers: seq<Inspect>, attempt: nat): Inspect
    decreases |answers| - attempt
  {
    if attempt >= |answers| then Failed
    else if answers[attempt] == NotPublished && attempt < RETRIES then Settle(answers, attempt + 1)
    else answers[attempt]
  }

  function Inspected(x: Container): Inspect { Settle(x.answers, 0) }

  /** The registration names the container it was found in, comes from Docker and has an
      owner key, as RegistrationFromInspect guarantees. */
  ghost predicate Genuine(x: Container) {
    Inspected(x).Found? ==>
      var q := Inspected(x).q;
      q.source == Docker && q.containerID == x.id && x.id != "" && q.ownerKey != ""
  }

  /** The part of admission that does not depend on the registry. */
  function StaticTicket(c: Config, x: Container): Option<Ticket> {
    if !Inspected(x).Found? then None
    else match Admit(c, map[], Inspected(x).q, "")
      case Ok(t) => Some(t)
      case Err(_) => None
  }

  /** Whatever the registration ID, admission is the static ticket's verdict. */
  lemma AdmitFactors(c: Config, reg: Services, x: Container, regID: Id)
    requires Genuine(x) && Inspected(x).Found?
    ensures var r := Admit(c, reg, Inspected(x).q, regID);
      var t := StaticTicket(c, x);
      && (r.Ok? <==> t.Some? && Accepts(reg, t.value))
      && (r.Ok? ==> r.value == t.value.(regID := regID))
  {}

  lemma StaticTicketValid(c: Config, x: Container)
    requires StaticTicket(c, x).Some?
    ensures ValidTicket(StaticTicket(c, x).value)
    ensures StaticTicket(c, x).value.name == Inspected(x).q.name
    ensures Genuine(x) ==> StaticTicket(c, x).value.producerID == x.id && StaticTicket(c, x).value.source == Docker
  {
    var q := Inspected(x).q;
    if ParseKind(q.kind) == Some(HTTP) {
      Hosts.CanonicalIsAccepted(q.httpHost);
    }
  }

  // ----- A pass -----

  /** What the watcher keeps per container: the name it was registered under. */
  type Tracked = map<Id, Name>

  datatype View = View(reg: Services, tracked: Tracked)

  /** A listed container as a pass sees it. */
  datatype Item = Item(id: Id, enabled: bool, ticket: Option<Ticket>)

  function ItemOf(c: Config, x: Container): Item {
    Item(x.id, x.labels == Enabled, StaticTicket(c, x))
  }

  function Items(c: Config, inv: seq<Container>): (items: seq<Item>)
    ensures |items| == |inv|
  {
    seq(|inv|, i requires 0 <= i < |inv| => ItemOf(c, inv[i]))
  }

  /** registerContainer against the daemon: publish, then track. `port` is the frontend
      port that an allocation gives, if one is needed and succeeds. */
  function RegisteredView(url: Urls, v: View, id: Id, ticket: Option<Ticket>, port: Option<int>): View {
    if ticket.Some? && Accepts(v.reg, ticket.value) && FrontIn(url, v.reg, ticket.value, port).Some?
    then View(Published(url, v.reg, ticket.value, port), v.tracked[id := ticket.value.name])
    else v
  }

  function Seen(items: seq<Item>): set<Id> {
    set i | 0 <= i < |items| && items[i].enabled :: items[i].id
  }

  /** The first `i` containers of the inventory have been dealt with. */
  function RegisteredUpTo(url: Urls, v: View, items: seq<Item>, ports: map<nat, int>, i: nat): View
    requires i <= |items|
  {
    if i == 0 then v else
    var before := RegisteredUpTo(url, v, items, ports, i - 1);
    if items[i - 1].enabled
    then RegisteredView(url, before, items[i - 1].id, items[i - 1].ticket, PortAt(ports, i - 1))
    else before
  }

  /** The registration does not fail for want of a frontend. */
  predicate GetsFrontend(url: Urls, v: View, ticket: Option<Ticket>, port: Option<int>) {
    ticket.Some? && Accepts(v.reg, ticket.value) ==> FrontIn(url, v.reg, ticket.value, port).Some?
  }

  /** None of the first `i` registrations did. */
  predicate FrontedUpTo(url: Urls, v: View, items: seq<Item>, ports: map<nat, int>, i: nat)
    requires i <= |items|
  {
    i == 0 ||
    (FrontedUpTo(url, v, items, ports, i - 1) &&
     (items[i - 1].enabled ==>
        GetsFrontend(url, RegisteredUpTo(url, v, items, ports, i - 1), items[i - 1].ticket, PortAt(ports, i - 1))))
  }

  /** Every publication whose producer is among the containers in `gone`, under the name
      it was tracked by, is ended. */
  function ForgottenAll(reg: Services, gone: Tracked): Services {
    map n | n in reg ::
      if reg[n].producerID in gone && gone[reg[n].producerID] == n then Dormant(reg[n]) else reg[n]
  }

  function Gone(tracked: Tracked, seen: set<Id>): Tracked {
    map id | id in tracked && id !in seen :: tracked[id]
  }

  function Kept(tracked: Tracked, seen: set<Id>): Tracked {
    map id | id in tracked && id in seen :: tracked[id]
  }

  /** Reconcile: register what is listed, then forget what is tracked and not listed. */
  function Pass(url: Urls, v: View, items: seq<Item>, ports: map<nat, int>): View {
    var r := RegisteredUpTo(url, v, items, ports, |items|);
    View(ForgottenAll(r.reg, Gone(r.tracked, Seen(items))), Kept(r.tracked, Seen(items)))
  }

  // ----- Two passes converge -----

  /** One ticket per container ID, and no malformed ones. */
  ghost predicate Inventory(items: seq<Item>) {
    && (forall i :: 0 <= i < |items| && items[i].ticket.Some? ==> ValidTicket(items[i].ticket.value))
    && (forall i, j :: 0 <= i < |items| && 0 <= j < |items| && items[i].id == items[j].id ==> items[i] == items[j])
  }

  /** Containers whose answers are fixed by their ID make an inventory. */
  lemma ContainersMakeInventory(c: Config, inv: seq<Container>)
    requires forall i, j :: 0 <= i < |inv| && 0 <= j < |inv| && inv[i].id == inv[j].id ==> inv[i] == inv[j]
    ensures Inventory(Items(c, inv))
  {
    forall i | 0 <= i < |inv| && Items(c, inv)[i].ticket.Some? ensures ValidTicket(Items(c, inv)[i].ticket.value) {
      StaticTicketValid(c, inv[i]);
    }
  }

  function Tickets(items: seq<Item>): seq<Option<Ticket>> {
    seq(|items|, i requires 0 <= i < |items| => if items[i].enabled then items[i].ticket else None)
  }

  /** The registry half of a pass is the round of its tickets. */
  lemma {:induction false} PassIsRound(url: Urls, v: View, items: seq<Item>, ports: map<nat, int>, i: nat)
    requires i <= |items|
    ensures RegisteredUpTo(url, v, items, ports, i).reg == After(url, v.reg, Tickets(items), ports, i)
  {
    if i > 0 {
      PassIsRound(url, v, items, ports, i - 1);
    }
  }

  lemma {:induction false} FrontedThroughout(url: Urls, v: View, items: seq<Item>, ports: map<nat, int>, i: nat, k: nat)
    requires k < i <= |items| && FrontedUpTo(url, v, items, ports, i) && Admitted(url, v.reg, Tickets(items), ports, k)
    ensures FrontIn(url, After(url, v.reg, Tickets(items), ports, k), Tickets(items)[k].value, PortAt(ports, k)).Some?
  {
    if k == i - 1 {
      PassIsRound(url, v, items, ports, k);
    } else {
      FrontedThroughout(url, v, items, ports, i - 1, k);
    }
  }

  /** What a pass observes is what convergence asks for. */
  lemma FrontedMeansAll(url: Urls, v: View, items: seq<Item>, ports: map<nat, int>)
    requires FrontedUpTo(url, v, items, ports, |items|)
    ensures AllFronted(url, v.reg, Tickets(items), ports)
  {
    forall k: nat | k < |items| && Admitted(url, v.reg, Tickets(items), ports, k)
      ensures FrontIn(url, After(url, v.reg, Tickets(items), ports, k), Tickets(items)[k].value, PortAt(ports, k)).Some?
    {
      FrontedThroughout(url, v, items, ports, |items|, k);
    }
  }

  lemma {:induction false} TrackedAreSeen(url: Urls, v: View, items: seq<Item>, ports: map<nat, int>, i: nat)
    requires i <= |items| && v.tracked.Keys <= Seen(items)
    ensures RegisteredUpTo(url, v, items, ports, i).tracked.Keys <= Seen(items)
  {
    if i > 0 {
      TrackedAreSeen(url, v, items, ports, i - 1);
      assert items[i - 1].enabled ==> items[i - 1].id in Seen(items);
    }
  }

  /** A pass that starts with nothing to forget is just its registrations. */
  lemma NothingToForget(url: Urls, v: View, items: seq<Item>, ports: map<nat, int>)
    requires v.tracked.Keys <= Seen(items)
    ensures Pass(url, v, items, ports) == RegisteredUpTo(url, v, items, ports, |items|)
  {
    TrackedAreSeen(url, v, items, ports, |items|);
    var r := RegisteredUpTo(url, v, items, ports, |items|);
    assert Gone(r.tracked, Seen(items)) == map[] && Kept(r.tracked, Seen(items)) == r.tracked;
    assert ForgottenAll(r.reg, map[]) == r.reg;
  }

  /** Containers admitted among the first `i` are tracked under their name. */
  lemma {:induction false} AdmittedAreTracked(url: Urls, v: View, items: seq<Item>,
                                              ports: map<nat, int>, j: nat, i: nat)
    requires j < i <= |items| && Inventory(items) && AllFronted(url, v.reg, Tickets(items), ports)
    requires Admitted(url, v.reg, Tickets(items), ports, j)
    ensures var r := RegisteredUpTo(url, v, items, ports, i);
      items[j].id in r.tracked && r.tracked[items[j].id] == items[j].ticket.value.name
    decreases i
  {
    if j == i - 1 {
      PassIsRound(url, v, items, ports, j);
    } else {
      AdmittedAreTracked(url, v, items, ports, j, i - 1);
    }
  }

  /** Registering again what is already tracked leaves the map alone. */
  lemma {:induction false} TrackedStays(url: Urls, v: View, items: seq<Item>, ports: map<nat, int>, i: nat)
    requires i <= |items|
    requires forall j :: 0 <= j < |items| && Admitted(url, v.reg, Tickets(items), ports, j) ==>
      items[j].id in v.tracked && v.tracked[items[j].id] == items[j].ticket.value.name
    ensures RegisteredUpTo(url, v, items, ports, i).tracked == v.tracked
  {
    if i > 0 {
      TrackedStays(url, v, items, ports, i - 1);
      PassIsRound(url, v, items, ports, i - 1);
      var before := RegisteredUpTo(url, v, items, ports, i - 1);
      assert RegisteredUpTo(url, v, items, ports, i) == before || Admitted(url, v.reg, Tickets(items), ports, i - 1);
    }
  }

  lemma ForgettingWellFormed(url: Urls, v: View, items: seq<Item>, ports: map<nat, int>)
    requires WellFormed(url, v.reg) && Inventory(items)
    ensures WellFormed(url, Pass(url, v, items, ports).reg)
  {
    PassIsRound(url, v, items, ports, |items|);
    AfterWellFormed(url, v.reg, Tickets(items), ports, |items|);
  }

  /** From a state that tracks only listed containers one pass reaches the fixpoint. */
  lemma SettledAfterOne(url: Urls, v: View, items: seq<Item>, ports: map<nat, int>, ports': map<nat, int>)
    requires WellFormed(url, v.reg) && Inventory(items) && v.tracked.Keys <= Seen(items)
    requires AllFronted(url, v.reg, Tickets(items), ports)
    ensures var v2 := Pass(url, v, items, ports); Pass(url, v2, items, ports') == v2
  {
    var ts := Tickets(items);
    var v2 := Pass(url, v, items, ports);
    NothingToForget(url, v, items, ports);
    TrackedAreSeen(url, v, items, ports, |items|);
    NothingToForget(url, v2, items, ports');
    PassIsRound(url, v, items, ports, |items|);
    PassIsRound(url, v2, items, ports', |items|);
    SecondRoundChangesNothing(url, v.reg, ts, ports, ports');
    forall j | 0 <= j < |items| && Admitted(url, v2.reg, ts, ports', j)
      ensures items[j].id in v2.tracked && v2.tracked[items[j].id] == items[j].ticket.value.name
    {
      AdmittedAgain(url, v.reg, ts, ports, ports', j);
      AdmittedAreTracked(url, v, items, ports, j, |items|);
    }
    TrackedStays(url, v2, items, ports', |items|);
  }

  /** From any state and for any fixed inventory, whatever its containers answer: if no
      allocation of the second pass fails, a third changes neither a record nor the
      tracked map. */
  lemma TwoPassesConverge(url: Urls, v: View, items: seq<Item>,
                          ports1: map<nat, int>, ports2: map<nat, int>, ports3: map<nat, int>)
    requires WellFormed(url, v.reg) && Inventory(items)
    requires AllFronted(url, Pass(url, v, items, ports1).reg, Tickets(items), ports2)
    ensures var v2 := Pass(url, Pass(url, v, items, ports1), items, ports2);
      Pass(url, v2, items, ports3) == v2
  {
    ForgettingWellFormed(url, v, items, ports1);
    SettledAfterOne(url, Pass(url, v, items, ports1), items, ports2, ports3);
  }

  /** One pass is not enough: a container of a new owner is refused while the record of
      the old one is still ready, which the same pass then ends. */
  lemma OnePassIsNotEnough(url: Urls, t: Ticket, front: Frontend)
    requires ValidTicket(t) && t.ownerKey != "docker:old:80" && t.producerID != "old"
    requires t.kind == HTTP ==> front == url(t.hostname)
    ensures var was := RecordOf(t.(ownerKey := "docker:old:80", producerID := "old"), front);
      var v := View(map[t.name := was], map["old" := t.name]);
      var items := [Item(t.producerID, true, Some(t))];
      var v1 := Pass(url, v, items, map[0 := 1]);
      && v1.reg == map[t.name := Dormant(was)]
      && Pass(url, v1, items, map[0 := 1]).reg == map[t.name := RecordOf(t, front)]
  {
    var was := RecordOf(t.(ownerKey := "docker:old:80", producerID := "old"), front);
    var v := View(map[t.name := was], map["old" := t.name]);
    var items := [Item(t.producerID, true, Some(t))];
    var ports: map<nat, int> := map[0 := 1];
    assert Seen(items) == {t.producerID} by { assert items[0].enabled; }
    assert RegisteredUpTo(url, v, items, ports, 1) == RegisteredView(url, v, t.producerID, Some(t), Some(1)) == v;
    assert Gone(v.tracked, Seen(items)) == map["old" := t.name];
    var v1 := Pass(url, v, items, ports);
    assert v1.reg == map[t.name := Dormant(was)] && v1.tracked == map[];
    NothingToForget(url, v1, items, ports);
    assert RegisteredUpTo(url, v1, items, ports, 1) == RegisteredView(url, v1, t.producerID, Some(t), Some(1));
  }

  // ----- The tracked map stays coupled to the registry -----

  /** Every ready Docker record belongs to a tracked container, under its name. */
  ghost predicate Coupled(v: View) {
    forall n :: n in v.reg && v.reg[n].status == Ready && v.reg[n].source == Docker ==>
      v.reg[n].producerID in v.tracked && v.tracked[v.reg[n].producerID] == n
  }

  /** A container's name is fixed by its ID. */
  ghost predicate Named(names: Id -> Name, tracked: Tracked) {
    forall id :: id in tracked ==> tracked[id] == names(id)
  }

  ghost predicate ItemNamed(names: Id -> Name, x: Item) {
    x.ticket.Some? ==>
      x.ticket.value.name == names(x.id) && x.ticket.value.producerID == x.id && x.ticket.value.source == Docker
  }

  /** What others may do to the registry: anything but publish for Docker. */
  ghost predicate Rely(reg: Services, reg': Services) {
    forall n :: n in reg' && reg'[n].status == Ready && reg'[n].source == Docker ==> n in reg && reg[n] == reg'[n]
  }

  /** A die, stop or destroy event: untrack, then end the publication that was tracked. */
  function Stopped(v: View, id: Id): View {
    if id in v.tracked then View(Cleared(v.reg, v.tracked[id], id), v.tracked - {id}) else v
  }

  /** A stop event makes exactly the record of that container, under the name it was
      tracked by, unavailable, forgets the container, and keeps the coupling. */
  lemma StoppedEnds(names: Id -> Name, v: View, id: Id, n: Name)
    requires Coupled(v) && Named(names, v.tracked) && n in v.reg
    ensures var v' := Stopped(v, id);
      && Coupled(v') && Named(names, v'.tracked) && v'.tracked.Keys == v.tracked.Keys - {id}
      && n in v'.reg
      && if id in v.tracked && v.tracked[id] == n && v.reg[n].producerID == id
         then v'.reg[n].status == Unavailable && v'.reg[n].backend == None && v'.reg[n].frontend == v.reg[n].frontend
         else v'.reg[n] == v.reg[n]
  {}

  lemma RegisteredStaysCoupled(url: Urls, names: Id -> Name, v: View, x: Item, port: Option<int>)
    requires Coupled(v) && Named(names, v.tracked) && ItemNamed(names, x)
    ensures var v' := RegisteredView(url, v, x.id, x.ticket, port); Coupled(v') && Named(names, v'.tracked)
  {}

  lemma {:induction false} RegisteredUpToStaysCoupled(url: Urls, names: Id -> Name, v: View, items: seq<Item>,
                                                      ports: map<nat, int>, i: nat)
    requires i <= |items| && Coupled(v) && Named(names, v.tracked)
    requires forall j :: 0 <= j < |items| ==> ItemNamed(names, items[j])
    ensures var v' := RegisteredUpTo(url, v, items, ports, i); Coupled(v') && Named(names, v'.tracked)
  {
    if i > 0 {
      RegisteredUpToStaysCoupled(url, names, v, items, ports, i - 1);
      var before := RegisteredUpTo(url, v, items, ports, i - 1);
      RegisteredStaysCoupled(url, names, before, items[i - 1], PortAt(ports, i - 1));
    }
  }

  /** After a completed pass every ready Docker record belongs to a listed container. */
  lemma PassLeavesOnlyListed(url: Urls, names: Id -> Name, v: View, items: seq<Item>, ports: map<nat, int>, n: Name)
    requires Coupled(v) && Named(names, v.tracked)
    requires forall j :: 0 <= j < |items| ==> ItemNamed(names, items[j])
    requires var r := Pass(url, v, items, ports).reg; n in r && r[n].status == Ready && r[n].source == Docker
    ensures Pass(url, v, items, ports).reg[n].producerID in Seen(items)
  {
    RegisteredUpToStaysCoupled(url, names, v, items, ports, |items|);
  }

  /** A ready record of a listed container keeps being ready for its owner through the
      registrations of a pass, its producer always a listed container. */
  lemma {:induction false} ListedStaysReady(url: Urls, names: Id -> Name, v: View, items: seq<Item>,
                                            ports: map<nat, int>, i: nat, n: Name)
    requires i <= |items| && forall j :: 0 <= j < |items| ==> ItemNamed(names, items[j])
    requires n in v.reg && v.reg[n].status == Ready && v.reg[n].producerID in Seen(items)
    ensures var r := RegisteredUpTo(url, v, items, ports, i).reg;
      n in r && r[n].status == Ready && r[n].ownerKey == v.reg[n].ownerKey && r[n].producerID in Seen(items)
  {
    if i > 0 {
      ListedStaysReady(url, names, v, items, ports, i - 1, n);
      assert items[i - 1].enabled ==> items[i - 1].id in Seen(items);
    }
  }

  /** A pass never clears a listed container, whether or not inspecting it succeeds; its
      record can only pass on to another listed container of the same owner. */
  lemma ListedIsNeverCleared(url: Urls, names: Id -> Name, v: View, items: seq<Item>, ports: map<nat, int>, n: Name)
    requires forall j :: 0 <= j < |items| ==> ItemNamed(names, items[j])
    requires n in v.reg && v.reg[n].status == Ready && v.reg[n].producerID in Seen(items)
    ensures var r := Pass(url, v, items, ports).reg;
      n in r && r[n].status == Ready && r[n].ownerKey == v.reg[n].ownerKey && r[n].producerID in Seen(items)
  {
    ListedStaysReady(url, names, v, items, ports, |items|, n);
  }
}
