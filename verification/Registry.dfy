/** internal/registry: the map of service records and its ownership rules. */
module Registry {
  import opened Types

  // ----- What the operations do to the map -----

  /** May `ownerKey` claim `name`: unclaimed, its own, or dormant. */
  predicate Claimable(services: Services, name: Name, ownerKey: string) {
    name !in services || services[name].ownerKey == ownerKey || services[name].status == Unavailable
  }

  function Dormant(rec: Record): Record {
    rec.(backend := None, status := Unavailable)
  }

  function Cleared(services: Services, name: Name, producerID: Id): Services {
    if name in services && services[name].producerID == producerID
    then services[name := Dormant(services[name])]
    else services
  }

  /** Some service other than `name` holds `hostname`. */
  predicate HostTaken(services: Services, hostname: string, name: Name) {
    exists m :: m in services && m != name && services[m].hostname == hostname
  }

  ghost predicate NamesMatch(services: Services) {
    forall n :: n in services ==> services[n].name == n
  }

  /** No two HTTP services hold the same hostname. */
  ghost predicate HostsUnique(services: Services) {
    forall m, n | m in services && n in services && m != n && services[m].kind == services[n].kind == HTTP ::
      services[m].hostname != services[n].hostname
  }

  /** The backend a provider closure for `name` hands to a proxy. */
  function CurrentBackend(services: Services, name: Name): Option<Backend> {
    if name in services && services[name].status == Ready then services[name].backend else None
  }

  class Registry {
    var services: Services

    constructor ()
      ensures services == map[]
    {
      services := map[];
    }

    method CheckOwnership(name: Name, ownerKey: string) returns (ok: bool)
      ensures ok <==> Claimable(services, name, ownerKey)
    {
      ok := true;
      if name in services {
        var existing := services[name];
        if existing.ownerKey != ownerKey && existing.status != Unavailable {
          ok := false;
        }
      }
    }

    method CreateOrReplaceOwned(rec: Record) returns (ok: bool)
      modifies this
      ensures ok == Claimable(old(services), rec.name, rec.ownerKey)
      ensures services == if ok then old(services)[rec.name := rec] else old(services)
    {
      ok := CheckOwnership(rec.name, rec.ownerKey);
      if ok {
        services := services[rec.name := rec];
      }
    }

    method ClearBackendIf(name: Name, producerID: Id) returns (cleared: bool)
      modifies this
      ensures services == Cleared(old(services), name, producerID)
      ensures cleared <==> name in old(services) && old(services)[name].producerID == producerID
    {
      if name !in services || services[name].producerID != producerID {
        return false;
      }
      services := services[name := services[name].(backend := None, status := Unavailable)];
      cleared := true;
    }

    /** Map iteration order is arbitrary, so any holder of the hostname may be found. */
    method FindByHostname(hostname: string) returns (found: Option<Record>)
      ensures found.Some? ==> found.value in services.Values && found.value.hostname == hostname
      ensures found.None? ==> forall n :: n in services ==> services[n].hostname != hostname
    {
      found := None;
      var todo := services.Keys;
      while todo != {}
        invariant todo <= services.Keys
        invariant forall n :: n in services && n !in todo ==> services[n].hostname != hostname
      {
        var n :| n in todo;
        if services[n].hostname == hostname {
          return Some(services[n]);
        }
        todo := todo - {n};
      }
    }

    method Resolve(name: Name) returns (r: Option<Record>)
      ensures r == if name in services then Some(services[name]) else None
    {
      r := if name in services then Some(services[name]) else None;
    }
  }

  // ----- Consequences -----

  /** Where hostnames are unique, whichever record FindByHostname meets first gives
      the same verdict as asking whether some other service holds the hostname. */
  lemma HostnameVerdict(services: Services, hostname: string, name: Name, found: Record)
    requires NamesMatch(services) && HostsUnique(services)
    requires forall n :: n in services && services[n].hostname == hostname ==> services[n].kind == HTTP
    requires found in services.Values && found.hostname == hostname
    ensures found.name != name <==> HostTaken(services, hostname, name)
  {
    var m :| m in services && services[m] == found;
    assert m == found.name;
  }

  /** A dormant record has no backend; whose it is, what it is and where it is reached stay. */
  lemma DormantKeepsIdentity(rec: Record)
    ensures var d := Dormant(rec);
      && d.backend == None && d.status == Unavailable
      && d.name == rec.name && d.kind == rec.kind && d.hostname == rec.hostname && d.frontend == rec.frontend
      && d.ownerKey == rec.ownerKey && d.producerID == rec.producerID && d.source == rec.source
      && d.appProtocol == rec.appProtocol
  {}

  /** A removal naming any producer but the current one changes nothing. */
  lemma StaleRemovalIgnored(services: Services, name: Name, producerID: Id, n: Name)
    requires n in services
    ensures n in Cleared(services, name, producerID)
    ensures Cleared(services, name, producerID)[n] ==
      if n == name && services[n].producerID == producerID then Dormant(services[n]) else services[n]
  {}
}
