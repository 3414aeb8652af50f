/** internal/proxy: HTTP requests demultiplexed by Host header. A route stores only
    the name of the service whose record its provider reads. */
module Router {
  import opened Types
  import opened Registry
  import opened Hosts

  type Routes = map<string, Name>

  datatype Answer = NoRoute404 | Unavailable503 | ProxiedTo(backend: Backend)

  function Routed(routes: Routes, hostname: string, name: Name): Routes {
    routes[NormalizeHost(hostname) := name]
  }

  function FromBackend(b: Option<Backend>): Answer {
    if b.Some? then ProxiedTo(b.value) else Unavailable503
  }

  function AnswerAt(routes: Routes, services: Services, key: string): Answer {
    if key !in routes then NoRoute404 else FromBackend(CurrentBackend(services, routes[key]))
  }

  /** The proxy's answer to a request with this Host header. */
  function Served(routes: Routes, services: Services, requestHost: string): Answer {
    AnswerAt(routes, services, NormalizeHost(requestHost))
  }

  ghost predicate Holds(services: Services, n: Name, hostname: string) {
    n in services && services[n].kind == HTTP && services[n].hostname == hostname
  }

  /** The answer the registry alone would give for a hostname. */
  ghost predicate RegistrySays(services: Services, hostname: string, a: Answer) {
    && (a == NoRoute404 <==> forall n :: !Holds(services, n, hostname))
    && (forall n :: Holds(services, n, hostname) ==> a == FromBackend(CurrentBackend(services, n)))
  }

  /** Non-default listener ports are part of the URL. */
  function FrontendURL(c: Config, hostname: string): Frontend {
    Url(c.scheme, NormalizeHost(hostname),
        if c.httpPort > 0 && (c.scheme != "http" || c.httpPort != 80) && (c.scheme != "https" || c.httpPort != 443)
        then c.httpPort else 0)
  }

  class Router {
    var routes: Routes

    constructor ()
      ensures routes == map[]
    {
      routes := map[];
    }

    method Set(hostname: string, name: Name)
      modifies this
      ensures routes == Routed(old(routes), hostname, name)
    {
      var key := NormalizeHost(hostname);
      routes := routes[key := name];
    }

    /** The provider is evaluated once, after the route has been chosen. */
    method ServeHTTP(requestHost: string, registry: Registry) returns (a: Answer)
      ensures a == Served(routes, registry.services, requestHost)
    {
      var host := NormalizeHost(requestHost);
      if host !in routes {
        return NoRoute404;
      }
      var rec := registry.Resolve(routes[host]);
      if rec.None? || rec.value.status != Ready || rec.value.backend.None? {
        return Unavailable503;
      }
      a := ProxiedTo(rec.value.backend.value);
    }
  }

  function DefaultPort(scheme: string): int {
    if scheme == "http" then 80 else if scheme == "https" then 443 else 0
  }

  /** A consumer that follows the URL arrives at the configured listener, and the URL
      names a port only where the scheme does not imply it. */
  lemma URLReachesListener(c: Config, hostname: string)
    requires c.httpPort > 0
    ensures var u := FrontendURL(c, hostname);
      && u.scheme == c.scheme && u.host == NormalizeHost(hostname)
      && (if u.urlPort != 0 then u.urlPort else DefaultPort(u.scheme)) == c.httpPort
      && (u.urlPort == 0 <==> DefaultPort(c.scheme) == c.httpPort)
  {}

  // ----- Agreement with the registry -----

  /** What every reachable route table satisfies, whatever the hostnames. */
  ghost predicate Indexed(routes: Routes, services: Services) {
    && HostsUnique(services)
    && (forall n :: n in services && services[n].kind == HTTP ==> Accepted(services[n].hostname))
    && (forall k :: k in routes ==>
          routes[k] in services && services[routes[k]].kind == HTTP && NormalizeHost(services[routes[k]].hostname) == k)
    && (forall n :: n in services && services[n].kind == HTTP ==> NormalizeHost(services[n].hostname) in routes)
  }

  ghost predicate AllPlain(services: Services) {
    forall n :: n in services && services[n].kind == HTTP ==> Plain(services[n].hostname)
  }

  /** The hostname of `n` is the route key of `n` and of no other service. */
  ghost predicate OwnsKey(services: Services, n: Name)
    requires n in services
  {
    && Plain(services[n].hostname)
    && forall m :: m in services && m != n && services[m].kind == HTTP ==>
         NormalizeHost(services[m].hostname) != services[n].hostname
  }

  /** Plain hostnames all do. */
  lemma PlainOwnsKey(services: Services, n: Name)
    requires HostsUnique(services) && AllPlain(services)
    requires forall m :: m in services && services[m].kind == HTTP ==> Accepted(services[m].hostname)
    requires n in services && services[n].kind == HTTP
    ensures OwnsKey(services, n)
  {
    forall m | m in services && m != n && services[m].kind == HTTP
      ensures NormalizeHost(services[m].hostname) != services[n].hostname
    {
      FixedPointIff(services[m].hostname);
    }
  }

  ghost predicate Agrees(routes: Routes, services: Services) {
    forall x :: RegistrySays(services, NormalizeHost(x), Served(routes, services, x))
  }

  /** Each route is stored under the hostname of its service, and each HTTP service
      has one. */
  ghost predicate KeyedByHost(routes: Routes, services: Services) {
    && (forall k :: k in routes ==> Holds(services, routes[k], k))
    && (forall n :: n in services && services[n].kind == HTTP ==> services[n].hostname in routes)
  }

  lemma PlainKeys(routes: Routes, services: Services)
    requires Indexed(routes, services) && AllPlain(services)
    ensures KeyedByHost(routes, services)
  {
    forall n | n in services && services[n].kind == HTTP
      ensures NormalizeHost(services[n].hostname) == services[n].hostname
    {
      FixedPointIff(services[n].hostname);
    }
  }

  lemma KeyedAgrees(routes: Routes, services: Services, key: string)
    requires HostsUnique(services) && KeyedByHost(routes, services)
    ensures RegistrySays(services, key, AnswerAt(routes, services, key))
  {
    if key in routes {
      assert Holds(services, routes[key], key);
    }
  }

  lemma {:induction false} Longest(services: Services, names: set<Name>) returns (best: Name)
    requires names != {} && forall n :: n in names ==> n in services
    ensures best in names && forall n :: n in names ==> |services[n].hostname| <= |services[best].hostname|
    decreases names
  {
    var first :| first in names;
    var rest := names - {first};
    best := first;
    if rest != {} {
      var other := Longest(services, rest);
      if |services[other].hostname| > |services[first].hostname| {
        best := other;
      }
    }
    forall n | n in names ensures |services[n].hostname| <= |services[best].hostname| {
      assert n == first || n in rest;
    }
  }

  /** The longest hostname that is not plain is claimed by its service, yet no route
      is stored under it. */
  lemma OddKeyFree(routes: Routes, services: Services, names: set<Name>, best: Name)
    requires Indexed(routes, services)
    requires names == set n | n in services && services[n].kind == HTTP && !Plain(services[n].hostname)
    requires best in names && forall n :: n in names ==> |services[n].hostname| <= |services[best].hostname|
    ensures services[best].hostname !in routes
  {
    var h := services[best].hostname;
    if h in routes {
      NormalizeShrinks(services[routes[h]].hostname);
      FixedPointIff(services[routes[h]].hostname);
    }
  }

  /** One hostname that is not plain is enough for some request to be answered wrongly. */
  lemma OddDisagrees(routes: Routes, services: Services, odd: Name) returns (x: string)
    requires Indexed(routes, services)
    requires odd in services && services[odd].kind == HTTP && !Plain(services[odd].hostname)
    ensures !RegistrySays(services, NormalizeHost(x), Served(routes, services, x))
  {
    var names := set n | n in services && services[n].kind == HTTP && !Plain(services[n].hostname);
    assert odd in names;
    var best := Longest(services, names);
    OddKeyFree(routes, services, names, best);
    var h := services[best].hostname;
    x := "[" + h + ".";
    KeyIsReachable(h);
    assert Holds(services, best, h);
  }

  /** The proxy answers exactly as the registry would, for every Host header, if and
      only if every HTTP hostname is plain: no surrounding space, no leading bracket,
      no trailing bracket or dot. */
  lemma RoutingAgreesIff(routes: Routes, services: Services)
    requires Indexed(routes, services)
    ensures Agrees(routes, services) <==> AllPlain(services)
  {
    if AllPlain(services) {
      PlainKeys(routes, services);
      forall x ensures RegistrySays(services, NormalizeHost(x), Served(routes, services, x)) {
        KeyedAgrees(routes, services, NormalizeHost(x));
      }
    } else {
      var odd :| odd in services && services[odd].kind == HTTP && !Plain(services[odd].hostname);
      var x := OddDisagrees(routes, services, odd);
    }
  }
}
