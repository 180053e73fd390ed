/** The API gateway's routing table: per service, a reverse proxy and the URL
    it targets, kept in two maps that change together. Discovery asks the
    registry for the two known services and falls back to fixed cluster-DNS
    URLs when a lookup fails; a URL that does not parse leaves the table as
    it was. */
module ApiGateway {
  import opened Common
  import opened Discovery

  const ProductService := "product-service"
  const OrderService := "order-service"

  /** The services discovery looks up, in order. */
  const KnownServices: seq<string> := [ProductService, OrderService]

  /** The cluster-DNS URL used when the registry has no answer. */
  function Fallback(serviceName: string): string {
    if serviceName == ProductService then "http://product-service:8081"
    else if serviceName == OrderService then "http://order-service:8082"
    else ""
  }

  /** `url.Parse` as far as this model follows it: it refuses ASCII control
      characters and a URL that starts with ':' (no scheme). */
  predicate UrlParses(s: string) {
    && (forall i :: 0 <= i < |s| ==> ' ' <= s[i] && s[i] != '\U{7f}')
    && !(|s| > 0 && s[0] == ':')
  }

  /** The URL discovery installs for a service: the registry's, or the
      fallback when the lookup fails. */
  function Resolve(serviceName: string, query: Result<seq<Instance>>): string {
    match GetServiceURL(serviceName, query)
    case Ok(url) => url
    case Err(_) => Fallback(serviceName)
  }

  /** The routes after `updateProxy(name, url)`. */
  function AfterUpdate(services: map<string, string>, name: string, url: string): (r: map<string, string>)
    ensures UrlParses(url) ==> name in r && r[name] == url
    ensures !UrlParses(url) ==> r == services
    ensures forall n :: n != name ==> (n in r <==> n in services) && (n in r ==> r[n] == services[n])
  {
    if UrlParses(url) then services[name := url] else services
  }

  /** The routes after updating each named service in turn. */
  function Rediscover(services: map<string, string>, names: seq<string>, query: string -> Result<seq<Instance>>): map<string, string>
    decreases |names|
  {
    if names == [] then services
    else
      var last := names[|names| - 1];
      AfterUpdate(Rediscover(services, names[..|names| - 1], query), last, Resolve(last, query(last)))
  }

  /** The fallbacks of the known services always parse. */
  lemma FallbacksParse(serviceName: string)
    requires serviceName in KnownServices
    ensures UrlParses(Fallback(serviceName))
  {
    var f := Fallback(serviceName);
    assert forall i :: 0 <= i < |f| ==> ' ' <= f[i] && f[i] != '\U{7f}';
  }

  /** How one service's route stands after its update: its fallback when
      the lookup failed, whatever route it had; the registry's URL when that
      parses; its previous route, or none, when it does not. */
  predicate RoutedAfterLookup(before: map<string, string>, after: map<string, string>, name: string,
                              query: Result<seq<Instance>>)
  {
    match GetServiceURL(name, query)
    case Err(_) => name in after && after[name] == Fallback(name)
    case Ok(url) =>
      if UrlParses(url) then name in after && after[name] == url
      else (name in after <==> name in before) && (name in after ==> after[name] == before[name])
  }

  lemma RediscoverKnown(services: map<string, string>, query: string -> Result<seq<Instance>>)
    ensures Rediscover(services, KnownServices, query)
      == AfterUpdate(AfterUpdate(services, ProductService, Resolve(ProductService, query(ProductService))),
                     OrderService, Resolve(OrderService, query(OrderService)))
  {
    var names := KnownServices;
    assert names[..1] == [ProductService] && names[..1][..0] == [] && names[..|names| - 1] == names[..1];
    assert names[|names| - 1] == OrderService && names[..1][0] == ProductService;
    assert Rediscover(services, names[..1][..0], query) == services;
    assert Rediscover(services, names[..1], query)
      == AfterUpdate(services, ProductService, Resolve(ProductService, query(ProductService)));
  }

  /** Discovery touches the two known services only, and routes each of them
      as its own lookup says. */
  lemma DiscoveryRoutes(services: map<string, string>, query: string -> Result<seq<Instance>>)
    ensures var r := Rediscover(services, KnownServices, query);
      && (forall n :: n !in KnownServices ==> (n in r <==> n in services) && (n in r ==> r[n] == services[n]))
      && RoutedAfterLookup(services, r, ProductService, query(ProductService))
      && RoutedAfterLookup(services, r, OrderService, query(OrderService))
  {
    RediscoverKnown(services, query);
    FallbacksParse(ProductService);
    FallbacksParse(OrderService);
  }

  /** The reverse proxy installed for a service: it forwards to its target. */
  datatype ReverseProxy = ReverseProxy(target: string)

  /** What a proxied route does with a request: forward it, or answer itself. */
  datatype Reply = Forward(target: string) | Reject(status: int, error: string)

  /** The gateway's health report. */
  datatype HealthReport = HealthReport(status: string, service: string, services: map<string, string>)

  class Gateway {
    var proxies: map<string, ReverseProxy>
    var services: map<string, string>

    /** Every service has a proxy and a URL, and the proxy targets that URL. */
    ghost predicate Valid()
      reads this
    {
      && proxies.Keys == services.Keys
      && forall n :: n in proxies ==> proxies[n].target == services[n]
    }

    /** `NewGateway`: an empty table, then one discovery round. */
    constructor (query: string -> Result<seq<Instance>>)
      ensures Valid()
      ensures services == Rediscover(map[], KnownServices, query)
    {
      proxies := map[];
      services := map[];
      new;
      DiscoverServices(query);
    }

    method UpdateProxy(name: string, url: string)
      requires Valid()
      modifies this`proxies, this`services
      ensures Valid()
      ensures services == AfterUpdate(old(services), name, url)
    {
      if !UrlParses(url) {
        return;
      }
      proxies := proxies[name := ReverseProxy(url)];
      services := services[name := url];
    }

    method DiscoverServices(query: string -> Result<seq<Instance>>)
      requires Valid()
      modifies this`proxies, this`services
      ensures Valid()
      ensures services == Rediscover(old(services), KnownServices, query)
    {
      var i := 0;
      while i < |KnownServices|
        invariant 0 <= i <= |KnownServices|
        invariant Valid()
        invariant services == Rediscover(old(services), KnownServices[..i], query)
      {
        var svc := KnownServices[i];
        assert KnownServices[..i + 1][..i] == KnownServices[..i] && KnownServices[..i + 1][i] == svc;
        var url := GetServiceURL(svc, query(svc));
        if url.Err? {
          url := Ok(Fallback(svc));
        }
        UpdateProxy(svc, url.value);
        i := i + 1;
      }
      assert KnownServices[..i] == KnownServices;
    }

    function GetProxy(name: string): (r: Option<ReverseProxy>)
      reads this
      requires Valid()
      ensures r.Some? <==> name in services
      ensures r.Some? ==> r.value.target == services[name]
    {
      if name in proxies then Some(proxies[name]) else None
    }

    method ProxyProducts() returns (r: Reply)
      requires Valid()
      ensures ProductService !in services ==> r == Reject(StatusServiceUnavailable, "product-service unavailable")
      ensures ProductService in services ==> r == Forward(services[ProductService])
    {
      var proxy := GetProxy(ProductService);
      if proxy.None? {
        return Reject(StatusServiceUnavailable, "product-service unavailable");
      }
      r := Forward(proxy.value.target);
    }

    method ProxyOrders() returns (r: Reply)
      requires Valid()
      ensures OrderService !in services ==> r == Reject(StatusServiceUnavailable, "order-service unavailable")
      ensures OrderService in services ==> r == Forward(services[OrderService])
    {
      var proxy := GetProxy(OrderService);
      if proxy.None? {
        return Reject(StatusServiceUnavailable, "order-service unavailable");
      }
      r := Forward(proxy.value.target);
    }

    /** Probe `{url}/health` of every routed service; `probe` gives the
        status code, or None when the request fails. */
    method HealthCheck(probe: string -> Option<int>) returns (report: HealthReport)
      ensures report.service == "api-gateway"
      ensures report.services.Keys == services.Keys
      ensures forall n :: n in services ==>
        report.services[n] == if probe(services[n] + "/health") == Some(StatusOK) then "healthy" else "unhealthy"
      ensures report.status == "healthy" <==> forall n :: n in services ==> probe(services[n] + "/health") == Some(StatusOK)
      ensures report.status == "healthy" || report.status == "degraded"
    {
      var statuses: map<string, string> := map[];
      var allHealthy := true;
      var remaining := services.Keys;
      while remaining != {}
        invariant remaining <= services.Keys
        invariant statuses.Keys == services.Keys - remaining
        invariant forall n :: n in statuses ==>
          statuses[n] == if probe(services[n] + "/health") == Some(StatusOK) then "healthy" else "unhealthy"
        invariant allHealthy <==> forall n :: n in statuses ==> probe(services[n] + "/health") == Some(StatusOK)
        decreases |remaining|
      {
        var name :| name in remaining;
        var healthy := probe(services[name] + "/health") == Some(StatusOK);
        statuses := statuses[name := if healthy then "healthy" else "unhealthy"];
        allHealthy := allHealthy && healthy;
        remaining := remaining - {name};
      }
      report := HealthReport(if allHealthy then "healthy" else "degraded", "api-gateway", statuses);
    }

    /** The routing table as it stands. */
    method ListServices() returns (r: map<string, string>)
      ensures r == services
    {
      r := services;
    }
  }
}
