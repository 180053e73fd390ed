/** Service discovery through Consul: the first healthy instance of a service
    is the one used, an empty address stands for "localhost", and the URL
    is `http://{address}:{port}`. A service registers itself with an HTTP
    health check at `http://{ip}:{port}/health`. The health query itself is
    an input: the instances Consul reports as passing, or the query's error. */
module Discovery {
  import opened Common
  import opened Decimal

  /** One healthy instance as the health query reports it. */
  datatype Instance = Instance(address: string, port: int)

  datatype ServiceConfig = ServiceConfig(name: string, id: string, port: int, tags: seq<string>)

  datatype HealthCheckSpec = HealthCheckSpec(http: string, interval: string, timeout: string, deregisterCriticalServiceAfter: string)

  /** What Register sends to the agent. */
  datatype Registration = Registration(id: string, name: string, port: int, address: string,
                                       tags: seq<string>, check: HealthCheckSpec)

  /** `GetService`: the first healthy instance, its empty address read as
      "localhost"; a failed query or no healthy instance is an error. */
  function GetService(serviceName: string, query: Result<seq<Instance>>): (r: Result<Instance>)
    ensures r.Ok? <==> query.Ok? && |query.value| > 0
    ensures query.Err? ==> r == Err("failed to get service: " + query.msg)
    ensures query.Ok? && query.value == [] ==> r == Err("no healthy instances of " + serviceName + " found")
    ensures r.Ok? ==> r.value.address != "" && r.value.port == query.value[0].port
    ensures r.Ok? && query.value[0].address != "" ==> r.value == query.value[0]
  {
    match query
    case Err(msg) => Err("failed to get service: " + msg)
    case Ok(instances) =>
      if |instances| == 0 then Err("no healthy instances of " + serviceName + " found")
      else
        var address := if instances[0].address == "" then "localhost" else instances[0].address;
        Ok(Instance(address, instances[0].port))
  }

  function URLOf(address: string, port: int): string {
    "http://" + address + ":" + Itoa(port)
  }

  /** `GetServiceURL`: the selected instance as an http URL, or the lookup's
      error unchanged. */
  function GetServiceURL(serviceName: string, query: Result<seq<Instance>>): (r: Result<string>)
    ensures r.Ok? <==> GetService(serviceName, query).Ok?
    ensures r.Err? ==> r.msg == GetService(serviceName, query).msg
  {
    var instance :- GetService(serviceName, query);
    Ok(URLOf(instance.address, instance.port))
  }

  /** `GetServicePort`: the selected port in decimal, or the lookup's error. */
  function GetServicePort(serviceName: string, query: Result<seq<Instance>>): (r: Result<string>)
    ensures r.Ok? <==> GetService(serviceName, query).Ok?
    ensures r.Err? ==> r.msg == GetService(serviceName, query).msg
  {
    var instance :- GetService(serviceName, query);
    Ok(Itoa(instance.port))
  }

  /** The URL of a service is `http://`, a non-empty host, `:`, and the port
      as `GetServicePort` reports it; those digits read back as the port. */
  lemma ServiceURLShape(serviceName: string, query: Result<seq<Instance>>)
    requires GetServiceURL(serviceName, query).Ok?
    ensures var url, port := GetServiceURL(serviceName, query).value, GetServicePort(serviceName, query).value;
      var host := GetService(serviceName, query).value.address;
      && url == "http://" + host + ":" + port
      && host != ""
      && ParseInt(port) == Some(query.value[0].port)
  {
    ParseItoa(query.value[0].port);
  }

  /** A port the agent reports reads back through `strconv.Atoi`. */
  lemma ServicePortRoundTrip(serviceName: string, query: Result<seq<Instance>>)
    requires GetServicePort(serviceName, query).Ok?
    requires MinInt64 <= query.value[0].port <= MaxInt64
    ensures Atoi(GetServicePort(serviceName, query).value) == Some(query.value[0].port)
  {
    AtoiItoa(query.value[0].port);
  }

  /** `getOutboundIP`: the local address of a UDP dial, or the loopback
      address when the dial fails. */
  function OutboundIP(dialed: Option<string>): string {
    match dialed
    case None => "127.0.0.1"
    case Some(ip) => ip
  }

  /** `Register`: the registration sent to the agent, or the agent's error. */
  function Register(cfg: ServiceConfig, dialed: Option<string>, agentError: Option<string>): (r: Result<Registration>)
    ensures r.Ok? <==> agentError.None?
    ensures r.Ok? ==> r.value.id == cfg.id && r.value.name == cfg.name && r.value.port == cfg.port && r.value.tags == cfg.tags
    ensures r.Ok? ==> r.value.address == OutboundIP(dialed)
    ensures r.Ok? ==> r.value.check.interval == "10s" && r.value.check.timeout == "5s"
                      && r.value.check.deregisterCriticalServiceAfter == "30s"
  {
    if agentError.Some? then Err("failed to register service: " + agentError.value)
    else
      var hostIP := OutboundIP(dialed);
      Ok(Registration(cfg.id, cfg.name, cfg.port, hostIP, cfg.tags,
                      HealthCheckSpec(URLOf(hostIP, cfg.port) + "/health", "10s", "5s", "30s")))
  }

  /** The health check Consul runs on a registered instance is the URL
      discovery hands out for that instance, followed by `/health`. */
  lemma HealthCheckProbesServiceURL(cfg: ServiceConfig, dialed: Option<string>)
    requires OutboundIP(dialed) != ""
    ensures var reg := Register(cfg, dialed, None).value;
      reg.check.http == GetServiceURL(cfg.name, Ok([Instance(reg.address, reg.port)])).value + "/health"
  {
  }
}
