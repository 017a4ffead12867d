/**
 Configuration and its normalisation: built-in defaults, then the process-wide defaults, layered under what
 the document says. Durations are in nanoseconds. A list that is absent and one that is empty are the same
 after the copy every normalisation starts with. `rest` stands for the fields that no rule here reads.
 */
module GatewayConfigs {
  import opened Common

  const Second: int := 1_000_000_000

  datatype Retry = Retry(
    maxAttempts: int, perTryTimeout: int, bodyLimit: int, methods: seq<string>, statuses: seq<int>,
    budgetCapacity: int, budgetRefill: real)

  datatype Health = Health(
    enabled: bool, mode: string, path: string, interval: int, timeout: int, failureThreshold: int,
    successThreshold: int, maxConcurrency: int, jitter: int, cooldown: int, expectedStatuses: seq<int>,
    slowStart: int, slowStartMinimum: int)

  datatype Transport = Transport(
    protocol: string, dialTimeout: int, tlsHandshakeTimeout: int, responseHeaderTimeout: int,
    expectContinueTimeout: int, idleConnTimeout: int, maxIdleConns: int, maxIdleConnsPerHost: int,
    maxConnsPerHost: int, maxConcurrentRequests: int, maxResponseHeaderBytes: int)

  datatype Endpoint = Endpoint(id: string, url: string, weight: int, disabled: bool)

  datatype Discovery = Discovery(kind: string, refreshInterval: int, staleAfter: int, rest: string)

  datatype Tls = Tls(enabled: bool, caFile: string, serverName: string, certFile: string, keyFile: string, rest: string)

  datatype Cluster = Cluster(
    id: string, strategy: string, endpoints: seq<Endpoint>, health: Health, retry: Option<Retry>,
    transport: Transport, tls: Tls, discovery: Discovery, rest: string)

  datatype Redirect = Redirect(statusCode: int, rest: string)

  datatype Match = Match(pathExact: string, pathPrefix: string, methods: seq<string>, rest: string)

  datatype Target = Target(cluster: string, weight: nat)

  datatype Route = Route(
    id: string, listener: string, priority: int, match_: Match, cluster: string, weighted: seq<Target>,
    redirect: Option<Redirect>, retry: Option<Retry>, perTry: int, rest: string)

  datatype Listener = Listener(id: string, protocol: string, isDefault: bool, rest: string)

  datatype Config = Config(
    apiVersion: string, historyLimit: int, listeners: seq<Listener>, routes: seq<Route>, clusters: seq<Cluster>)

  /** Process-wide defaults; only the fields of `upstream` that have counterparts are used. */
  datatype Defaults = Defaults(historyLimit: int, retry: Retry, health: Health, upstream: Transport)

  // ------------------------------------------------------------ the document's own defaults

  function IfEmpty(s: string, other: string): string { if s == "" then other else s }

  function IfZero(n: int, other: int): int { if n == 0 then other else n }

  function UpperChar(c: char): char {
    if 'a' <= c <= 'z' then (c as int - 32) as char else c
  }

  /** Upper case of an HTTP token, which is ASCII. */
  function Upper(s: string): string { Mapped(UpperChar, s) }

  function ListenerDefaults(l: Listener, only: bool): Listener {
    l.(protocol := IfEmpty(l.protocol, "http1"), isDefault := l.isDefault || only)
  }

  function RedirectDefaults(r: Option<Redirect>): Option<Redirect> {
    if r.Some? then Some(r.value.(statusCode := IfZero(r.value.statusCode, 307))) else None
  }

  function RouteDefaults(r: Route): Route {
    r.(match_ := r.match_.(methods := Mapped(Upper, r.match_.methods)), redirect := RedirectDefaults(r.redirect))
  }

  function EndpointDefaults(e: Endpoint): Endpoint { e.(weight := IfZero(e.weight, 1)) }

  function DiscoveryDefaults(d: Discovery): Discovery {
    var kind := IfEmpty(d.kind, "static");
    if kind == "static" then d.(kind := kind)
    else d.(kind := kind, refreshInterval := IfZero(d.refreshInterval, 30 * Second),
            staleAfter := IfZero(d.staleAfter, 120 * Second))
  }

  function TlsDefaults(t: Tls): Tls {
    t.(enabled := t.enabled || t.caFile != "" || t.serverName != "" || t.certFile != "" || t.keyFile != "")
  }

  function ClusterDefaults(c: Cluster): Cluster {
    c.(tls := TlsDefaults(c.tls), strategy := IfEmpty(c.strategy, "round_robin"),
       discovery := DiscoveryDefaults(c.discovery),
       transport := c.transport.(protocol := IfEmpty(c.transport.protocol, "auto")),
       endpoints := Mapped(EndpointDefaults, c.endpoints))
  }

  function WithDefaults(c: Config): Config {
    Config(IfEmpty(c.apiVersion, "proxy/v1"), IfZero(c.historyLimit, 10),
           Mapped((l: Listener) => ListenerDefaults(l, |c.listeners| == 1), c.listeners),
           Mapped(RouteDefaults, c.routes), Mapped(ClusterDefaults, c.clusters))
  }

  // ------------------------------------------------------------ the process-wide layer

  function NormalizeRetry(p: Retry): Retry {
    Retry(if p.maxAttempts < 1 then 1 else p.maxAttempts,
          if p.perTryTimeout <= 0 then 10 * Second else p.perTryTimeout,
          if p.bodyLimit < 0 then 0 else p.bodyLimit,
          if p.methods == [] then ["GET", "HEAD", "OPTIONS"] else p.methods,
          p.statuses,
          if p.budgetCapacity < 1 then 100 else p.budgetCapacity,
          if p.budgetRefill <= 0.0 then 10.0 else p.budgetRefill)
  }

  function MergeRetry(base: Retry, over: Retry): Retry {
    NormalizeRetry(Retry(
      if over.maxAttempts > 0 then over.maxAttempts else base.maxAttempts,
      if over.perTryTimeout > 0 then over.perTryTimeout else base.perTryTimeout,
      if over.bodyLimit > 0 then over.bodyLimit else base.bodyLimit,
      if over.methods != [] then over.methods else base.methods,
      if over.statuses != [] then over.statuses else base.statuses,
      if over.budgetCapacity > 0 then over.budgetCapacity else base.budgetCapacity,
      if over.budgetRefill > 0.0 then over.budgetRefill else base.budgetRefill))
  }

  function IfNotPositive(n: int, other: int): int { if n <= 0 then other else n }

  function NormalizeHealth(h: Health): Health {
    h.(mode := IfEmpty(h.mode, "http"), path := IfEmpty(h.path, "/health"),
       interval := IfNotPositive(h.interval, 5 * Second), timeout := IfNotPositive(h.timeout, 2 * Second),
       failureThreshold := IfNotPositive(h.failureThreshold, 2), successThreshold := IfNotPositive(h.successThreshold, 1),
       maxConcurrency := IfNotPositive(h.maxConcurrency, 16), cooldown := IfNotPositive(h.cooldown, 10 * Second),
       expectedStatuses := if h.expectedStatuses == [] then [200, 204] else h.expectedStatuses,
       slowStartMinimum := IfNotPositive(h.slowStartMinimum, 10))
  }

  function MergeHealth(h: Health, base: Health): Health {
    Health(h.enabled, IfEmpty(h.mode, base.mode), IfEmpty(h.path, base.path), IfZero(h.interval, base.interval),
           IfZero(h.timeout, base.timeout), IfZero(h.failureThreshold, base.failureThreshold),
           IfZero(h.successThreshold, base.successThreshold), IfZero(h.maxConcurrency, base.maxConcurrency),
           IfZero(h.jitter, base.jitter), IfZero(h.cooldown, base.cooldown),
           if h.expectedStatuses == [] then base.expectedStatuses else h.expectedStatuses,
           IfZero(h.slowStart, base.slowStart), IfZero(h.slowStartMinimum, base.slowStartMinimum))
  }

  function NormalizeUpstream(u: Transport): Transport {
    u.(dialTimeout := IfNotPositive(u.dialTimeout, 2 * Second),
       tlsHandshakeTimeout := IfNotPositive(u.tlsHandshakeTimeout, 3 * Second),
       responseHeaderTimeout := IfNotPositive(u.responseHeaderTimeout, 10 * Second),
       expectContinueTimeout := IfNotPositive(u.expectContinueTimeout, Second),
       idleConnTimeout := IfNotPositive(u.idleConnTimeout, 90 * Second),
       maxIdleConns := IfNotPositive(u.maxIdleConns, 256), maxIdleConnsPerHost := IfNotPositive(u.maxIdleConnsPerHost, 64),
       maxConcurrentRequests := IfNotPositive(u.maxConcurrentRequests, 512))
  }

  function MergeTransport(t: Transport, base: Transport): Transport {
    Transport(IfEmpty(t.protocol, "auto"), IfZero(t.dialTimeout, base.dialTimeout),
              IfZero(t.tlsHandshakeTimeout, base.tlsHandshakeTimeout),
              IfZero(t.responseHeaderTimeout, base.responseHeaderTimeout),
              IfZero(t.expectContinueTimeout, base.expectContinueTimeout),
              IfZero(t.idleConnTimeout, base.idleConnTimeout), IfZero(t.maxIdleConns, base.maxIdleConns),
              IfZero(t.maxIdleConnsPerHost, base.maxIdleConnsPerHost), IfZero(t.maxConnsPerHost, base.maxConnsPerHost),
              IfZero(t.maxConcurrentRequests, base.maxConcurrentRequests), IfZero(t.maxResponseHeaderBytes, 1_048_576))
  }

  function MergeDiscovery(d: Discovery): Discovery {
    if d.kind == "static" then d
    else d.(refreshInterval := IfZero(d.refreshInterval, 30 * Second), staleAfter := IfZero(d.staleAfter, 120 * Second))
  }

  function ClusterRetry(d: Defaults, r: Option<Retry>): Retry {
    var base := NormalizeRetry(d.retry);
    if r.Some? then MergeRetry(base, r.value) else base
  }

  function MergeCluster(d: Defaults, c: Cluster): Cluster {
    c.(transport := MergeTransport(c.transport, NormalizeUpstream(d.upstream)),
       retry := Some(ClusterRetry(d, c.retry)),
       health := MergeHealth(c.health, NormalizeHealth(d.health)),
       discovery := MergeDiscovery(c.discovery))
  }

  function RouteRetry(d: Defaults, r: Retry, perTry: int): Retry {
    var merged := MergeRetry(NormalizeRetry(d.retry), r);
    if perTry > 0 then merged.(perTryTimeout := perTry) else merged
  }

  function MergeRoute(d: Defaults, r: Route): Route {
    r.(redirect := RedirectDefaults(r.redirect),
       retry := if r.retry.Some? then Some(RouteRetry(d, r.retry.value, r.perTry)) else None)
  }

  /** `Normalized` of a cluster, a route and the whole document. */
  function NormalCluster(d: Defaults, c: Cluster): Cluster { MergeCluster(d, ClusterDefaults(c)) }

  function NormalRoute(d: Defaults, r: Route): Route { MergeRoute(d, RouteDefaults(r)) }

  function Normalized(d: Defaults, c: Config): Config {
    Config(IfEmpty(c.apiVersion, "proxy/v1"), IfZero(IfZero(IfZero(c.historyLimit, 10), d.historyLimit), 10),
           Mapped((l: Listener) => ListenerDefaults(l, |c.listeners| == 1), c.listeners),
           Mapped((r: Route) => NormalRoute(d, r), c.routes),
           Mapped((k: Cluster) => NormalCluster(d, k), c.clusters))
  }

  // ------------------------------------------------------------ the code that edits in place

  method ApplyDefaults(source: Config) returns (c: Config)
    ensures c == WithDefaults(source)
  {
    c := source;
    if c.apiVersion == "" { c := c.(apiVersion := "proxy/v1"); }
    if c.historyLimit == 0 { c := c.(historyLimit := 10); }
    var listeners := DefaultListeners(c.listeners);
    var routes := DefaultRoutes(c.routes);
    var clusters := DefaultClusters(c.clusters);
    c := c.(listeners := listeners, routes := routes, clusters := clusters);
  }

  method DefaultListeners(source: seq<Listener>) returns (ls: seq<Listener>)
    ensures ls == Mapped((l: Listener) => ListenerDefaults(l, |source| == 1), source)
  {
    ls := source;
    for i := 0 to |source|
      invariant |ls| == |source|
      invariant forall j | 0 <= j < i :: ls[j] == source[j].(protocol := IfEmpty(source[j].protocol, "http1"))
      invariant forall j | i <= j < |source| :: ls[j] == source[j]
    {
      if ls[i].protocol == "" {
        ls := ls[i := ls[i].(protocol := "http1")];
      }
    }
    if |ls| == 1 {
      ls := ls[0 := ls[0].(isDefault := true)];
    }
  }

  method DefaultRoutes(source: seq<Route>) returns (routes: seq<Route>)
    ensures routes == Mapped(RouteDefaults, source)
  {
    routes := source;
    for i := 0 to |source|
      invariant |routes| == |source|
      invariant forall j | 0 <= j < i :: routes[j] == RouteDefaults(source[j])
      invariant forall j | i <= j < |source| :: routes[j] == source[j]
    {
      var methods := UpperAll(routes[i].match_.methods);
      routes := routes[i := routes[i].(match_ := routes[i].match_.(methods := methods))];
      if routes[i].redirect.Some? && routes[i].redirect.value.statusCode == 0 {
        routes := routes[i := routes[i].(redirect := Some(routes[i].redirect.value.(statusCode := 307)))];
      }
    }
  }

  method UpperAll(source: seq<string>) returns (methods: seq<string>)
    ensures methods == Mapped(Upper, source)
  {
    methods := source;
    for i := 0 to |source|
      invariant |methods| == |source|
      invariant forall j | 0 <= j < i :: methods[j] == Upper(source[j])
      invariant forall j | i <= j < |source| :: methods[j] == source[j]
    {
      methods := methods[i := Upper(methods[i])];
    }
  }

  method NormalizeEndpoints(source: seq<Endpoint>) returns (es: seq<Endpoint>)
    ensures es == Mapped(EndpointDefaults, source)
  {
    es := source;
    for i := 0 to |source|
      invariant |es| == |source|
      invariant forall j | 0 <= j < i :: es[j] == EndpointDefaults(source[j])
      invariant forall j | i <= j < |source| :: es[j] == source[j]
    {
      if es[i].weight == 0 {
        es := es[i := es[i].(weight := 1)];
      }
    }
  }

  method DefaultClusters(source: seq<Cluster>) returns (clusters: seq<Cluster>)
    ensures clusters == Mapped(ClusterDefaults, source)
  {
    clusters := source;
    for i := 0 to |source|
      invariant |clusters| == |source|
      invariant forall j | 0 <= j < i :: clusters[j] == ClusterDefaults(source[j])
      invariant forall j | i <= j < |source| :: clusters[j] == source[j]
    {
      var c := clusters[i];
      if c.tls.caFile != "" || c.tls.serverName != "" || c.tls.certFile != "" || c.tls.keyFile != "" {
        c := c.(tls := c.tls.(enabled := true));
      }
      if c.strategy == "" { c := c.(strategy := "round_robin"); }
      if c.discovery.kind == "" { c := c.(discovery := c.discovery.(kind := "static")); }
      if c.discovery.kind != "static" && c.discovery.refreshInterval == 0 {
        c := c.(discovery := c.discovery.(refreshInterval := 30 * Second));
      }
      if c.discovery.kind != "static" && c.discovery.staleAfter == 0 {
        c := c.(discovery := c.discovery.(staleAfter := 120 * Second));
      }
      if c.transport.protocol == "" { c := c.(transport := c.transport.(protocol := "auto")); }
      var es := NormalizeEndpoints(c.endpoints);
      clusters := clusters[i := c.(endpoints := es)];
    }
  }

  /** `normalizeConfig` up to the final validation. */
  method NormalizeConfig(d: Defaults, source: Config) returns (c: Config)
    ensures c == Normalized(d, source)
  {
    c := ApplyDefaults(source);
    if c.historyLimit == 0 { c := c.(historyLimit := d.historyLimit); }
    if c.historyLimit == 0 { c := c.(historyLimit := 10); }
    if |c.listeners| == 1 {
      c := c.(listeners := [c.listeners[0].(isDefault := true)]);
    }
    var clusters := MergeClusters(d, c.clusters);
    var routes := MergeRoutes(d, c.routes);
    c := c.(clusters := clusters, routes := routes);
    assert c.listeners == Mapped((l: Listener) => ListenerDefaults(l, |source.listeners| == 1), source.listeners);
    assert clusters == Mapped((k: Cluster) => NormalCluster(d, k), source.clusters);
    assert routes == Mapped((r: Route) => NormalRoute(d, r), source.routes);
  }

  method MergeClusters(d: Defaults, source: seq<Cluster>) returns (clusters: seq<Cluster>)
    ensures |clusters| == |source| && forall j | 0 <= j < |source| :: clusters[j] == MergeCluster(d, source[j])
  {
    clusters := source;
    for i := 0 to |source|
      invariant |clusters| == |source|
      invariant forall j | 0 <= j < i :: clusters[j] == MergeCluster(d, source[j])
      invariant forall j | i <= j < |source| :: clusters[j] == source[j]
    {
      var c := clusters[i];
      c := c.(transport := MergeTransport(c.transport, NormalizeUpstream(d.upstream)));
      var retry := NormalizeRetry(d.retry);
      if c.retry.Some? { retry := MergeRetry(retry, c.retry.value); }
      c := c.(retry := Some(retry), health := MergeHealth(c.health, NormalizeHealth(d.health)));
      if c.discovery.kind != "static" {
        if c.discovery.refreshInterval == 0 { c := c.(discovery := c.discovery.(refreshInterval := 30 * Second)); }
        if c.discovery.staleAfter == 0 { c := c.(discovery := c.discovery.(staleAfter := 120 * Second)); }
      }
      clusters := clusters[i := c];
    }
  }

  method MergeRoutes(d: Defaults, source: seq<Route>) returns (routes: seq<Route>)
    ensures |routes| == |source| && forall j | 0 <= j < |source| :: routes[j] == MergeRoute(d, source[j])
  {
    routes := source;
    for i := 0 to |source|
      invariant |routes| == |source|
      invariant forall j | 0 <= j < i :: routes[j] == MergeRoute(d, source[j])
      invariant forall j | i <= j < |source| :: routes[j] == source[j]
    {
      var r := routes[i];
      if r.redirect.Some? && r.redirect.value.statusCode == 0 {
        r := r.(redirect := Some(r.redirect.value.(statusCode := 307)));
      }
      if r.retry.Some? {
        var merged := MergeRetry(NormalizeRetry(d.retry), r.retry.value);
        if r.perTry > 0 { merged := merged.(perTryTimeout := r.perTry); }
        r := r.(retry := Some(merged));
      }
      routes := routes[i := r];
    }
  }

  // ------------------------------------------------------------ normalising twice is normalising once

  /** A policy the retry transport can work with. */
  predicate UsableRetry(r: Retry) {
    r.maxAttempts >= 1 && r.perTryTimeout > 0 && r.bodyLimit >= 0 && r.methods != [] && r.budgetCapacity >= 1 && r.budgetRefill > 0.0
  }

  lemma MergeRetryIdempotent(base: Retry, over: Retry)
    ensures UsableRetry(MergeRetry(base, over))
    ensures var b := NormalizeRetry(base); MergeRetry(b, MergeRetry(b, over)) == MergeRetry(b, over)
    ensures var b := NormalizeRetry(base); MergeRetry(b, b) == b && UsableRetry(b)
  {}

  function FirstPositive(values: seq<int>, otherwise: int): int {
    if values == [] then otherwise else if values[0] > 0 then values[0] else FirstPositive(values[1..], otherwise)
  }

  function FirstNonEmpty<T>(values: seq<seq<T>>, otherwise: seq<T>): seq<T> {
    if values == [] then otherwise else if values[0] != [] then values[0] else FirstNonEmpty(values[1..], otherwise)
  }

  /** Every field of `m` is the first that is set: in the document, in the process-wide defaults, or built in. */
  predicate RetryInLayers(m: Retry, over: Retry, base: Retry) {
    && m.maxAttempts == FirstPositive([over.maxAttempts, base.maxAttempts], 1)
    && m.perTryTimeout == FirstPositive([over.perTryTimeout, base.perTryTimeout], 10 * Second)
    && m.bodyLimit == FirstPositive([over.bodyLimit, base.bodyLimit], 0)
    && m.methods == FirstNonEmpty([over.methods, base.methods], ["GET", "HEAD", "OPTIONS"])
    && m.statuses == FirstNonEmpty([over.statuses, base.statuses], [])
    && m.budgetCapacity == FirstPositive([over.budgetCapacity, base.budgetCapacity], 100)
    && m.budgetRefill == (if over.budgetRefill > 0.0 then over.budgetRefill
                          else if base.budgetRefill > 0.0 then base.budgetRefill else 10.0)
  }

  lemma RetryPrecedence(base: Retry, over: Retry)
    ensures RetryInLayers(MergeRetry(NormalizeRetry(base), over), over, base)
  {
    FirstOfTwo(over.maxAttempts, base.maxAttempts, 1);
    FirstOfTwo(over.perTryTimeout, base.perTryTimeout, 10 * Second);
    FirstOfTwo(over.bodyLimit, base.bodyLimit, 0);
    FirstOfTwo(over.budgetCapacity, base.budgetCapacity, 100);
    FirstListOfTwo(over.methods, base.methods, ["GET", "HEAD", "OPTIONS"]);
    FirstListOfTwo(over.statuses, base.statuses, []);
  }

  lemma FirstOfTwo(a: int, b: int, otherwise: int)
    ensures FirstPositive([a, b], otherwise) == if a > 0 then a else if b > 0 then b else otherwise
  {
    assert [a, b][1..] == [b] && [b][1..] == [];
    assert FirstPositive([b], otherwise) == if b > 0 then b else otherwise;
  }

  lemma FirstListOfTwo<T>(a: seq<T>, b: seq<T>, otherwise: seq<T>)
    ensures FirstNonEmpty([a, b], otherwise) == if a != [] then a else if b != [] then b else otherwise
  {
    assert [a, b][1..] == [b] && [b][1..] == [];
    assert FirstNonEmpty([b], otherwise) == if b != [] then b else otherwise;
  }

  lemma RouteRetryIdempotent(d: Defaults, r: Retry, perTry: int)
    ensures RouteRetry(d, RouteRetry(d, r, perTry), perTry) == RouteRetry(d, r, perTry)
  {
    MergeRetryIdempotent(d.retry, r);
  }

  lemma UpperIdempotent(s: string)
    ensures Upper(Upper(s)) == Upper(s)
  {}

  lemma MappedTwice<A>(f: A -> A, xs: seq<A>)
    requires forall x | x in xs :: f(f(x)) == f(x)
    ensures Mapped(f, Mapped(f, xs)) == Mapped(f, xs)
  {}

  lemma RouteIdempotent(d: Defaults, r: Route)
    ensures NormalRoute(d, NormalRoute(d, r)) == NormalRoute(d, r)
  {
    forall m | m in r.match_.methods ensures Upper(Upper(m)) == Upper(m) {
      UpperIdempotent(m);
    }
    MappedTwice(Upper, r.match_.methods);
    if r.retry.Some? {
      RouteRetryIdempotent(d, r.retry.value, r.perTry);
    }
  }

  lemma MergedPartsIdempotent(h: Health, health: Health, t: Transport, upstream: Transport)
    ensures MergeHealth(MergeHealth(h, health), health) == MergeHealth(h, health)
    ensures MergeTransport(MergeTransport(t, upstream), upstream) == MergeTransport(t, upstream)
    ensures MergeTransport(t, upstream).protocol != ""
  {}

  lemma ClusterIdempotent(d: Defaults, c: Cluster)
    ensures NormalCluster(d, NormalCluster(d, c)) == NormalCluster(d, c)
  {
    MappedTwice(EndpointDefaults, c.endpoints);
    var t := ClusterDefaults(c).transport;
    MergedPartsIdempotent(c.health, NormalizeHealth(d.health), t, NormalizeUpstream(d.upstream));
    if c.retry.Some? {
      MergeRetryIdempotent(d.retry, c.retry.value);
    } else {
      MergeRetryIdempotent(d.retry, d.retry);
    }
    var once := NormalCluster(d, c);
    assert once.transport.(protocol := IfEmpty(once.transport.protocol, "auto")) == once.transport;
  }

  /** Normalising a normalised configuration under the same defaults changes nothing. */
  lemma NormalizedIdempotent(d: Defaults, c: Config)
    ensures Normalized(d, Normalized(d, c)) == Normalized(d, c)
  {
    var once, twice := Normalized(d, c), Normalized(d, Normalized(d, c));
    assert twice.listeners == once.listeners;
    forall i | 0 <= i < |c.routes| ensures twice.routes[i] == once.routes[i] {
      RouteIdempotent(d, c.routes[i]);
    }
    assert twice.routes == once.routes;
    forall i | 0 <= i < |c.clusters| ensures twice.clusters[i] == once.clusters[i] {
      ClusterIdempotent(d, c.clusters[i]);
    }
    assert twice.clusters == once.clusters;
  }

  /** The process-wide history limit never reaches a configuration: the built-in one is filled in before it. */
  lemma HistoryDefaultIsDead(d: Defaults, e: Defaults, c: Config)
    ensures Normalized(d, c).historyLimit == Normalized(e, c).historyLimit == IfZero(c.historyLimit, 10)
  {}

  // ------------------------------------------------------------ what ends up in the normalised document

  /** A retry section that says nothing. */
  const Unset := Retry(0, 0, 0, [], [], 0, 0.0)

  function Given(r: Option<Retry>): Retry { if r.Some? then r.value else Unset }

  /** The cluster's own value if it is not zero, else the process-wide one if it is positive, else the built-in one. */
  function Layered(own: int, base: int, builtin: int): int {
    if own != 0 then own else FirstPositive([base], builtin)
  }

  function FirstWord(own: string, base: string, builtin: string): string {
    if own != "" then own else if base != "" then base else builtin
  }

  predicate HealthInLayers(m: Health, own: Health, base: Health) {
    && m.enabled == own.enabled && m.mode == FirstWord(own.mode, base.mode, "http") && m.path == FirstWord(own.path, base.path, "/health")
    && m.interval == Layered(own.interval, base.interval, 5 * Second) && m.timeout == Layered(own.timeout, base.timeout, 2 * Second)
    && m.failureThreshold == Layered(own.failureThreshold, base.failureThreshold, 2)
    && m.successThreshold == Layered(own.successThreshold, base.successThreshold, 1)
    && m.maxConcurrency == Layered(own.maxConcurrency, base.maxConcurrency, 16)
    && m.cooldown == Layered(own.cooldown, base.cooldown, 10 * Second)
    && m.slowStartMinimum == Layered(own.slowStartMinimum, base.slowStartMinimum, 10)
    && m.jitter == (if own.jitter != 0 then own.jitter else base.jitter)
    && m.slowStart == (if own.slowStart != 0 then own.slowStart else base.slowStart)
    && m.expectedStatuses == FirstNonEmpty([own.expectedStatuses, base.expectedStatuses], [200, 204])
  }

  predicate TransportInLayers(m: Transport, own: Transport, base: Transport) {
    && m.protocol == (if own.protocol != "" then own.protocol else "auto")
    && m.dialTimeout == Layered(own.dialTimeout, base.dialTimeout, 2 * Second)
    && m.tlsHandshakeTimeout == Layered(own.tlsHandshakeTimeout, base.tlsHandshakeTimeout, 3 * Second)
    && m.responseHeaderTimeout == Layered(own.responseHeaderTimeout, base.responseHeaderTimeout, 10 * Second)
    && m.expectContinueTimeout == Layered(own.expectContinueTimeout, base.expectContinueTimeout, Second)
    && m.idleConnTimeout == Layered(own.idleConnTimeout, base.idleConnTimeout, 90 * Second)
    && m.maxIdleConns == Layered(own.maxIdleConns, base.maxIdleConns, 256)
    && m.maxIdleConnsPerHost == Layered(own.maxIdleConnsPerHost, base.maxIdleConnsPerHost, 64)
    && m.maxConcurrentRequests == Layered(own.maxConcurrentRequests, base.maxConcurrentRequests, 512)
    && m.maxConnsPerHost == (if own.maxConnsPerHost != 0 then own.maxConnsPerHost else base.maxConnsPerHost)
    && m.maxResponseHeaderBytes == (if own.maxResponseHeaderBytes != 0 then own.maxResponseHeaderBytes else 1_048_576)
  }

  predicate DiscoveryFilled(m: Discovery, own: Discovery) {
    && m.kind == (if own.kind != "" then own.kind else "static") && m.rest == own.rest
    && (if m.kind == "static" then m.refreshInterval == own.refreshInterval && m.staleAfter == own.staleAfter
        else && m.refreshInterval == (if own.refreshInterval != 0 then own.refreshInterval else 30 * Second)
             && m.staleAfter == (if own.staleAfter != 0 then own.staleAfter else 120 * Second))
  }

  /** Weights left out count as one; nothing else of an endpoint changes. */
  predicate EndpointsFilled(m: seq<Endpoint>, own: seq<Endpoint>) {
    |m| == |own| && forall i | 0 <= i < |own| ::
      && m[i].id == own[i].id && m[i].url == own[i].url && m[i].disabled == own[i].disabled
      && m[i].weight == if own[i].weight == 0 then 1 else own[i].weight
  }

  lemma HealthPrecedence(own: Health, base: Health)
    ensures HealthInLayers(MergeHealth(own, NormalizeHealth(base)), own, base)
  {
    FirstListOfTwo(own.expectedStatuses, base.expectedStatuses, [200, 204]);
    OnlyOne(base.interval, 5 * Second);
    OnlyOne(base.timeout, 2 * Second);
    OnlyOne(base.failureThreshold, 2);
    OnlyOne(base.successThreshold, 1);
    OnlyOne(base.maxConcurrency, 16);
    OnlyOne(base.cooldown, 10 * Second);
    OnlyOne(base.slowStartMinimum, 10);
  }

  lemma OnlyOne(a: int, otherwise: int)
    ensures FirstPositive([a], otherwise) == if a > 0 then a else otherwise
  {
    assert [a][1..] == [];
  }

  lemma TransportPrecedence(own: Transport, base: Transport)
    ensures TransportInLayers(MergeTransport(own, NormalizeUpstream(base)), own, base)
  {
    OnlyOne(base.dialTimeout, 2 * Second);
    OnlyOne(base.tlsHandshakeTimeout, 3 * Second);
    OnlyOne(base.responseHeaderTimeout, 10 * Second);
    OnlyOne(base.expectContinueTimeout, Second);
    OnlyOne(base.idleConnTimeout, 90 * Second);
    OnlyOne(base.maxIdleConns, 256);
    OnlyOne(base.maxIdleConnsPerHost, 64);
    OnlyOne(base.maxConcurrentRequests, 512);
  }

  lemma UnsetChangesNothing(base: Retry)
    ensures MergeRetry(NormalizeRetry(base), Unset) == NormalizeRetry(base)
  {}

  /** A protocol filled in before the merge is the one the merge would fill in. */
  lemma ProtocolFilledOnce(own: Transport, base: Transport)
    ensures MergeTransport(own.(protocol := IfEmpty(own.protocol, "auto")), base) == MergeTransport(own, base)
  {}

  /** Every field of a cluster in the normalised document, by the layer it comes from. */
  lemma ClusterPrecedence(d: Defaults, c: Config, i: nat)
    requires i < |c.clusters|
    ensures var m, own := Normalized(d, c).clusters[i], c.clusters[i];
            && m.id == own.id && m.rest == own.rest && m.strategy == (if own.strategy != "" then own.strategy else "round_robin")
            && m.retry.Some? && RetryInLayers(m.retry.value, Given(own.retry), d.retry)
            && HealthInLayers(m.health, own.health, d.health) && TransportInLayers(m.transport, own.transport, d.upstream)
            && DiscoveryFilled(m.discovery, own.discovery) && EndpointsFilled(m.endpoints, own.endpoints)
            && m.tls == own.tls.(enabled := own.tls.enabled || own.tls.caFile != "" || own.tls.serverName != ""
                                            || own.tls.certFile != "" || own.tls.keyFile != "")
  {
    var own := c.clusters[i];
    RetryPrecedence(d.retry, Given(own.retry));
    UnsetChangesNothing(d.retry);
    HealthPrecedence(own.health, d.health);
    TransportPrecedence(own.transport, d.upstream);
    ProtocolFilledOnce(own.transport, NormalizeUpstream(d.upstream));
    assert Normalized(d, c).clusters[i] == NormalCluster(d, own);
  }

  /** No lower-case letter is left, and nothing else has changed. */
  predicate InUpperCase(m: string, own: string) {
    |m| == |own| && forall i | 0 <= i < |own| ::
      if 'a' <= own[i] <= 'z' then m[i] as int == own[i] as int + 'A' as int - 'a' as int else m[i] == own[i]
  }

  /** Every field of a route in the normalised document. */
  lemma RoutePrecedence(d: Defaults, c: Config, i: nat)
    requires i < |c.routes|
    ensures var m, own := Normalized(d, c).routes[i], c.routes[i];
            && m.id == own.id && m.listener == own.listener && m.priority == own.priority && m.rest == own.rest
            && m.cluster == own.cluster && m.weighted == own.weighted && m.perTry == own.perTry
            && m.match_.pathExact == own.match_.pathExact && m.match_.pathPrefix == own.match_.pathPrefix && m.match_.rest == own.match_.rest
            && |m.match_.methods| == |own.match_.methods|
            && (forall k | 0 <= k < |own.match_.methods| :: InUpperCase(m.match_.methods[k], own.match_.methods[k]))
            && (m.redirect.Some? <==> own.redirect.Some?)
            && (m.redirect.Some? ==> m.redirect.value == own.redirect.value.(
                 statusCode := if own.redirect.value.statusCode == 0 then 307 else own.redirect.value.statusCode))
            && (m.retry.Some? <==> own.retry.Some?)
            && (m.retry.Some? && own.perTry <= 0 ==> RetryInLayers(m.retry.value, own.retry.value, d.retry))
            && (m.retry.Some? && own.perTry > 0 ==>
                  RetryInLayers(m.retry.value, own.retry.value.(perTryTimeout := own.perTry), d.retry))
  {
    var own := c.routes[i];
    assert Normalized(d, c).routes[i] == NormalRoute(d, own);
    if own.retry.Some? {
      RetryPrecedence(d.retry, own.retry.value);
      PerTryWins(d, own.retry.value, own.perTry);
    }
  }

  lemma PerTryWins(d: Defaults, r: Retry, perTry: int)
    ensures perTry > 0 ==> RetryInLayers(RouteRetry(d, r, perTry), r.(perTryTimeout := perTry), d.retry)
  {
    if perTry > 0 {
      RetryPrecedence(d.retry, r.(perTryTimeout := perTry));
    }
  }

  /** What is left: version, history limit and listeners. */
  lemma DocumentPrecedence(d: Defaults, c: Config)
    ensures var m := Normalized(d, c);
            && m.apiVersion == (if c.apiVersion != "" then c.apiVersion else "proxy/v1")
            && m.historyLimit == (if c.historyLimit != 0 then c.historyLimit else 10)
            && |m.clusters| == |c.clusters| && |m.routes| == |c.routes| && |m.listeners| == |c.listeners|
            && forall i | 0 <= i < |c.listeners| ::
                 m.listeners[i] == c.listeners[i].(
                   protocol := if c.listeners[i].protocol != "" then c.listeners[i].protocol else "http1",
                   isDefault := c.listeners[i].isDefault || |c.listeners| == 1)
  {}

  // ------------------------------------------------------------ validation

  predicate UniqueIds(es: seq<Endpoint>) {
    forall i, j | 0 <= i < j < |es| :: es[i].id != es[j].id
  }

  predicate AcceptsRetry(r: Retry) {
    && 1 <= r.maxAttempts <= 5 && r.perTryTimeout > 0 && r.bodyLimit >= 0 && r.budgetCapacity >= 1 && r.budgetRefill > 0.0
    && forall i | 0 <= i < |r.statuses| :: 400 <= r.statuses[i] <= 599
  }

  predicate AcceptsCluster(c: Cluster) {
    && c.id != "" && UniqueIds(c.endpoints)
    && (forall i | 0 <= i < |c.endpoints| :: c.endpoints[i].id != "" && c.endpoints[i].weight >= 1)
    && (c.retry.Some? ==> AcceptsRetry(c.retry.value))
  }

  /** The checks of `Validate` that the engine relies on; the others are inputs where it is called. */
  predicate Accepts(c: Config) {
    && 1 <= c.historyLimit <= 100
    && (forall i | 0 <= i < |c.clusters| :: AcceptsCluster(c.clusters[i]))
    && (forall i, j | 0 <= i < j < |c.clusters| :: c.clusters[i].id != c.clusters[j].id)
  }
}
