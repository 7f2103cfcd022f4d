/** `TelemetryService`: owns the HTTP server, builds the payload on start
    and then on every k-th server tick, and hands it to the server's cache. */
module Service {
  import opened Wrappers
  import opened Java
  import opened Json
  import opened Snapshot
  import opened Payload
  import opened Collector
  import opened Http
  import opened CommonHttp

  // ---------------------------------------------------------------------
  // The refresh cadence
  // ---------------------------------------------------------------------

  /** Whether the tick that starts with countdown `t` refreshes
      (`--ticksUntilRefresh > 0` fails). */
  predicate RefreshDue(t: int) {
    t - 1 <= 0
  }

  /** The countdown after one running tick with interval `k`. */
  function NextCountdown(k: int, t: int): int {
    if RefreshDue(t) then k else t - 1
  }

  /** The countdown after `n` running ticks. */
  function CountdownAfter(k: int, t: int, n: nat): int
    decreases n
  {
    if n == 0 then t else CountdownAfter(k, NextCountdown(k, t), n - 1)
  }

  /** The number of refreshes among `n` running ticks. */
  function RefreshesWithin(k: int, t: int, n: nat): nat
    decreases n
  {
    if n == 0 then 0
    else (if RefreshDue(t) then 1 else 0) + RefreshesWithin(k, NextCountdown(k, t), n - 1)
  }

  /** A countdown in `1..k` stays there. */
  lemma {:induction false} CountdownStaysInRange(k: int, t: int, n: nat)
    requires 1 <= t <= k
    ensures 1 <= CountdownAfter(k, t, n) <= k
    decreases n
  {
    if n > 0 {
      CountdownStaysInRange(k, NextCountdown(k, t), n - 1);
    }
  }

  lemma DivisionStep(m: int, k: int)
    requires 1 <= k <= m
    ensures m / k == 1 + (m - k) / k
  {
    var q, r := (m - k) / k, (m - k) % k;
    var bigQ, bigR := m / k, m % k;
    assert m == k * (q + 1) + r;
    var d := bigQ - (q + 1);
    assert k * d == r - bigR;
  }

  /** The refreshes in closed form: the first comes on tick `t`, then one on
      every `k`-th tick. */
  lemma {:induction false} RefreshesClosedForm(k: int, t: int, n: nat)
    requires 1 <= t <= k
    ensures RefreshesWithin(k, t, n) == if n < t then 0 else 1 + (n - t) / k
    decreases n
  {
    if n > 0 {
      if RefreshDue(t) {
        RefreshesClosedForm(k, k, n - 1);
        if n - 1 >= k {
          DivisionStep(n - 1, k);
        }
      } else {
        RefreshesClosedForm(k, t - 1, n - 1);
      }
    }
  }

  /** From a fresh start (countdown = interval) there is exactly one
      refresh per `k` ticks. */
  lemma EveryKthTick(k: int, n: nat)
    requires k >= 1
    ensures RefreshesWithin(k, k, n) == n / k
  {
    RefreshesClosedForm(k, k, n);
    if n >= k {
      DivisionStep(n, k);
    }
  }

  /** `Math.max(1, configuredRefreshTicks)`. */
  function RefreshInterval(configuredRefreshTicks: int): (k: int)
    ensures k >= 1
    ensures configuredRefreshTicks >= 1 ==> k == configuredRefreshTicks
    ensures configuredRefreshTicks < 1 ==> k == 1
  {
    if configuredRefreshTicks < 1 then 1 else configuredRefreshTicks
  }

  // ---------------------------------------------------------------------
  // The payload
  // ---------------------------------------------------------------------

  /** What `buildPayload` produces: the collected snapshot's document, or the
      fallback document (no players, no metrics) when collecting throws. */
  function ServicePayload(source: Option<Source>, minecraftVersion: string, loaderId: string): (j: Json)
    ensures source.None? ==> j == Document(minecraftVersion, loaderId, [], None, None)
    ensures source.Some? ==>
              j == Document(minecraftVersion, loaderId, SafePlayers(source.value.onlinePlayers),
                            ReadTickMetrics(source.value.averageTickTimeMs).mspt,
                            ReadTickMetrics(source.value.averageTickTimeMs).tps)
  {
    match Collect(source, Some(Logger), Some(minecraftVersion), Some(loaderId))
    case Ok(snapshot) => Document(snapshot.minecraftVersion, snapshot.loader, Values(snapshot.players), snapshot.mspt, snapshot.tps)
    case Err(_) => Document(minecraftVersion, loaderId, [], None, None)
  }

  // ---------------------------------------------------------------------
  // The service
  // ---------------------------------------------------------------------

  /** What `start` learns from outside the program: the `MCTELEMETRY_PORT`
      and `MCTELEMETRY_BIND` system properties, name resolution, and whether
      the socket can be bound. */
  datatype Environment = Environment(
    portProperty: Option<string>,
    bindOverride: Option<string>,
    resolve: Resolver,
    bindSucceeds: bool)

  class TelemetryService {
    const loaderId: string
    /** `Gson.toJson`, the serialiser the payload encoder ends with. */
    const toJson: Json -> string
    var httpServer: TelemetryHttpServer?
    var refreshIntervalTicks: int
    var ticksUntilRefresh: int
    var minecraftVersion: string
    /** The number of cache refreshes so far. */
    ghost var refreshes: nat

    /** A running service owns a running server, and its countdown is in
        `1..interval`. */
    ghost predicate Valid()
      reads this, httpServer
    {
      httpServer != null ==> httpServer.running && 1 <= ticksUntilRefresh <= refreshIntervalTicks
    }

    /** `new TelemetryService(loaderId, logger)`, with `currentVersion` the
        game version the field initialiser reads. */
    constructor (loaderId: string, toJson: Json -> string, currentVersion: string)
      ensures Valid()
      ensures this.loaderId == loaderId && this.toJson == toJson && minecraftVersion == currentVersion
      ensures httpServer == null && refreshIntervalTicks == 0 && ticksUntilRefresh == 0 && refreshes == 0
    {
      this.loaderId := loaderId;
      this.toJson := toJson;
      httpServer := null;
      refreshIntervalTicks := 0;
      ticksUntilRefresh := 0;
      minecraftVersion := currentVersion;
      refreshes := 0;
    }

    /** `buildPayload(server, detailedLogging)`, before serialisation. */
    method BuildPayload(source: Option<Source>) returns (payload: Json)
      ensures payload == ServicePayload(source, minecraftVersion, loaderId)
    {
      var snapshot := Collect(source, Some(Logger), Some(minecraftVersion), Some(loaderId));
      if snapshot.Ok? {
        var built := BuildSnapshot(Some(snapshot.value));
        if built.Ok? {
          return built.value;
        }
      }
      var fallback := BuildWithoutMetrics(Some(minecraftVersion), Some(loaderId), Some([]));
      return fallback.value;
    }

    /** `start(...)`: fixes the interval and countdown, builds the first
        payload, and creates and starts the server; a construction error
        (`IllegalArgumentException`) or a failed start leaves no server. */
    method Start(source: Option<Source>, currentVersion: string, configuredRefreshTicks: int,
                 configuredPort: int, configuredBindAddress: Option<string>, env: Environment)
      returns (started: bool)
      modifies this
      ensures Valid()
      ensures minecraftVersion == currentVersion && refreshes == old(refreshes)
      ensures refreshIntervalTicks == RefreshInterval(configuredRefreshTicks)
      ensures ticksUntilRefresh == refreshIntervalTicks
      ensures started <==> StrictBindAddress(configuredBindAddress, env.bindOverride, env.resolve).Ok? && env.bindSucceeds
      ensures !started ==> httpServer == null
      ensures started ==> httpServer != null && fresh(httpServer) && httpServer.running
      ensures started ==> httpServer.lastTelemetryJson == toJson(ServicePayload(source, currentVersion, loaderId))
      ensures started ==> httpServer.port == ResolvePort(configuredPort, env.portProperty)
      ensures started ==> httpServer.bindAddress == StrictBindAddress(configuredBindAddress, env.bindOverride, env.resolve).value
    {
      minecraftVersion := currentVersion;
      refreshIntervalTicks := RefreshInterval(configuredRefreshTicks);
      ticksUntilRefresh := refreshIntervalTicks;

      var initialPayload := BuildPayload(source);
      var port := ResolvePort(configuredPort, env.portProperty);
      var created := CommonHttp.Create(Some(Logger), Some(toJson(initialPayload)), port, configuredBindAddress, env.bindOverride, env.resolve);
      if created.Err? {
        httpServer := null;
        return false;
      }
      httpServer := created.value;
      var result := httpServer.Start(env.bindSucceeds);
      if result.Err? || !result.value {
        httpServer := null;
        return false;
      }
      return true;
    }

    /** `stop()`: stops and drops the server; a second call does nothing. */
    method Stop()
      requires Valid()
      modifies this, httpServer
      ensures Valid()
      ensures httpServer == null
      ensures old(httpServer) != null ==> !old(httpServer).running
      ensures refreshIntervalTicks == old(refreshIntervalTicks) && ticksUntilRefresh == old(ticksUntilRefresh)
      ensures minecraftVersion == old(minecraftVersion) && refreshes == old(refreshes)
    {
      if httpServer != null {
        httpServer.Stop();
        httpServer := null;
      }
    }

    /** `tick(server, detailedLogging)`: nothing without a server; otherwise
        the countdown moves on, and when it runs out it is reset and the
        cache receives a freshly built payload. */
    method Tick(source: Option<Source>)
      requires Valid()
      modifies this, httpServer
      ensures Valid()
      ensures httpServer == old(httpServer)
      ensures refreshIntervalTicks == old(refreshIntervalTicks) && minecraftVersion == old(minecraftVersion)
      ensures httpServer == null ==> ticksUntilRefresh == old(ticksUntilRefresh) && refreshes == old(refreshes)
      ensures httpServer != null ==> ticksUntilRefresh == NextCountdown(refreshIntervalTicks, old(ticksUntilRefresh))
      ensures httpServer != null ==> refreshes == old(refreshes) + (if RefreshDue(old(ticksUntilRefresh)) then 1 else 0)
      ensures httpServer != null && RefreshDue(old(ticksUntilRefresh)) ==>
                httpServer.lastTelemetryJson ==
                UpdatedCache(old(httpServer.lastTelemetryJson), Some(toJson(ServicePayload(source, minecraftVersion, loaderId))))
      ensures httpServer != null && !RefreshDue(old(ticksUntilRefresh)) ==>
                httpServer.lastTelemetryJson == old(httpServer.lastTelemetryJson)
    {
      if httpServer == null {
        return;
      }
      ticksUntilRefresh := ticksUntilRefresh - 1;
      if ticksUntilRefresh > 0 {
        return;
      }
      ticksUntilRefresh := refreshIntervalTicks;
      var payload := BuildPayload(source);
      httpServer.UpdateTelemetry(Some(toJson(payload)));
      refreshes := refreshes + 1;
    }
  }

  /** `new TelemetryService(loaderId, logger)`: both arguments must be
      non-null, the loader id checked first. */
  method NewTelemetryService(loaderId: Option<string>, logger: Option<Logger>, toJson: Json -> string, currentVersion: string)
    returns (r: Result<TelemetryService, JavaException>)
    ensures loaderId.None? ==> r == Err(NullPointer("loaderId"))
    ensures loaderId.Some? && logger.None? ==> r == Err(NullPointer("logger"))
    ensures r.Ok? <==> loaderId.Some? && logger.Some?
    ensures r.Ok? ==> fresh(r.value) && r.value.Valid() && r.value.httpServer == null
    ensures r.Ok? ==> r.value.loaderId == loaderId.value && r.value.toJson == toJson
    ensures r.Ok? ==> r.value.minecraftVersion == currentVersion
  {
    if loaderId.None? {
      return Err(NullPointer("loaderId"));
    }
    if logger.None? {
      return Err(NullPointer("logger"));
    }
    var service := new TelemetryService(loaderId.value, toJson, currentVersion);
    return Ok(service);
  }

  /** `n` server ticks against a running service: the refreshes are exactly
      those of the cadence, one on every `k`-th tick. */
  method TickRepeatedly(service: TelemetryService, source: Option<Source>, n: nat)
    requires service.Valid() && service.httpServer != null
    modifies service, service.httpServer
    ensures service.Valid() && service.httpServer == old(service.httpServer)
    ensures service.refreshIntervalTicks == old(service.refreshIntervalTicks)
    ensures service.ticksUntilRefresh == CountdownAfter(service.refreshIntervalTicks, old(service.ticksUntilRefresh), n)
    ensures service.refreshes == old(service.refreshes) + RefreshesWithin(service.refreshIntervalTicks, old(service.ticksUntilRefresh), n)
  {
    var i := 0;
    while i < n
      invariant 0 <= i <= n
      invariant service.Valid() && service.httpServer == old(service.httpServer)
      invariant service.refreshIntervalTicks == old(service.refreshIntervalTicks)
      invariant CountdownAfter(service.refreshIntervalTicks, service.ticksUntilRefresh, n - i) ==
                CountdownAfter(service.refreshIntervalTicks, old(service.ticksUntilRefresh), n)
      invariant service.refreshes + RefreshesWithin(service.refreshIntervalTicks, service.ticksUntilRefresh, n - i) ==
                old(service.refreshes) + RefreshesWithin(service.refreshIntervalTicks, old(service.ticksUntilRefresh), n)
    {
      service.Tick(source);
      i := i + 1;
    }
  }
}
