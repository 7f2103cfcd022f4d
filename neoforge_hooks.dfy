/** The NeoForge `TelemetryServerHooks`: the same service wiring as on
    Forge, with the tick phase and the average tick time found by
    reflection, since they differ between NeoForge API versions. */
module NeoForgeHooks {
  import opened Wrappers
  import opened Java
  import opened Json
  import opened Payload
  import opened Snapshot
  import opened Metrics
  import opened Collector
  import opened Host
  import opened Http
  import opened CommonHttp
  import opened Service

  const LOADER: string := "neoforge"

  /** What a reflective lookup and call yields: no such method or field,
      another failure of the lookup or the call, or a value. */
  datatype Accessor<+T> = Missing | Fails | Yields(value: T)

  /** The object a reflective call returns: a `Number` (its `doubleValue()`)
      or anything else, null included. */
  datatype Reflected = NumberValue(d: Double) | OtherValue

  /** A `ServerTickEvent` as `isEndPhase` sees it: the outcomes of
      `getPhase()` and of the `phase` field, as the phase's `toString()`
      (`None` for a null phase). */
  datatype TickEvent = TickEvent(getPhase: Accessor<Option<string>>, phaseField: Accessor<Option<string>>)

  /** What the hooks ask of a `MinecraftServer`: whether it is dedicated,
      its roster, and the outcomes of `getAverageTickTime()` and
      `getAverageTickTimeNanos()`. */
  datatype MinecraftServer = MinecraftServer(
    dedicated: bool,
    players: Fallible<Option<seq<ServerPlayer>>>,
    averageTickTime: Accessor<Reflected>,
    averageTickTimeNanos: Accessor<Reflected>)

  /** The phase test shared by both accessors. */
  predicate IsEnd(phase: Option<string>) {
    phase == Some("END")
  }

  /** `isEndPhase`: the `getPhase` method decides when it can be called;
      otherwise the `phase` field; with neither, the event counts as END so
      that no tick is lost. */
  function IsEndPhase(event: TickEvent): (isEnd: bool)
    ensures event.getPhase.Yields? ==> (isEnd <==> IsEnd(event.getPhase.value))
    ensures !event.getPhase.Yields? && event.phaseField.Yields? ==> (isEnd <==> IsEnd(event.phaseField.value))
    ensures !event.getPhase.Yields? && !event.phaseField.Yields? ==> isEnd
  {
    match event.getPhase
    case Yields(phase) => IsEnd(phase)
    case _ =>
      match event.phaseField
      case Yields(phase) => IsEnd(phase)
      case _ => true
  }

  /** When `getPhase` answers, the `phase` field is never consulted. */
  lemma MethodShadowsField(phase: Option<string>, field1: Accessor<Option<string>>, field2: Accessor<Option<string>>)
    ensures IsEndPhase(TickEvent(Yields(phase), field1)) == IsEndPhase(TickEvent(Yields(phase), field2))
  {
  }

  /** A few events: a null or START phase is not the end; no accessor at
      all is. */
  lemma IsEndPhaseExamples()
    ensures IsEndPhase(TickEvent(Yields(Some("END")), Missing))
    ensures !IsEndPhase(TickEvent(Yields(Some("START")), Yields(Some("END"))))
    ensures !IsEndPhase(TickEvent(Yields(None), Missing))
    ensures !IsEndPhase(TickEvent(Missing, Yields(Some("START"))))
    ensures IsEndPhase(TickEvent(Fails, Missing))
  {
    assert Some("START") != Some("END") by { assert "START"[0] != "END"[0]; }
  }

  /** `readAverageTickTime`: a `Number` from `getAverageTickTime()` is
      filtered (NaN or at most zero is absent); a missing method, or a
      result that is not a `Number`, passes the question to
      `getAverageTickTimeNanos()`, whose `Number` is divided by 1,000,000
      and filtered the same way; any other failure of the first call, and
      any failure or non-`Number` of the second, is absent. */
  function ReadAverageTickTime(server: MinecraftServer): (a: OptionalDouble)
    ensures server.averageTickTime.Yields? && server.averageTickTime.value.NumberValue? ==>
              a == PlausibleAverage(server.averageTickTime.value.d)
    ensures server.averageTickTime.Fails? ==> a == Empty
    ensures (server.averageTickTime.Missing? || server.averageTickTime == Yields(OtherValue)) ==>
              a == (if server.averageTickTimeNanos.Yields? && server.averageTickTimeNanos.value.NumberValue?
                    then PlausibleAverage(Scale(server.averageTickTimeNanos.value.d, 1.0 / 1000000.0))
                    else Empty)
    ensures a.Present? ==> a.value.PosInf? || (a.value.Finite? && a.value.r > 0.0)
  {
    match server.averageTickTime
    case Yields(NumberValue(averageMspt)) => PlausibleAverage(averageMspt)
    case Fails => Empty
    case _ =>
      match server.averageTickTimeNanos
      case Yields(NumberValue(averageNanos)) => PlausibleAverage(Scale(averageNanos, 1.0 / 1000000.0))
      case _ => Empty
  }

  /** On a server that only has the nanosecond accessor, 50,000,000 ns is
      50 ms, and a zero reading is absent. */
  lemma NanosFallbackExamples(dedicated: bool, players: Fallible<Option<seq<ServerPlayer>>>)
    ensures ReadAverageTickTime(MinecraftServer(dedicated, players, Missing, Yields(NumberValue(Finite(50000000.0))))) ==
            Present(Finite(50.0))
    ensures ReadAverageTickTime(MinecraftServer(dedicated, players, Missing, Yields(NumberValue(Finite(0.0))))) == Empty
    ensures ReadAverageTickTime(MinecraftServer(dedicated, players, Fails, Yields(NumberValue(Finite(50000000.0))))) == Empty
  {
  }

  /** `asTelemetrySource(server)`: the roster query catches every exception
      and the timing query never throws, so neither fails or returns null. */
  function AsTelemetrySource(server: MinecraftServer): (source: Source)
    ensures source.onlinePlayers.Returns? && source.onlinePlayers.value.Some?
    ensures NoNulls(source.onlinePlayers.value.value)
    ensures Values(source.onlinePlayers.value.value) == OnlineSnapshots(server.players)
    ensures source.averageTickTimeMs == Returns(Some(ReadAverageTickTime(server)))
  {
    Source(Returns(Some(Refs(OnlineSnapshots(server.players)))), Returns(Some(ReadAverageTickTime(server))))
  }

  /** What the service publishes for a NeoForge server. */
  lemma NeoForgePayload(server: MinecraftServer, minecraftVersion: string)
    ensures ServicePayload(Some(AsTelemetrySource(server)), minecraftVersion, LOADER) ==
            Document(minecraftVersion, LOADER, OnlineSnapshots(server.players),
                     MetricsFor(ReadAverageTickTime(server)).mspt,
                     MetricsFor(ReadAverageTickTime(server)).tps)
  {
    var source := AsTelemetrySource(server);
    assert SafePlayers(source.onlinePlayers) == OnlineSnapshots(server.players);
    assert AverageOf(source.averageTickTimeMs) == ReadAverageTickTime(server);
  }

  /** `onServerStarted`, as on Forge. */
  method OnServerStarted(service: TelemetryService, server: MinecraftServer, currentVersion: string,
                         refreshTicks: int, port: int, bindAddress: Option<string>, env: Environment)
    modifies service
    ensures !server.dedicated ==> unchanged(service)
    ensures server.dedicated ==> service.Valid() && service.minecraftVersion == currentVersion
    ensures server.dedicated ==> service.refreshIntervalTicks == RefreshInterval(refreshTicks)
    ensures server.dedicated ==> service.ticksUntilRefresh == service.refreshIntervalTicks
    ensures server.dedicated ==> service.refreshes == old(service.refreshes)
    ensures server.dedicated ==>
              (service.httpServer != null <==> StrictBindAddress(bindAddress, env.bindOverride, env.resolve).Ok? && env.bindSucceeds)
    ensures server.dedicated && service.httpServer != null ==>
              service.httpServer.lastTelemetryJson ==
              service.toJson(ServicePayload(Some(AsTelemetrySource(server)), currentVersion, service.loaderId))
    ensures server.dedicated && service.httpServer != null ==>
              fresh(service.httpServer) && service.httpServer.running
    ensures server.dedicated && service.httpServer != null ==>
              service.httpServer.port == ResolvePort(port, env.portProperty)
    ensures server.dedicated && service.httpServer != null ==>
              service.httpServer.bindAddress == StrictBindAddress(bindAddress, env.bindOverride, env.resolve).value
  {
    if !server.dedicated {
      return;
    }
    var _ := service.Start(Some(AsTelemetrySource(server)), currentVersion, refreshTicks, port, bindAddress, env);
  }

  /** `onServerStopping`. */
  method OnServerStopping(service: TelemetryService)
    requires service.Valid()
    modifies service, service.httpServer
    ensures service.Valid() && service.httpServer == null
    ensures old(service.httpServer) != null ==> !old(service.httpServer).running
  {
    service.Stop();
  }

  /** `onServerTick`: only an event `isEndPhase` accepts reaches the
      service. */
  method OnServerTick(service: TelemetryService, server: MinecraftServer, event: TickEvent)
    requires service.Valid()
    modifies service, service.httpServer
    ensures service.Valid() && service.httpServer == old(service.httpServer)
    ensures !IsEndPhase(event) ==> unchanged(service) && (service.httpServer != null ==> unchanged(service.httpServer))
    ensures IsEndPhase(event) ==>
              service.refreshIntervalTicks == old(service.refreshIntervalTicks) &&
              service.minecraftVersion == old(service.minecraftVersion)
    ensures IsEndPhase(event) && service.httpServer == null ==>
              service.ticksUntilRefresh == old(service.ticksUntilRefresh) && service.refreshes == old(service.refreshes)
    ensures IsEndPhase(event) && service.httpServer != null ==>
              service.refreshes == old(service.refreshes) + (if RefreshDue(old(service.ticksUntilRefresh)) then 1 else 0)
    ensures IsEndPhase(event) && service.httpServer != null && !RefreshDue(old(service.ticksUntilRefresh)) ==>
              service.httpServer.lastTelemetryJson == old(service.httpServer.lastTelemetryJson)
    ensures IsEndPhase(event) && service.httpServer != null ==>
              service.ticksUntilRefresh == NextCountdown(service.refreshIntervalTicks, old(service.ticksUntilRefresh))
    ensures IsEndPhase(event) && service.httpServer != null && RefreshDue(old(service.ticksUntilRefresh)) ==>
              service.httpServer.lastTelemetryJson ==
              UpdatedCache(old(service.httpServer.lastTelemetryJson),
                           Some(service.toJson(ServicePayload(Some(AsTelemetrySource(server)), service.minecraftVersion, service.loaderId))))
  {
    if IsEndPhase(event) {
      service.Tick(Some(AsTelemetrySource(server)));
    }
  }
}
