/** The Forge `TelemetryServerHooks`: the server events forwarded to the
    shared `TelemetryService`, and the adapter that turns a running server
    into a `TelemetrySource` that never throws. */
module ForgeHooks {
  import opened Wrappers
  import opened Java
  import opened Json
  import opened Payload
  import opened Snapshot
  import opened Metrics
  import opened Collector
  import opened Host
  import opened Http
  import opened CommonHttp
  import opened Service
  import ForgeCollector

  /** What the hooks ask of a `MinecraftServer`: whether it is dedicated,
      its roster (`getPlayerList().getPlayers()`, where a null player list
      trips a `NullPointerException`), and `getAverageTickTime()`. */
  datatype MinecraftServer = MinecraftServer(
    dedicated: bool,
    players: Fallible<Option<seq<ServerPlayer>>>,
    averageTickTime: Fallible<Double>)

  /** The two phases of a `ServerTickEvent`. */
  datatype Phase = StartPhase | EndPhase

  /** The adapter's `averageTickTimeMs()`: absent when the read throws, is
      NaN or is at most zero; otherwise the value read. */
  function AverageTickTimeMs(averageTickTime: Fallible<Double>): (a: OptionalDouble)
    ensures a.Present? <==> averageTickTime.Returns? &&
                            ((averageTickTime.value.Finite? && averageTickTime.value.r > 0.0) || averageTickTime.value.PosInf?)
    ensures a.Present? ==> a.value == averageTickTime.value
  {
    match averageTickTime
    case Throws => Empty
    case Returns(averageMspt) => PlausibleAverage(averageMspt)
  }

  /** `asTelemetrySource(server)`: both queries of the adapter catch every
      exception, so neither throws nor returns null. */
  function AsTelemetrySource(server: MinecraftServer): (source: Source)
    ensures source.onlinePlayers.Returns? && source.onlinePlayers.value.Some?
    ensures NoNulls(source.onlinePlayers.value.value)
    ensures Values(source.onlinePlayers.value.value) == OnlineSnapshots(server.players)
    ensures source.averageTickTimeMs == Returns(Some(AverageTickTimeMs(server.averageTickTime)))
  {
    Source(Returns(Some(Refs(OnlineSnapshots(server.players)))), Returns(Some(AverageTickTimeMs(server.averageTickTime))))
  }

  /** What the service publishes for a Forge server: the hooks' roster, and
      metrics from the filtered average; the fallback document is never
      needed. */
  lemma ForgePayload(server: MinecraftServer, minecraftVersion: string)
    ensures ServicePayload(Some(AsTelemetrySource(server)), minecraftVersion, ForgeCollector.LOADER) ==
            Document(minecraftVersion, ForgeCollector.LOADER, OnlineSnapshots(server.players),
                     MetricsFor(AverageTickTimeMs(server.averageTickTime)).mspt,
                     MetricsFor(AverageTickTimeMs(server.averageTickTime)).tps)
  {
    var source := AsTelemetrySource(server);
    assert SafePlayers(source.onlinePlayers) == OnlineSnapshots(server.players);
    assert AverageOf(source.averageTickTimeMs) == AverageTickTimeMs(server.averageTickTime);
  }

  /** A stalled or broken tick timer gives null metrics but keeps the
      roster. */
  lemma BrokenTimerKeepsPlayers(players: Fallible<Option<seq<ServerPlayer>>>, minecraftVersion: string)
    ensures ServicePayload(Some(AsTelemetrySource(MinecraftServer(true, players, Returns(NaN)))), minecraftVersion, ForgeCollector.LOADER) ==
            Document(minecraftVersion, ForgeCollector.LOADER, OnlineSnapshots(players), None, None)
    ensures ServicePayload(Some(AsTelemetrySource(MinecraftServer(true, players, Throws))), minecraftVersion, ForgeCollector.LOADER) ==
            Document(minecraftVersion, ForgeCollector.LOADER, OnlineSnapshots(players), None, None)
  {
    ForgePayload(MinecraftServer(true, players, Returns(NaN)), minecraftVersion);
    ForgePayload(MinecraftServer(true, players, Throws), minecraftVersion);
  }

  /** The player of the example below. */
  function Ari(): ServerPlayer {
    ServerPlayer(Returns(GameProfile(Returns(Some("Ari")), Returns(Some("abcd-ef01")))))
  }

  lemma AriIdWithoutDashes()
    ensures RemoveDashes("abcd-ef01") == "abcdef01"
  {
    assert '-' !in "abcd" by { assert forall i :: 0 <= i < 4 ==> "abcd"[i] != '-'; }
    assert '-' !in "ef01" by { assert forall i :: 0 <= i < 4 ==> "ef01"[i] != '-'; }
    RemoveOneDash("abcd", "ef01");
    assert "abcd" + "-" + "ef01" == "abcd-ef01";
    assert "abcd" + "ef01" == "abcdef01";
  }

  /** A roster of one readable player converts to that player, its id
      without dashes. */
  lemma AriRoster()
    ensures OnlineSnapshots(Returns(Some([Ari()]))) == [PlayerSnapshot("Ari", "abcdef01")]
  {
    SnapshotOfReadableProfile("Ari", "abcd-ef01");
    AriIdWithoutDashes();
    var players := [Ari()];
    assert SnapshotForPlayer(players[0]) == Ok(PlayerSnapshot("Ari", "abcdef01"));
    assert MapSnapshots(players[1..]) == Ok([]);
  }

  /** One player online and a 25 ms average: the published document lists
      the player with the dashes removed from the id, 25.0 ms and 20.0 tps. */
  lemma OnePlayerAtFullSpeed(minecraftVersion: string)
    ensures ServicePayload(Some(AsTelemetrySource(MinecraftServer(true, Returns(Some([Ari()])), Returns(Finite(25.0))))),
                           minecraftVersion, ForgeCollector.LOADER) ==
            Document(minecraftVersion, "forge", [PlayerSnapshot("Ari", "abcdef01")], Some(Finite(25.0)), Some(Finite(20.0)))
  {
    ForgePayload(MinecraftServer(true, Returns(Some([Ari()])), Returns(Finite(25.0))), minecraftVersion);
    AriRoster();
    MetricsExamples();
  }

  /** `onServerStarted`: an integrated (non-dedicated) server is skipped;
      otherwise the service is started on the adapter with the current
      game version and the configured interval, port and address. */
  method OnServerStarted(service: TelemetryService, server: MinecraftServer, currentVersion: string,
                         refreshTicks: int, port: int, bindAddress: Option<string>, env: Environment)
    modifies service
    ensures !server.dedicated ==> unchanged(service)
    ensures server.dedicated ==> service.Valid() && service.minecraftVersion == currentVersion
    ensures server.dedicated ==> service.refreshIntervalTicks == RefreshInterval(refreshTicks)
    ensures server.dedicated ==> service.ticksUntilRefresh == service.refreshIntervalTicks
    ensures server.dedicated ==> service.refreshes == old(service.refreshes)
    ensures server.dedicated ==>
              (service.httpServer != null <==> StrictBindAddress(bindAddress, env.bindOverride, env.resolve).Ok? && env.bindSucceeds)
    ensures server.dedicated && service.httpServer != null ==>
              service.httpServer.lastTelemetryJson ==
              service.toJson(ServicePayload(Some(AsTelemetrySource(server)), currentVersion, service.loaderId))
    ensures server.dedicated && service.httpServer != null ==>
              fresh(service.httpServer) && service.httpServer.running
    ensures server.dedicated && service.httpServer != null ==>
              service.httpServer.port == ResolvePort(port, env.portProperty)
    ensures server.dedicated && service.httpServer != null ==>
              service.httpServer.bindAddress == StrictBindAddress(bindAddress, env.bindOverride, env.resolve).value
  {
    if !server.dedicated {
      return;
    }
    var _ := service.Start(Some(AsTelemetrySource(server)), currentVersion, refreshTicks, port, bindAddress, env);
  }

  /** `onServerStopping`. */
  method OnServerStopping(service: TelemetryService)
    requires service.Valid()
    modifies service, service.httpServer
    ensures service.Valid() && service.httpServer == null
    ensures old(service.httpServer) != null ==> !old(service.httpServer).running
  {
    service.Stop();
  }

  /** `onServerTick`: only the END phase reaches the service. */
  method OnServerTick(service: TelemetryService, server: MinecraftServer, phase: Phase)
    requires service.Valid()
    modifies service, service.httpServer
    ensures service.Valid() && service.httpServer == old(service.httpServer)
    ensures phase == StartPhase ==> unchanged(service) && (service.httpServer != null ==> unchanged(service.httpServer))
    ensures phase == EndPhase ==>
              service.refreshIntervalTicks == old(service.refreshIntervalTicks) &&
              service.minecraftVersion == old(service.minecraftVersion)
    ensures phase == EndPhase && service.httpServer == null ==>
              service.ticksUntilRefresh == old(service.ticksUntilRefresh) && service.refreshes == old(service.refreshes)
    ensures phase == EndPhase && service.httpServer != null ==>
              service.refreshes == old(service.refreshes) + (if RefreshDue(old(service.ticksUntilRefresh)) then 1 else 0)
    ensures phase == EndPhase && service.httpServer != null && !RefreshDue(old(service.ticksUntilRefresh)) ==>
              service.httpServer.lastTelemetryJson == old(service.httpServer.lastTelemetryJson)
    ensures phase == EndPhase && service.httpServer != null ==>
              service.ticksUntilRefresh == NextCountdown(service.refreshIntervalTicks, old(service.ticksUntilRefresh))
    ensures phase == EndPhase && service.httpServer != null && RefreshDue(old(service.ticksUntilRefresh)) ==>
              service.httpServer.lastTelemetryJson ==
              UpdatedCache(old(service.httpServer.lastTelemetryJson),
                           Some(service.toJson(ServicePayload(Some(AsTelemetrySource(server)), service.minecraftVersion, service.loaderId))))
  {
    if phase == EndPhase {
      service.Tick(Some(AsTelemetrySource(server)));
    }
  }
}
