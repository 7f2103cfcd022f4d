/** The loader-independent collector: it asks a `TelemetrySource` for the
    online players and the average tick time and turns the answers into a
    `TelemetrySnapshot`, degrading each field on its own when a query fails. */
module Collector {
  import opened Wrappers
  import opened Java
  import opened Snapshot
  import opened Metrics

  /** The two queries of a `TelemetrySource`. Either may throw, and either
      may return null. */
  datatype Source = Source(
    onlinePlayers: Fallible<Option<PlayerList>>,
    averageTickTimeMs: Fallible<Option<OptionalDouble>>)

  /** `safePlayers`: the roster copied in order, or the empty list when the
      query throws, returns null or empty, or holds a null element (on which
      `List.copyOf` throws inside the same `try`). */
  function SafePlayers(roster: Fallible<Option<PlayerList>>): (ps: seq<PlayerSnapshot>)
    ensures roster.Returns? && roster.value.Some? && NoNulls(roster.value.value) ==> ps == Values(roster.value.value)
    ensures !(roster.Returns? && roster.value.Some? && NoNulls(roster.value.value)) ==> ps == []
  {
    if roster.Throws? || roster.value.None? || roster.value.value == [] then []
    else if !NoNulls(roster.value.value) then []
    else Values(roster.value.value)
  }

  /** The average a timing query stands for: empty when it throws or
      returns null. */
  function AverageOf(average: Fallible<Option<OptionalDouble>>): (a: OptionalDouble)
    ensures average.Returns? && average.value.Some? ==> a == average.value.value
    ensures !(average.Returns? && average.value.Some?) ==> a == Empty
  {
    if average.Throws? || average.value.None? then Empty else average.value.value
  }

  /** `readTickMetrics`: both metrics null unless a present average was
      returned, and then `mspt` is the average rounded to a tenth and `tps`
      the capped rate derived from it. */
  function ReadTickMetrics(average: Fallible<Option<OptionalDouble>>): (m: TickMetrics)
    ensures m.mspt.None? <==> m.tps.None?
    ensures m.mspt.Some? <==> average.Returns? && average.value.Some? && average.value.value.Present?
    ensures m.mspt.Some? ==> m.mspt.value == Finite(RoundToTenth(average.value.value.value))
    ensures m.tps.Some? ==> m.tps.value.Finite? && 0.0 <= m.tps.value.r <= MAX_TPS
    ensures m.tps.Some? ==> m.tps.value.r == TpsFor(m.mspt.value.r)
  {
    MetricsFor(AverageOf(average))
  }

  /** `collect`: a null source or logger is refused; the players and the
      metrics are read independently and handed to `TelemetrySnapshot.of`
      with the version and loader id. */
  function Collect(source: Option<Source>, logger: Option<Logger>, mcVersion: Option<string>, loaderId: Option<string>)
    : (r: Result<TelemetrySnapshot, JavaException>)
    ensures source.None? ==> r == Err(NullPointer("source"))
    ensures source.Some? && logger.None? ==> r == Err(NullPointer("logger"))
    ensures r.Ok? <==> source.Some? && logger.Some? && mcVersion.Some? && loaderId.Some?
    ensures r.Ok? ==> r.value.minecraftVersion == mcVersion.value && r.value.loader == loaderId.value
    ensures r.Ok? ==> r.value.players == Refs(SafePlayers(source.value.onlinePlayers))
    ensures r.Ok? ==> r.value.mspt == ReadTickMetrics(source.value.averageTickTimeMs).mspt
    ensures r.Ok? ==> r.value.tps == ReadTickMetrics(source.value.averageTickTimeMs).tps
  {
    if source.None? then Err(NullPointer("source"))
    else if logger.None? then Err(NullPointer("logger"))
    else
      var players := SafePlayers(source.value.onlinePlayers);
      var metrics := ReadTickMetrics(source.value.averageTickTimeMs);
      Of(mcVersion, loaderId, Some(Refs(players)), metrics.mspt, metrics.tps)
  }

  /** A failing query costs only its own field: a throwing roster still
      yields the metrics, and a throwing timing query still yields the
      players. */
  lemma FailuresAreIsolated(roster: Fallible<Option<PlayerList>>, average: Fallible<Option<OptionalDouble>>,
                            mcVersion: string, loaderId: string)
    ensures Collect(Some(Source(Throws, average)), Some(Logger), Some(mcVersion), Some(loaderId)) ==
            Ok(TelemetrySnapshot(mcVersion, loaderId, [], ReadTickMetrics(average).mspt, ReadTickMetrics(average).tps))
    ensures Collect(Some(Source(roster, Throws)), Some(Logger), Some(mcVersion), Some(loaderId)) ==
            Ok(TelemetrySnapshot(mcVersion, loaderId, Refs(SafePlayers(roster)), None, None))
  {
    assert Refs([]) == [];
  }

  /** The snapshot of a source whose roster came back as players `vs` and
      whose average came back as `average` ms. */
  lemma CollectedSnapshot(vs: seq<PlayerSnapshot>, average: OptionalDouble, mcVersion: string, loaderId: string)
    ensures Collect(Some(Source(Returns(Some(Refs(vs))), Returns(Some(average)))), Some(Logger), Some(mcVersion), Some(loaderId)) ==
            Ok(TelemetrySnapshot(mcVersion, loaderId, Refs(vs), MetricsFor(average).mspt, MetricsFor(average).tps))
  {
    assert vs == [] ==> Refs(vs) == [];
  }
}
