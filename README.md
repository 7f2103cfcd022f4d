# MCTelemetry, modelled in Dafny

MCTelemetry is a Minecraft server mod. It samples the running server (the online players and the average tick time), encodes the sample as a JSON document, caches the encoded text, and serves it over a loopback HTTP endpoint (`/telemetry`, plus `/health`). This project models the core of the mod and proves what the code promises about it.

It models these parts:

- **Snapshot and payload** (`snapshot.dfy`, `json.dfy`, `payload.dfy`).
  - `PlayerSnapshot` and the `TelemetrySnapshot` record, with their null checks and the copying factory `of`.
  - The three `TelemetryPayload.build` overloads, which fill a Gson element tree key by key, with the players array appended in a loop.
  - A reader for that tree, used to state the round trip.
- **Collectors** (`metrics.dfy`, `collector.dfy`, `forge_collector.dfy`, `host.dfy`).
  - The common `TelemetryCollector` and the Forge collector.
  - Half-up rounding to a tenth, and the capped `tps` derived from the rounded `mspt`.
  - The Forge collector's loop averaging the positive nanosecond samples, and its loop that keeps the players whose conversion succeeds.
  - The player conversion shared by the Forge collector and both hooks.
- **HTTP server** (`http.dfy`, `common_http.dfy`, `forge_http.dfy`).
  - The `MCTELEMETRY_PORT` chain, the constructor's normalisation, and the cache update that ignores blank payloads.
  - The GET-only handlers.
  - The server object with its `start`/`stop` lifecycle.
  - The two bind-address policies. The common server is strict: loopback or wildcard only, honouring `MCTELEMETRY_BIND`. The Forge copy falls back to 127.0.0.1.
- **Service** (`service.dfy`). `TelemetryService` as a class with the HTTP server, the refresh interval, the countdown and the game version as fields.
  - `start`, `tick`, `stop` and `buildPayload` as methods.
  - The refresh cadence as functions about which the "every k-th tick" lemmas are proved.
- **Loader hooks** (`forge_hooks.dfy`, `neoforge_hooks.dfy`). The Forge and NeoForge `TelemetryServerHooks`.
  - The event handlers that drive the service.
  - The source adapters, with the tick-time filter and the roster mapping.
  - On NeoForge, the reflective end-phase test and the two tick-time accessors, over a datatype of accessor outcomes (`Missing | Fails | Yields(value)`).

Java's notions are modelled as follows:

- **Null** is `Option` (`None`).
- **A thrown exception** is `Result.Err` with the exception's class and message.
- **A host query whose exception the caller catches** is `Fallible` (`Throws | Returns(value)`).
- **A `double`** is a real number or one of NaN, +Infinity and -Infinity. `Math.round` is exact over the reals, including its saturation at the `long` bounds.
- **Name resolution, system properties and socket binding** are inputs: a `Resolver` function, optional strings, and a boolean. They are bundled for the service in `Service.Environment`.

Three behaviours of the code are reproduced as written:

- A player whose name reads as null makes the `PlayerSnapshot` constructor throw inside the conversion's fallback.
  - The Forge collector skips that player.
  - Both hooks map the roster as a stream inside one `try`, so the whole roster becomes empty. `ForgeCollector.OneUnreadablePlayer` exhibits the difference.
- A second `TelemetryService.start` while a server runs replaces the server without stopping it. The model abandons the old object as the code does, and states nothing about it.
- The hooks are written against a `TelemetryService` that takes a source adapter in its constructor and a six-argument `start`. The service in the same repository has a two-argument constructor and a five-argument `start` that receives the server itself.
  - The model follows the service as written, so `start` and `tick` take the source as a parameter.
  - The hooks pass their adapter for the server.

## Model

| member | source | states |
|---|---|---|
| Snapshot.NewPlayerSnapshot | common/src/main/java/net/sprocketgames/mctelemetry/common/PlayerSnapshot.java:8-13 | a player snapshot exists exactly when name and uuid are both non-null, and keeps both; a null name is a `NullPointerException` named `name` |
| Snapshot.NewTelemetrySnapshot | common/src/main/java/net/sprocketgames/mctelemetry/common/TelemetrySnapshot.java:10-15 | construction succeeds exactly when version, loader and player list are non-null, naming the first null one; `mspt` and `tps` are not checked and are kept as given, null included |
| Snapshot.Of | common/src/main/java/net/sprocketgames/mctelemetry/common/TelemetrySnapshot.java:17-20 | `of` succeeds exactly when version, loader and collection are non-null and the collection holds no null element; the snapshot holds the same players in the same order and the other four components unchanged |
| Json.Put | common/src/main/java/net/sprocketgames/mctelemetry/common/TelemetryPayload.java:31-46 | adding a new key appends it after the existing members, re-adding a key keeps the key order, and the key then maps to the new value |
| Payload.NullableNumber | common/src/main/java/net/sprocketgames/mctelemetry/common/TelemetryPayload.java:50-57 | a metric is stored as JSON null exactly when it is null, NaN or infinite, and otherwise as that number |
| Payload.HeaderPuts | common/src/main/java/net/sprocketgames/mctelemetry/common/TelemetryPayload.java:31-36 | the four additions to a new object give the members `mc`, `loader`, `mspt`, `tps` in that order, with the version, the loader and the two stored metrics |
| Payload.AppendPlayers | common/src/main/java/net/sprocketgames/mctelemetry/common/TelemetryPayload.java:38-44 | the loop completes exactly when no element is null, and then yields one `{name, uuid}` object per player in iteration order |
| Payload.Build | common/src/main/java/net/sprocketgames/mctelemetry/common/TelemetryPayload.java:26-48 | a null version, loader or player collection is refused with the matching `NullPointerException`; a collection without null elements gives the five-member document of those players and metrics; a null element is refused |
| Payload.BuildWithoutMetrics | common/src/main/java/net/sprocketgames/mctelemetry/common/TelemetryPayload.java:22-24 | the three-argument `build` gives the same document as the five-argument one with both metrics null, so `mspt` and `tps` are present and null |
| Payload.BuildSnapshot | common/src/main/java/net/sprocketgames/mctelemetry/common/TelemetryPayload.java:17-20 | a null snapshot is refused; otherwise the result is the document of the snapshot's five components |
| Payload.PlayersArrayShape | common/src/main/java/net/sprocketgames/mctelemetry/common/TelemetryPayload.java:38-46 | the `players` array has exactly one element per player, the i-th being the i-th player's `{name, uuid}` object, so no player gives an empty array |
| Payload.DocumentShape | common/src/main/java/net/sprocketgames/mctelemetry/common/TelemetryPayload.java:31-46 | every document has exactly the keys `mc`, `loader`, `mspt`, `tps`, `players` in that order, the metric keys present even when null, and one `{name, uuid}` object per player in order |
| Payload.DocumentExamples | common/src/test/java/net/sprocketgames/mctelemetry/common/TelemetryPayloadTest.java:17-46 | the expectations of the payload tests: no metrics give two JSON nulls, 50.0 and 20.0 are stored as those numbers, NaN and +Infinity give JSON null, and an empty roster gives an empty array |
| Payload.DecodePlayersArray | common/src/main/java/net/sprocketgames/mctelemetry/common/TelemetryPayload.java:38-46 | reading the `players` array back gives exactly the players it was built from, in order |
| Payload.DecodeDocument | common/src/main/java/net/sprocketgames/mctelemetry/common/TelemetryPayload.java:26-48 | round trip: reading a document back gives the version, the loader and the players exactly, and each metric as its value when finite and as null otherwise |
| Collector.SafePlayers | common/src/main/java/net/sprocketgames/mctelemetry/common/server/TelemetryCollector.java:30-44 | the roster copied in order when the query returns a non-null list without null elements; the empty list when it throws, returns null or empty, or holds a null element |
| Collector.AverageOf | common/src/main/java/net/sprocketgames/mctelemetry/common/server/TelemetryCollector.java:47-49 | a timing query that throws or returns null counts as an absent average; otherwise its answer is used |
| Collector.ReadTickMetrics | common/src/main/java/net/sprocketgames/mctelemetry/common/server/TelemetryCollector.java:46-61 | both metrics are null or both present; present exactly when the query returned a present average; `mspt` is that average rounded to a tenth and `tps` lies in 0..20 and is derived from `mspt` |
| Collector.Collect | common/src/main/java/net/sprocketgames/mctelemetry/common/server/TelemetryCollector.java:19-28 | a null source or logger is refused, the source first; otherwise the snapshot exists exactly when version and loader id are non-null, carries them unchanged, the safe roster and the two metrics |
| Collector.FailuresAreIsolated | common/src/main/java/net/sprocketgames/mctelemetry/common/server/TelemetryCollector.java:24-27 | a throwing roster query still yields the metrics (with no players), and a throwing timing query still yields the players (with null metrics) |
| Collector.CollectedSnapshot | common/src/main/java/net/sprocketgames/mctelemetry/common/server/TelemetryCollector.java:19-28 | a source that answers with players and an average gives the snapshot of exactly those players and the metrics of that average |
| Java.Round | common/src/main/java/net/sprocketgames/mctelemetry/common/server/TelemetryCollector.java:63-65 | `Math.round`: NaN gives 0, infinities saturate, and inside the `long` range the result is within half of the argument, ties upward |
| Metrics.RoundToTenthNearest | common/src/main/java/net/sprocketgames/mctelemetry/common/server/TelemetryCollector.java:63-65 | rounding to a tenth moves a value by at most 0.05 (ties upward) and lands on a multiple of 0.1 |
| Metrics.RoundToTenthIdempotent | common/src/main/java/net/sprocketgames/mctelemetry/common/server/TelemetryCollector.java:63-65 | rounding an already rounded value changes nothing |
| Metrics.RoundToTenthNonNegative | common/src/main/java/net/sprocketgames/mctelemetry/common/server/TelemetryCollector.java:63-65 | a non-negative or +Infinity average never rounds to a negative `mspt` |
| Metrics.TpsFor | common/src/main/java/net/sprocketgames/mctelemetry/common/server/TelemetryCollector.java:55 | `tps` always lies in 0..20; it is exactly 20 for an `mspt` at most 0 and for one at most 50; otherwise it is `min(20, 1000/mspt)` to within the 0.05 of rounding |
| Metrics.FromAverage | common/src/main/java/net/sprocketgames/mctelemetry/common/server/TelemetryCollector.java:54-56 | a present average gives both metrics, finite: `mspt` the rounded average and `tps` derived from that rounded value, not from the raw average |
| Metrics.MetricsFor | common/src/main/java/net/sprocketgames/mctelemetry/common/server/TelemetryCollector.java:49-56 | an absent average gives both metrics null and a present one gives both |
| Metrics.MetricsExamples | common/src/main/java/net/sprocketgames/mctelemetry/common/server/TelemetryCollector.java:54-55 | 25 ms gives 25.0 ms and 20.0 tps; 100 ms gives 100.0 ms and 10.0 tps |
| Metrics.IdleServerMetrics | common/src/main/java/net/sprocketgames/mctelemetry/common/server/TelemetryCollector.java:55 | an average of zero gives 0.0 ms and exactly 20.0 tps, with no division |
| Metrics.SlowServerMetrics | common/src/main/java/net/sprocketgames/mctelemetry/common/server/TelemetryCollector.java:54-55 | 66.66 ms is reported as 66.7 ms, and `tps` is computed from 66.7 and reported as 15.0 |
| Java.Trim | common/src/main/java/net/sprocketgames/mctelemetry/common/server/TelemetryHttpServer.java:54 | `String.trim`: the result is a slice `s[a..b]` with every character before `a` and from `b` on at most U+0020; it is empty exactly when every character is such, and otherwise neither starts nor ends with one |
| Java.TrimIdempotent | common/src/main/java/net/sprocketgames/mctelemetry/common/server/TelemetryHttpServer.java:69-74 | trimming the already trimmed override a second time changes nothing |
| Java.ParseInt | common/src/main/java/net/sprocketgames/mctelemetry/common/server/TelemetryHttpServer.java:54 | `Integer.parseInt` succeeds exactly when what follows an optional `+` or `-` is a non-empty run of decimal digits whose signed value fits in 32 bits, and the result is that signed value |
| Java.ParseIntRejects | common/src/main/java/net/sprocketgames/mctelemetry/common/server/TelemetryHttpServer.java:53-58 | a digit followed by a letter, a doubled sign and a lone minus are all refused, as `Integer.parseInt` refuses them with a `NumberFormatException` |
| Java.ParseIntOfIntText | common/src/main/java/net/sprocketgames/mctelemetry/common/server/TelemetryHttpServer.java:53-55 | parsing the decimal text of any 32-bit `int`, negative ones included, gives that number back |
| Java.ParseIntOfDecimalText | common/src/main/java/net/sprocketgames/mctelemetry/common/server/TelemetryHttpServer.java:53-55 | parsing the decimal text of a number gives that number back |
| Java.RemoveDashes | forge/src/main/java/net/sprocketgames/mctelemetry/forge/TelemetryServerHooks.java:87 | `replace("-", "")` leaves no dash and keeps every other character |
| Java.RemoveDashesIdempotent | forge/src/main/java/net/sprocketgames/mctelemetry/forge/TelemetryServerHooks.java:87 | removing the dashes twice is removing them once |
| Java.RemoveDashesLength | forge/src/main/java/net/sprocketgames/mctelemetry/forge/TelemetryServerHooks.java:87 | exactly the dashes are removed: the length drops by the number of dashes |
| Host.SnapshotForPlayer | forge/src/main/java/net/sprocketgames/mctelemetry/forge/TelemetryServerHooks.java:84-107 | the conversion fails exactly when the name reads as null, and then with the constructor's `NullPointerException`; a converted id never contains a dash |
| Host.SnapshotForPlayerClosedForm | forge/src/main/java/net/sprocketgames/mctelemetry/forge/TelemetryCollector.java:117-140 | whenever the conversion succeeds it gives the readable name or `unknown` when reading it throws, and the dash-free id or the empty string when the id is null or unreadable |
| Host.SnapshotOfReadableProfile | forge/src/main/java/net/sprocketgames/mctelemetry/forge/TelemetryServerHooks.java:86-88 | a readable profile gives its name and its id without dashes, the id shorter by exactly its dashes |
| Host.PlausibleAverage | forge/src/main/java/net/sprocketgames/mctelemetry/forge/TelemetryServerHooks.java:62-63 | an average is absent exactly when it is NaN or at most zero, and otherwise passed on unchanged |
| Host.MapSnapshots | forge/src/main/java/net/sprocketgames/mctelemetry/forge/TelemetryServerHooks.java:73-75 | the mapping succeeds exactly when every player converts, and then holds each player's conversion at that player's position |
| Host.OnlineSnapshots | forge/src/main/java/net/sprocketgames/mctelemetry/forge/TelemetryServerHooks.java:71-80 | the mapped roster when reading it succeeds and every player converts; the empty list when the read throws, the roster is null, or a conversion fails |
| Http.ResolvePort | common/src/main/java/net/sprocketgames/mctelemetry/common/server/TelemetryHttpServer.java:47-65 | the port always lies in 1..65535; without a usable `MCTELEMETRY_PORT` it is the configured port if valid and otherwise 8765; with one it is the trimmed parsed value when that is valid, and 8765 in every other case |
| Http.ResolvePortReadsProperty | common/src/main/java/net/sprocketgames/mctelemetry/common/server/TelemetryHttpServer.java:53-55 | a valid port written in decimal in the property is used, whatever was configured |
| Http.ResolvePortExamples | common/src/main/java/net/sprocketgames/mctelemetry/common/server/TelemetryHttpServer.java:49-51 | a blank or missing property leaves a valid configured port in charge, and an invalid configured port gives 8765 |
| Http.ResolvePortRejectsOutOfRange | common/src/main/java/net/sprocketgames/mctelemetry/common/server/TelemetryHttpServer.java:53-55 | a property naming port 70000 gives 8765 |
| Http.ResolvePortRejectsText | common/src/main/java/net/sprocketgames/mctelemetry/common/server/TelemetryHttpServer.java:53-60 | a property that is not a number gives 8765 |
| Http.NormalizedPort | common/src/main/java/net/sprocketgames/mctelemetry/common/server/TelemetryHttpServer.java:41 | a positive port is kept and any other becomes 8765 |
| Http.InitialCache | common/src/main/java/net/sprocketgames/mctelemetry/common/server/TelemetryHttpServer.java:40 | a null initial payload becomes `{}`, which is not blank; any other is kept |
| Http.UpdatedCache | common/src/main/java/net/sprocketgames/mctelemetry/common/server/TelemetryHttpServer.java:116-120 | a null or blank payload leaves the cache alone, any other replaces it, so a non-blank cache stays non-blank |
| Http.UpdatedCacheIdempotent | common/src/main/java/net/sprocketgames/mctelemetry/common/server/TelemetryHttpServer.java:116-120 | delivering the same payload twice is delivering it once |
| Http.Handle | common/src/main/java/net/sprocketgames/mctelemetry/common/server/TelemetryHttpServer.java:126-168 | 200 exactly for GET in any letter case; everything else gets 405 with `Allow: GET` and no body; GET on `/telemetry` sends the cache as JSON and on `/health` sends `ok` as plain text |
| Http.HandleExamples | common/src/main/java/net/sprocketgames/mctelemetry/common/server/TelemetryHttpServer.java:130-133 | `GET` and `get` are accepted; `POST`, `GETS` and `HEAD` are refused, with `Allow: GET` |
| Http.TelemetryHttpServer.constructor | common/src/main/java/net/sprocketgames/mctelemetry/common/server/TelemetryHttpServer.java:38-45 | after the address is chosen: the cache is the normalised initial payload, the port the normalised port, the address and its text as resolved, and no server runs yet |
| Http.TelemetryHttpServer.Start | common/src/main/java/net/sprocketgames/mctelemetry/common/server/TelemetryHttpServer.java:88-106 | a running server reports success untouched; otherwise a port beyond 65535 escapes as `IllegalArgumentException`, and a bind failure reports false with nothing running; the cache is never touched (the Forge copy, lines 87-105 of its file, is the same) |
| Http.TelemetryHttpServer.Stop | common/src/main/java/net/sprocketgames/mctelemetry/common/server/TelemetryHttpServer.java:108-114 | afterwards nothing runs, whether or not something ran before, and the cache is kept |
| Http.TelemetryHttpServer.UpdateTelemetry | common/src/main/java/net/sprocketgames/mctelemetry/common/server/TelemetryHttpServer.java:116-120 | the cache becomes the updated cache, and whether the server runs is unchanged |
| Http.TelemetryHttpServer.Respond | common/src/main/java/net/sprocketgames/mctelemetry/common/server/TelemetryHttpServer.java:136-141 | a GET on `/telemetry` is answered with the current cache |
| CommonHttp.DesiredBindAddress | common/src/main/java/net/sprocketgames/mctelemetry/common/server/TelemetryHttpServer.java:68-74 | a non-blank `MCTELEMETRY_BIND` replaces the configured address; the chosen text is trimmed; a null or blank choice becomes 127.0.0.1 |
| CommonHttp.DesiredBindAddressIsTrimmed | common/src/main/java/net/sprocketgames/mctelemetry/common/server/TelemetryHttpServer.java:68-74 | the looked-up text never starts or ends with a character `trim` removes |
| CommonHttp.OverrideWins | common/src/main/java/net/sprocketgames/mctelemetry/common/server/TelemetryHttpServer.java:69 | with a non-blank override the configured address does not matter |
| CommonHttp.StrictBindAddress | common/src/main/java/net/sprocketgames/mctelemetry/common/server/TelemetryHttpServer.java:76-85 | the resolved address when it is loopback or any-local; an unresolvable text and any other address are refused with `IllegalArgumentException` naming the text, each with its own message |
| CommonHttp.StrictAddressIsLocal | common/src/main/java/net/sprocketgames/mctelemetry/common/server/TelemetryHttpServer.java:78-82 | the common server can only listen on a loopback or wildcard address |
| CommonHttp.Create | common/src/main/java/net/sprocketgames/mctelemetry/common/server/TelemetryHttpServer.java:38-45 | a null logger is refused first, then an address refusal escapes; otherwise a new, stopped server with the normalised cache and port and the chosen address |
| CommonHttp.CreateDefault | common/src/main/java/net/sprocketgames/mctelemetry/common/server/TelemetryHttpServer.java:34-36 | the two-argument constructor: the port from the `MCTELEMETRY_PORT` chain starting at 8765, always valid, and the address from 127.0.0.1 or the override |
| ForgeHttp.ForgeDesiredAddress | forge/src/main/java/net/sprocketgames/mctelemetry/forge/TelemetryHttpServer.java:67 | a null or blank address becomes 127.0.0.1; any other is looked up as given, untrimmed |
| ForgeHttp.FallbackBindAddress | forge/src/main/java/net/sprocketgames/mctelemetry/forge/TelemetryHttpServer.java:66-85 | a loopback address is kept; a non-loopback one, the wildcard included, or an unresolvable one is replaced by the address of 127.0.0.1; only when that cannot be resolved is `IllegalStateException` thrown |
| ForgeHttp.FallbackIsLoopback | forge/src/main/java/net/sprocketgames/mctelemetry/forge/TelemetryHttpServer.java:70-83 | when 127.0.0.1 resolves to loopback, the Forge server always gets an address and never listens beyond loopback |
| ForgeHttp.Create | forge/src/main/java/net/sprocketgames/mctelemetry/forge/TelemetryHttpServer.java:37-44 | a null logger is refused first; otherwise the server exists exactly when the fallback finds an address, with the normalised cache and port |
| ForgeHttp.CreateDefault | forge/src/main/java/net/sprocketgames/mctelemetry/forge/TelemetryHttpServer.java:33-35 | the two-argument constructor: the port from the `MCTELEMETRY_PORT` chain starting at 8765, always valid |
| ForgeCollector.AverageTickTimeMs | forge/src/main/java/net/sprocketgames/mctelemetry/forge/TelemetryCollector.java:45-67 | the loop yields the mean, in milliseconds, of exactly the strictly positive samples, and absent when there is none |
| ForgeCollector.PositiveCountZero | forge/src/main/java/net/sprocketgames/mctelemetry/forge/TelemetryCollector.java:62-64 | the average is absent exactly when no sample is positive |
| ForgeCollector.PositiveMillisBounds | forge/src/main/java/net/sprocketgames/mctelemetry/forge/TelemetryCollector.java:53-60 | when every positive sample lies within bounds, the accumulated total lies between count copies of each bound |
| ForgeCollector.MeanWithinSamples | forge/src/main/java/net/sprocketgames/mctelemetry/forge/TelemetryCollector.java:51-66 | the average is a true mean: it lies within any bounds that hold every positive sample |
| ForgeCollector.MeanIsPositive | forge/src/main/java/net/sprocketgames/mctelemetry/forge/TelemetryCollector.java:53-66 | a present average is positive |
| ForgeCollector.ReadTickMetrics | forge/src/main/java/net/sprocketgames/mctelemetry/forge/TelemetryCollector.java:34-43 | both metrics are null exactly when no sample is positive; otherwise `mspt` is the mean rounded to a tenth and `tps` lies in 0..20 and is derived from `mspt` |
| ForgeCollector.CollectPlayerSnapshots | forge/src/main/java/net/sprocketgames/mctelemetry/forge/TelemetryCollector.java:90-115 | a throwing roster read gives the empty list, a null roster escapes as `NullPointerException`, and otherwise the loop keeps the successful conversions in roster order |
| ForgeCollector.ConvertedAll | forge/src/main/java/net/sprocketgames/mctelemetry/forge/TelemetryCollector.java:106-114 | when every player converts, the collector keeps all of them, in order, exactly as the hooks' mapping does |
| ForgeCollector.ConvertedFromRoster | forge/src/main/java/net/sprocketgames/mctelemetry/forge/TelemetryCollector.java:106-114 | every kept snapshot is the conversion of some player of the roster |
| ForgeCollector.ConvertedConcat | forge/src/main/java/net/sprocketgames/mctelemetry/forge/TelemetryCollector.java:106-112 | converting a roster in two parts and joining the results is converting the whole roster, so the loop keeps roster order |
| ForgeCollector.ConvertedSingle | forge/src/main/java/net/sprocketgames/mctelemetry/forge/TelemetryCollector.java:106-112 | a single player is kept exactly when its conversion succeeds, as its snapshot |
| ForgeCollector.ConvertedKeepsConvertible | forge/src/main/java/net/sprocketgames/mctelemetry/forge/TelemetryCollector.java:106-112 | every player whose conversion succeeds is kept, between the snapshots of the players before it and those of the players after it |
| ForgeCollector.Collect | forge/src/main/java/net/sprocketgames/mctelemetry/forge/TelemetryCollector.java:27-32 | a null roster escapes; otherwise the snapshot exists exactly when the version is non-null, with loader `forge`, the kept players and the metrics of the samples |
| ForgeCollector.OneUnreadablePlayer | forge/src/main/java/net/sprocketgames/mctelemetry/forge/TelemetryCollector.java:106-112 | with one readable player and one whose name reads as null, the collector keeps the readable one while the hooks' mapping of the same roster gives no player at all |
| Service.CountdownStaysInRange | common/src/main/java/net/sprocketgames/mctelemetry/common/server/TelemetryService.java:68-72 | between ticks the countdown stays in 1..interval |
| Service.RefreshesClosedForm | common/src/main/java/net/sprocketgames/mctelemetry/common/server/TelemetryService.java:68-72 | starting with countdown t, n ticks refresh 0 times when n < t, and otherwise once on tick t and once on every interval-th tick after it |
| Service.EveryKthTick | common/src/main/java/net/sprocketgames/mctelemetry/common/server/TelemetryService.java:68-72 | after `start`, n ticks with interval k refresh exactly n/k times (rounded down) |
| Service.RefreshInterval | common/src/main/java/net/sprocketgames/mctelemetry/common/server/TelemetryService.java:31 | the interval is the configured value when that is at least 1, and exactly 1 otherwise |
| Service.ServicePayload | common/src/main/java/net/sprocketgames/mctelemetry/common/server/TelemetryService.java:79-87 | the document of the collected snapshot: the safe roster and the two metrics; the fallback document (no players, null metrics) when collecting fails |
| Service.TelemetryService.constructor | common/src/main/java/net/sprocketgames/mctelemetry/common/server/TelemetryService.java:24-27 | a new service holds its loader id and the current game version and has no server |
| Service.TelemetryService.BuildPayload | common/src/main/java/net/sprocketgames/mctelemetry/common/server/TelemetryService.java:79-87 | the payload built is the service payload for the current version and loader id |
| Service.TelemetryService.Start | common/src/main/java/net/sprocketgames/mctelemetry/common/server/TelemetryService.java:29-54 | the version is refreshed, the interval is `max(1, configured)` and the countdown equals it; `start` succeeds exactly when the strict address check passes and the socket binds; then a new, running server holds the initial payload, the resolved port and the address; a failure leaves no server |
| Service.TelemetryService.Stop | common/src/main/java/net/sprocketgames/mctelemetry/common/server/TelemetryService.java:56-61 | afterwards there is no server and the old one no longer runs; the counters are kept, so stopping twice is stopping once |
| Service.TelemetryService.Tick | common/src/main/java/net/sprocketgames/mctelemetry/common/server/TelemetryService.java:63-77 | without a server nothing changes, the countdown included; with one the countdown moves on, and exactly when it runs out it is reset and the cache receives the freshly built payload |
| Service.NewTelemetryService | common/src/main/java/net/sprocketgames/mctelemetry/common/server/TelemetryService.java:24-27 | a null loader id is refused first, then a null logger; otherwise a new service without a server |
| Service.TickRepeatedly | common/src/main/java/net/sprocketgames/mctelemetry/common/server/TelemetryService.java:63-77 | n ticks of a running service leave the countdown and the number of refreshes exactly as the cadence functions say |
| ForgeHooks.AverageTickTimeMs | forge/src/main/java/net/sprocketgames/mctelemetry/forge/TelemetryServerHooks.java:60-68 | absent exactly when the read throws, is NaN or is at most zero; otherwise the value read, unchanged |
| ForgeHooks.AsTelemetrySource | forge/src/main/java/net/sprocketgames/mctelemetry/forge/TelemetryServerHooks.java:57-82 | the adapter's queries never throw or return null: the roster is the hooks' online snapshots and the average the filtered reading |
| ForgeHooks.ForgePayload | forge/src/main/java/net/sprocketgames/mctelemetry/forge/TelemetryServerHooks.java:57-82 | the service publishes, for a Forge server, the document of the hooks' roster and of the metrics of the filtered average |
| ForgeHooks.BrokenTimerKeepsPlayers | forge/src/main/java/net/sprocketgames/mctelemetry/forge/TelemetryServerHooks.java:61-67 | a NaN or throwing tick-time read gives null metrics but keeps the roster |
| ForgeHooks.AriRoster | forge/src/main/java/net/sprocketgames/mctelemetry/forge/TelemetryServerHooks.java:71-75 | a roster of one readable player gives that player, the dash removed from the id |
| ForgeHooks.OnePlayerAtFullSpeed | forge/src/main/java/net/sprocketgames/mctelemetry/forge/TelemetryServerHooks.java:57-82 | one player online at 25 ms per tick: the document lists the player with a dash-free id, 25.0 ms and 20.0 tps, loader `forge` |
| ForgeHooks.OnServerStarted | forge/src/main/java/net/sprocketgames/mctelemetry/forge/TelemetryServerHooks.java:28-43 | a non-dedicated server leaves the service untouched; on a dedicated one the service is started on the adapter: it records the version, the refresh interval and a full countdown, keeps its refresh count, and holds a fresh running server exactly when the strict bind address resolves and the bind succeeds, that server caching the payload of the adapter and serving on the resolved port and address |
| ForgeHooks.OnServerStopping | forge/src/main/java/net/sprocketgames/mctelemetry/forge/TelemetryServerHooks.java:46-48 | the service is stopped and has no server |
| ForgeHooks.OnServerTick | forge/src/main/java/net/sprocketgames/mctelemetry/forge/TelemetryServerHooks.java:51-55 | the START phase changes nothing; the END phase ticks the service, with the whole outcome of `tick`: interval and version kept; without a server nothing changes; with one the countdown steps, the refresh count rises by one exactly on a due tick, a due tick offers the adapter's payload to the cache and any other tick leaves the cache alone |
| NeoForgeHooks.IsEndPhase | neoforge/src/main/java/net/sprocketgames/mctelemetry/neoforge/TelemetryServerHooks.java:58-76 | when `getPhase` can be called it decides (END exactly when the phase reads `END`, a null phase is not END); otherwise the `phase` field decides the same way; with neither the event counts as END |
| NeoForgeHooks.MethodShadowsField | neoforge/src/main/java/net/sprocketgames/mctelemetry/neoforge/TelemetryServerHooks.java:59-65 | when `getPhase` answers, the `phase` field makes no difference |
| NeoForgeHooks.IsEndPhaseExamples | neoforge/src/main/java/net/sprocketgames/mctelemetry/neoforge/TelemetryServerHooks.java:58-76 | an `END` phase is the end; a `START` or null phase is not, even with an `END` field; no working accessor at all is the end |
| NeoForgeHooks.ReadAverageTickTime | neoforge/src/main/java/net/sprocketgames/mctelemetry/neoforge/TelemetryServerHooks.java:124-153 | a number from `getAverageTickTime` is filtered; any other failure of that call is absent; a missing method or a non-number falls back to `getAverageTickTimeNanos`, divided by 1,000,000 and filtered; everything else is absent; a present value is positive |
| NeoForgeHooks.NanosFallbackExamples | neoforge/src/main/java/net/sprocketgames/mctelemetry/neoforge/TelemetryServerHooks.java:139-145 | with only the nanosecond accessor, 50,000,000 ns gives 50 ms and zero gives absent; a failing first accessor gives absent even when the nanosecond one would answer |
| NeoForgeHooks.AsTelemetrySource | neoforge/src/main/java/net/sprocketgames/mctelemetry/neoforge/TelemetryServerHooks.java:78-97 | the adapter's queries never throw or return null: the roster is the hooks' online snapshots and the average the reflective reading |
| NeoForgeHooks.NeoForgePayload | neoforge/src/main/java/net/sprocketgames/mctelemetry/neoforge/TelemetryServerHooks.java:78-97 | the service publishes, for a NeoForge server, the document of the hooks' roster and of the metrics of the reflective reading |
| NeoForgeHooks.OnServerStarted | neoforge/src/main/java/net/sprocketgames/mctelemetry/neoforge/TelemetryServerHooks.java:28-44 | a non-dedicated server leaves the service untouched; on a dedicated one the service is started on the adapter: it records the version, the refresh interval and a full countdown, keeps its refresh count, and holds a fresh running server exactly when the strict bind address resolves and the bind succeeds, that server caching the payload of the adapter and serving on the resolved port and address |
| NeoForgeHooks.OnServerStopping | neoforge/src/main/java/net/sprocketgames/mctelemetry/neoforge/TelemetryServerHooks.java:46-49 | the service is stopped and has no server |
| NeoForgeHooks.OnServerTick | neoforge/src/main/java/net/sprocketgames/mctelemetry/neoforge/TelemetryServerHooks.java:51-56 | an event `isEndPhase` rejects changes nothing; an accepted one ticks the service, with the whole outcome of `tick`: interval and version kept; without a server nothing changes; with one the countdown steps, the refresh count rises by one exactly on a due tick, a due tick offers the adapter's payload to the cache and any other tick leaves the cache alone |

## Left out

- Gson text: the model stops at the element tree. The cached string is `toJson(tree)` for a serialiser given to the service. The model therefore does not say that the wire text contains `"mspt":null`; a default `Gson` drops null members from its output.
- Floating point: doubles are reals, so IEEE rounding of `value * 10.0`, `1000.0 / mspt`, `nanos / 1_000_000.0` and the running sum is not modelled. NaN and the infinities are modelled exactly.
- Metrics.TpsFor: states `tps` to within the 0.05 of rounding, and exactly only where the cap applies, rather than as the rounded value itself.
- HTTP mechanics: `HttpServer`, its contexts and executor, the exchange's streams and headers, and the UTF-8 encoding of the body are foreign I/O. Only the handler decision, the cache and the `running` flag are modelled. Whether binding the socket succeeds is an input.
- Address resolution: `InetAddress.getByName` and the loopback and any-local tests are an input function. Lookups are taken to be deterministic, so the Forge server's repeated lookup of 127.0.0.1 fails the same way twice.
- System properties: `MCTELEMETRY_PORT` and `MCTELEMETRY_BIND` are optional-string inputs.
- Concurrency: the `AtomicReference` cache is a plain field. Requests served while a tick updates the cache are not modelled.
- Reflection: the Forge collector's `readTickTimes` field search (forge `TelemetryCollector.java` lines 69-88) is not part of this model. The Forge collector receives the sample array that search returns.
- Reflection, NeoForge: `getMethod`, `getField` and `invoke` are represented by their outcomes only.
- NeoForgeHooks.IsEndPhase: `isEndPhase` catches only reflective exceptions. A `SecurityException`, or a phase whose `toString` throws, escapes the event handler; the model has no outcome for that.
- Logging: every `logger` and `logDetailed` call, the `detailedLogging` flag and `logCachedUpdate` are omitted.
- Logging side effect: the Forge collector's failure log at TelemetryCollector.java line 110 evaluates `player.getGameProfile()` whether or not detailed logging is on. Profile reads are taken to be deterministic: a `ServerPlayer` holds one outcome of `getGameProfile()`. A conversion fails only when that read returned a profile whose name is null, so the log's second read succeeds too. The log call itself is not modelled.
- Configuration: the refresh interval, port and bind address the hooks read from their config classes are parameters. The Forge `TelemetryConfig` lacks the three accessors the Forge hooks call.
- Game version: `SharedConstants.getCurrentVersion()` is a parameter, `currentVersion`.
- Commands: the Brigadier command classes, and the legacy JSON shape one of them prints, are not part of this model.
- Mod entry classes: only the loader ids `forge` and `neoforge` are taken from them.
- Host.SnapshotForPlayer: the Forge collector's conversion catches `Throwable` and the hooks' conversions catch `Exception`. Throwables that are not exceptions are not modelled, so the two conversions coincide.
- Host.OnlineSnapshots: a roster list holding a null `ServerPlayer` is not modelled; every roster element is a player.
- Java.ParseInt: accepts ASCII digits only, while `Integer.parseInt` also accepts other Unicode decimal digits.
- Http.TelemetryHttpServer.Respond: states only the `/telemetry` answer. The full decision for both routes is the contract of `Http.Handle`.
