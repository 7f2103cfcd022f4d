/** The snapshot model: `PlayerSnapshot` and the `TelemetrySnapshot`
    record with its null checks and its copying factory `of`. */
module Snapshot {
  import opened Wrappers
  import opened Java

  /** One online player: display name and dash-free UUID text. */
  datatype PlayerSnapshot = PlayerSnapshot(name: string, uuid: string)

  /** `new PlayerSnapshot(name, uuid)`: both components must be non-null. */
  function NewPlayerSnapshot(name: Option<string>, uuid: Option<string>): (r: Result<PlayerSnapshot, JavaException>)
    ensures r.Ok? <==> name.Some? && uuid.Some?
    ensures r.Ok? ==> r.value == PlayerSnapshot(name.value, uuid.value)
    ensures name.None? ==> r == Err(NullPointer("name"))
  {
    if name.None? then Err(NullPointer("name"))
    else if uuid.None? then Err(NullPointer("uuid"))
    else Ok(PlayerSnapshot(name.value, uuid.value))
  }

  /** A Java list of player references, some of which may be null. */
  type PlayerList = seq<Option<PlayerSnapshot>>

  predicate NoNulls(ps: PlayerList) {
    forall i :: 0 <= i < |ps| ==> ps[i].Some?
  }

  /** The players of a list without nulls. */
  function Values(ps: PlayerList): (vs: seq<PlayerSnapshot>)
    requires NoNulls(ps)
    ensures |vs| == |ps|
    ensures forall i :: 0 <= i < |ps| ==> ps[i] == Some(vs[i])
  {
    seq(|ps|, i requires 0 <= i < |ps| => ps[i].value)
  }

  /** A list of non-null references to the given players. */
  function Refs(vs: seq<PlayerSnapshot>): (ps: PlayerList)
    ensures NoNulls(ps) && Values(ps) == vs
  {
    seq(|vs|, i requires 0 <= i < |vs| => Some(vs[i]))
  }

  /** The record's components. `players` is whatever list the canonical
      constructor was given; only `of` guarantees it has no null element. */
  datatype TelemetrySnapshot = TelemetrySnapshot(
    minecraftVersion: string,
    loader: string,
    players: PlayerList,
    mspt: Option<Double>,
    tps: Option<Double>)

  /** The canonical constructor: version, loader and the list must be
      non-null; the two metrics are not checked. */
  function NewTelemetrySnapshot(minecraftVersion: Option<string>, loader: Option<string>,
                                players: Option<PlayerList>, mspt: Option<Double>, tps: Option<Double>)
    : (r: Result<TelemetrySnapshot, JavaException>)
    ensures r.Ok? <==> minecraftVersion.Some? && loader.Some? && players.Some?
    ensures r.Ok? ==> r.value == TelemetrySnapshot(minecraftVersion.value, loader.value, players.value, mspt, tps)
    ensures minecraftVersion.None? ==> r == Err(NullPointer("minecraftVersion"))
    ensures minecraftVersion.Some? && loader.None? ==> r == Err(NullPointer("loader"))
  {
    if minecraftVersion.None? then Err(NullPointer("minecraftVersion"))
    else if loader.None? then Err(NullPointer("loader"))
    else if players.None? then Err(NullPointer("players"))
    else Ok(TelemetrySnapshot(minecraftVersion.value, loader.value, players.value, mspt, tps))
  }

  /** `TelemetrySnapshot.of`: checks the collection, copies it with
      `List.copyOf` (which refuses null elements) and calls the canonical
      constructor. Sequences are values, so the copy can never see later
      changes to the caller's collection. */
  function Of(minecraftVersion: Option<string>, loader: Option<string>,
              players: Option<PlayerList>, mspt: Option<Double>, tps: Option<Double>)
    : (r: Result<TelemetrySnapshot, JavaException>)
    ensures r.Ok? <==> minecraftVersion.Some? && loader.Some? && players.Some? && NoNulls(players.value)
    ensures r.Ok? ==> r.value.minecraftVersion == minecraftVersion.value && r.value.loader == loader.value
    ensures r.Ok? ==> r.value.mspt == mspt && r.value.tps == tps
    ensures r.Ok? ==> r.value.players == players.value && NoNulls(r.value.players)
    ensures players.None? ==> r == Err(NullPointer("players"))
  {
    if players.None? then Err(NullPointer("players"))
    else if !NoNulls(players.value) then Err(NullPointer("element"))
    else NewTelemetrySnapshot(minecraftVersion, loader, Some(players.value), mspt, tps)
  }
}
