/** What the telemetry code sees of the running game server, and the
    conversions the loader code performs on it: a player's profile becomes
    a `PlayerSnapshot`, a reported average tick time is filtered, and the
    hooks map the whole roster through the conversion. */
module Host {
  import opened Wrappers
  import opened Java
  import opened Snapshot

  /** A player's `GameProfile` as read by the conversion: `getName()` and
      the `toString()` text of `getId()`; each read may throw or give null. */
  datatype GameProfile = GameProfile(name: Fallible<Option<string>>, id: Fallible<Option<string>>)

  /** A `ServerPlayer`; `getGameProfile()` itself may throw. */
  datatype ServerPlayer = ServerPlayer(profile: Fallible<GameProfile>)

  /** `player.getGameProfile().getName()`. */
  function ReadName(player: ServerPlayer): Fallible<Option<string>> {
    if player.profile.Throws? then Throws else player.profile.value.name
  }

  /** `player.getGameProfile().getId()`, as its `toString()` text. */
  function ReadId(player: ServerPlayer): Fallible<Option<string>> {
    if player.profile.Throws? then Throws else player.profile.value.id
  }

  /** The name the conversion ends up with when the name can be read as a
      string, and `"unknown"` when reading it throws. */
  function NameOrUnknown(player: ServerPlayer): string
    requires ReadName(player) != Returns(None)
  {
    if ReadName(player).Throws? then "unknown" else ReadName(player).value.value
  }

  /** The id text without dashes, or `""` when the id is null or unreadable. */
  function UuidOrEmpty(player: ServerPlayer): string {
    if ReadId(player).Returns? && ReadId(player).value.Some? then RemoveDashes(ReadId(player).value.value) else ""
  }

  /** `toSnapshot` (forge collector) and `snapshotForPlayer` (both hooks):
      a first attempt that needs a readable name and a non-null id, then a
      fallback that reads each part on its own, and the `PlayerSnapshot`
      constructor, which still refuses a null name. */
  function SnapshotForPlayer(player: ServerPlayer): (r: Result<PlayerSnapshot, JavaException>)
    ensures r.Ok? ==> '-' !in r.value.uuid
    ensures r.Err? <==> ReadName(player) == Returns(None)
    ensures r.Err? ==> r == Err(NullPointer("name"))
  {
    var name := ReadName(player);
    var id := ReadId(player);
    if name.Returns? && name.value.Some? && id.Returns? && id.value.Some? then
      Ok(PlayerSnapshot(name.value.value, RemoveDashes(id.value.value)))
    else
      var fallbackName := if name.Returns? then name.value else Some("unknown");
      var fallbackUuid := if id.Returns? && id.value.Some? then RemoveDashes(id.value.value) else "";
      NewPlayerSnapshot(fallbackName, Some(fallbackUuid))
  }

  /** The conversion in closed form: the first attempt and the fallback
      agree, so the result is the readable name (or `"unknown"`) and the
      dash-free id (or `""`). */
  lemma SnapshotForPlayerClosedForm(player: ServerPlayer)
    requires ReadName(player) != Returns(None)
    ensures SnapshotForPlayer(player) == Ok(PlayerSnapshot(NameOrUnknown(player), UuidOrEmpty(player)))
  {
  }

  /** A player whose profile reads normally keeps the name and loses every
      dash of the id: the 36-character UUID text becomes 32 characters. */
  lemma SnapshotOfReadableProfile(name: string, id: string)
    ensures SnapshotForPlayer(ServerPlayer(Returns(GameProfile(Returns(Some(name)), Returns(Some(id)))))) ==
            Ok(PlayerSnapshot(name, RemoveDashes(id)))
    ensures |RemoveDashes(id)| == |id| - Dashes(id)
  {
    RemoveDashesLength(id);
  }

  /** The average-tick-time filter of both hooks: NaN or a value at most
      zero is absent, anything else (including +Infinity) is passed on. */
  function PlausibleAverage(averageMspt: Double): (r: OptionalDouble)
    ensures r.Present? <==> (averageMspt.Finite? && averageMspt.r > 0.0) || averageMspt.PosInf?
    ensures r.Present? ==> r.value == averageMspt
  {
    if averageMspt.NaN? || AtMostZero(averageMspt) then Empty else Present(averageMspt)
  }

  /** The hooks' `stream().map(snapshotForPlayer).collect(toList())`: every
      player converted in order, or the first conversion failure. */
  function MapSnapshots(players: seq<ServerPlayer>): (r: Result<seq<PlayerSnapshot>, JavaException>)
    ensures r.Ok? <==> forall i :: 0 <= i < |players| ==> SnapshotForPlayer(players[i]).Ok?
    ensures r.Ok? ==> |r.value| == |players|
    ensures r.Ok? ==> forall i :: 0 <= i < |players| ==> SnapshotForPlayer(players[i]) == Ok(r.value[i])
  {
    if players == [] then Ok([])
    else
      var first := SnapshotForPlayer(players[0]);
      var rest := MapSnapshots(players[1..]);
      if first.Err? then Err(first.error)
      else if rest.Err? then
        assert exists i :: 0 <= i < |players| - 1 && SnapshotForPlayer(players[1..][i]).Err?;
        Err(rest.error)
      else
        assert forall i :: 1 <= i < |players| ==> players[i] == players[1..][i - 1];
        Ok([first.value] + rest.value)
  }

  /** The hooks' `onlinePlayers()`: the mapped roster, or an empty list when
      reading the roster throws, the roster is null, or any conversion
      fails. */
  function OnlineSnapshots(roster: Fallible<Option<seq<ServerPlayer>>>): (r: seq<PlayerSnapshot>)
    ensures r != [] ==> roster.Returns? && roster.value.Some? && |r| == |roster.value.value|
    ensures roster.Returns? && roster.value.Some? && MapSnapshots(roster.value.value).Ok? ==>
              r == MapSnapshots(roster.value.value).value
    ensures roster.Returns? && roster.value.Some? && MapSnapshots(roster.value.value).Err? ==> r == []
  {
    if roster.Throws? || roster.value.None? then []
    else
      var mapped := MapSnapshots(roster.value.value);
      if mapped.Err? then [] else mapped.value
  }
}
