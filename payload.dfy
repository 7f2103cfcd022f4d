/** The payload encoder: the JSON tree `TelemetryPayload.build` fills
    before Gson turns it into text, and a reader that recovers the
    snapshot's fields from that tree. */
module Payload {
  import opened Wrappers
  import opened Java
  import opened Json
  import opened Snapshot

  /** The top-level keys, in insertion order. */
  const PAYLOAD_KEYS: seq<string> := ["mc", "loader", "mspt", "tps", "players"]

  /** The value `addNullableNumber` stores for a metric. */
  function NullableNumber(value: Option<Double>): (j: Json)
    ensures j == JNull <==> value.None? || !IsFinite(value.value)
    ensures value.Some? && IsFinite(value.value) ==> j == JNumber(value.value.r)
  {
    if value.None? || value.value.NaN? || value.value.PosInf? || value.value.NegInf? then JNull
    else JNumber(value.value.r)
  }

  /** `addNullableNumber(root, key, value)`. */
  function AddNullableNumber(root: seq<(string, Json)>, key: string, value: Option<Double>): seq<(string, Json)> {
    Put(root, key, NullableNumber(value))
  }

  /** The `{name, uuid}` object of one player. */
  function PlayerObject(p: PlayerSnapshot): Json {
    JObject([("name", JString(p.name)), ("uuid", JString(p.uuid))])
  }

  /** The `players` array: one object per player, in iteration order. */
  function PlayersArray(ps: seq<PlayerSnapshot>): seq<Json> {
    if ps == [] then [] else PlayersArray(ps[..|ps| - 1]) + [PlayerObject(ps[|ps| - 1])]
  }

  /** The four members added before the players array. */
  function Header(minecraftVersion: string, loader: string, mspt: Option<Double>, tps: Option<Double>)
    : seq<(string, Json)>
  {
    [("mc", JString(minecraftVersion)),
     ("loader", JString(loader)),
     ("mspt", NullableNumber(mspt)),
     ("tps", NullableNumber(tps))]
  }

  /** The tree the five-argument `build` produces for non-null arguments. */
  function Document(minecraftVersion: string, loader: string, players: seq<PlayerSnapshot>,
                    mspt: Option<Double>, tps: Option<Double>): Json
  {
    JObject(Header(minecraftVersion, loader, mspt, tps) + [("players", JArray(PlayersArray(players)))])
  }

  lemma HeaderPuts(minecraftVersion: string, loader: string, mspt: Option<Double>, tps: Option<Double>)
    ensures var r0 := Put([], "mc", JString(minecraftVersion));
            var r1 := Put(r0, "loader", JString(loader));
            var r2 := AddNullableNumber(r1, "mspt", mspt);
            AddNullableNumber(r2, "tps", tps) == Header(minecraftVersion, loader, mspt, tps)
  {
    var r0 := Put([], "mc", JString(minecraftVersion));
    assert r0 == [("mc", JString(minecraftVersion))];
    NotHas(r0, "loader");
    var r1 := Put(r0, "loader", JString(loader));
    NotHas(r1, "mspt");
    var r2 := AddNullableNumber(r1, "mspt", mspt);
    NotHas(r2, "tps");
  }

  lemma PlayerPuts(p: PlayerSnapshot)
    ensures Put(Put([], "name", JString(p.name)), "uuid", JString(p.uuid)) == PlayerObject(p).members
  {
  }

  lemma PlayersPut(header: seq<(string, Json)>, items: seq<Json>)
    requires |header| == 4 && header[0].0 == "mc" && header[1].0 == "loader"
    requires header[2].0 == "mspt" && header[3].0 == "tps"
    ensures Put(header, "players", JArray(items)) == header + [("players", JArray(items))]
  {
    NotHas(header, "players");
  }

  /** The five-argument `build`: null checks, then the object filled key by
      key and the players array appended to in a loop. */
  method Build(minecraftVersion: Option<string>, loader: Option<string>, players: Option<PlayerList>,
               mspt: Option<Double>, tps: Option<Double>)
    returns (r: Result<Json, JavaException>)
    ensures r.Ok? <==> minecraftVersion.Some? && loader.Some? && players.Some? && NoNulls(players.value)
    ensures r.Ok? ==> r.value == Document(minecraftVersion.value, loader.value, Values(players.value), mspt, tps)
    ensures minecraftVersion.None? ==> r == Err(NullPointer("minecraftVersion"))
    ensures minecraftVersion.Some? && loader.None? ==> r == Err(NullPointer("loader"))
    ensures minecraftVersion.Some? && loader.Some? && players.None? ==> r == Err(NullPointer("players"))
  {
    if minecraftVersion.None? { return Err(NullPointer("minecraftVersion")); }
    if loader.None? { return Err(NullPointer("loader")); }
    if players.None? { return Err(NullPointer("players")); }

    var root: seq<(string, Json)> := [];
    root := Put(root, "mc", JString(minecraftVersion.value));
    root := Put(root, "loader", JString(loader.value));
    root := AddNullableNumber(root, "mspt", mspt);
    root := AddNullableNumber(root, "tps", tps);

    HeaderPuts(minecraftVersion.value, loader.value, mspt, tps);
    assert root == Header(minecraftVersion.value, loader.value, mspt, tps);

    var playersArray := AppendPlayers(players.value);
    if playersArray.None? {
      // `player.name()` on a null element
      return Err(NullPointer("player"));
    }
    PlayersPut(root, playersArray.value);
    root := Put(root, "players", JArray(playersArray.value));
    return Ok(JObject(root));
  }

  /** The loop of the five-argument `build` that appends one object per
      player to `playersArray`; `None` when it reaches a null element. */
  method AppendPlayers(ps: PlayerList) returns (r: Option<seq<Json>>)
    ensures r.Some? <==> NoNulls(ps)
    ensures r.Some? ==> r.value == PlayersArray(Values(ps))
  {
    var playersArray: seq<Json> := [];
    ghost var done: seq<PlayerSnapshot> := [];
    var i := 0;
    while i < |ps|
      invariant 0 <= i <= |ps| && |done| == i
      invariant forall k :: 0 <= k < i ==> ps[k] == Some(done[k])
      invariant playersArray == PlayersArray(done)
    {
      if ps[i].None? {
        return None;
      }
      var player := ps[i].value;
      var playerObj: seq<(string, Json)> := [];
      playerObj := Put(playerObj, "name", JString(player.name));
      playerObj := Put(playerObj, "uuid", JString(player.uuid));
      PlayerPuts(player);
      assert (done + [player])[..i] == done;
      playersArray := playersArray + [JObject(playerObj)];
      done := done + [player];
      i := i + 1;
    }
    assert NoNulls(ps) && Values(ps) == done;
    return Some(playersArray);
  }
  /** The three-argument `build`: the five-argument one with both metrics null. */
  method BuildWithoutMetrics(minecraftVersion: Option<string>, loader: Option<string>, players: Option<PlayerList>)
    returns (r: Result<Json, JavaException>)
    ensures r.Ok? <==> minecraftVersion.Some? && loader.Some? && players.Some? && NoNulls(players.value)
    ensures r.Ok? ==> r.value == Document(minecraftVersion.value, loader.value, Values(players.value), None, None)
    ensures minecraftVersion.None? ==> r == Err(NullPointer("minecraftVersion"))
  {
    r := Build(minecraftVersion, loader, players, None, None);
  }

  /** `build(snapshot)`: the five-argument `build` on the record's components. */
  method BuildSnapshot(snapshot: Option<TelemetrySnapshot>) returns (r: Result<Json, JavaException>)
    ensures snapshot.None? ==> r == Err(NullPointer("snapshot"))
    ensures snapshot.Some? ==> (r.Ok? <==> NoNulls(snapshot.value.players))
    ensures snapshot.Some? && r.Ok? ==>
              var s := snapshot.value;
              r.value == Document(s.minecraftVersion, s.loader, Values(s.players), s.mspt, s.tps)
  {
    if snapshot.None? { return Err(NullPointer("snapshot")); }
    var s := snapshot.value;
    r := Build(Some(s.minecraftVersion), Some(s.loader), Some(s.players), s.mspt, s.tps);
  }

  // ---------------------------------------------------------------------
  // Properties of the document
  // ---------------------------------------------------------------------

  lemma {:induction false} PlayersArrayShape(ps: seq<PlayerSnapshot>)
    ensures |PlayersArray(ps)| == |ps|
    ensures forall i :: 0 <= i < |ps| ==> PlayersArray(ps)[i] == PlayerObject(ps[i])
  {
    if ps != [] { PlayersArrayShape(ps[..|ps| - 1]); }
  }

  /** The document has exactly the keys `mc`, `loader`, `mspt`, `tps`,
      `players` in that order; the metric keys are present even when null;
      `players` holds one `{name, uuid}` object per player in order. */
  lemma DocumentShape(minecraftVersion: string, loader: string, players: seq<PlayerSnapshot>,
                      mspt: Option<Double>, tps: Option<Double>)
    ensures var d := Document(minecraftVersion, loader, players, mspt, tps);
            && Keys(d.members) == PAYLOAD_KEYS
            && Lookup(d.members, "mc") == Some(JString(minecraftVersion))
            && Lookup(d.members, "loader") == Some(JString(loader))
            && Lookup(d.members, "mspt") == Some(NullableNumber(mspt))
            && Lookup(d.members, "tps") == Some(NullableNumber(tps))
            && Lookup(d.members, "players").Some? && Lookup(d.members, "players").value.JArray?
            && var items := Lookup(d.members, "players").value.items;
               && |items| == |players|
               && forall i :: 0 <= i < |players| ==>
                    items[i] == JObject([("name", JString(players[i].name)), ("uuid", JString(players[i].uuid))])
  {
    var m := Document(minecraftVersion, loader, players, mspt, tps).members;
    LookupAt(m, "mc", 0);
    LookupAt(m, "loader", 1);
    LookupAt(m, "mspt", 2);
    LookupAt(m, "tps", 3);
    LookupAt(m, "players", 4);
    PlayersArrayShape(players);
  }

  /** The test expectations: with no metrics both keys hold JSON null; 50.0
      and 20.0 are stored as those numbers; NaN and infinity become null;
      an empty roster gives an empty array. */
  lemma DocumentExamples()
    ensures Document("1.20.1", "forge", [], None, None).members[2..4] == [("mspt", JNull), ("tps", JNull)]
    ensures Document("1.20.1", "forge", [], Some(Finite(50.0)), Some(Finite(20.0))).members[2..4]
              == [("mspt", JNumber(50.0)), ("tps", JNumber(20.0))]
    ensures Document("1.20.1", "forge", [], Some(NaN), Some(PosInf)).members[2..4] == [("mspt", JNull), ("tps", JNull)]
    ensures Document("1.20.1", "forge", [], None, None).members[4] == ("players", JArray([]))
  {
  }

  // ---------------------------------------------------------------------
  // Reading the document back
  // ---------------------------------------------------------------------

  /** What a client reads back from a payload. */
  datatype Decoded = Decoded(mc: string, loader: string, mspt: Option<real>, tps: Option<real>,
                             players: seq<PlayerSnapshot>)

  function DecodeString(j: Option<Json>): Option<string> {
    if j.Some? && j.value.JString? then Some(j.value.str) else None
  }

  /** A metric: `Some(None)` for JSON null, `Some(Some(x))` for a number. */
  function DecodeMetric(j: Option<Json>): Option<Option<real>> {
    if j == Some(JNull) then Some(None)
    else if j.Some? && j.value.JNumber? then Some(Some(j.value.num))
    else None
  }

  function DecodePlayer(j: Json): Option<PlayerSnapshot> {
    if !j.JObject? then None
    else
      var name := DecodeString(Lookup(j.members, "name"));
      var uuid := DecodeString(Lookup(j.members, "uuid"));
      if name.Some? && uuid.Some? then Some(PlayerSnapshot(name.value, uuid.value)) else None
  }

  function DecodePlayers(items: seq<Json>): Option<seq<PlayerSnapshot>> {
    if items == [] then Some([])
    else
      var init := DecodePlayers(items[..|items| - 1]);
      var last := DecodePlayer(items[|items| - 1]);
      if init.Some? && last.Some? then Some(init.value + [last.value]) else None
  }

  function Decode(j: Json): Option<Decoded> {
    if !j.JObject? then None
    else
      var mc := DecodeString(Lookup(j.members, "mc"));
      var loader := DecodeString(Lookup(j.members, "loader"));
      var mspt := DecodeMetric(Lookup(j.members, "mspt"));
      var tps := DecodeMetric(Lookup(j.members, "tps"));
      var players := Lookup(j.members, "players");
      if mc.None? || loader.None? || mspt.None? || tps.None? || players.None? || !players.value.JArray? then None
      else
        var ps := DecodePlayers(players.value.items);
        if ps.None? then None
        else Some(Decoded(mc.value, loader.value, mspt.value, tps.value, ps.value))
  }

  /** A metric as it survives encoding: finite values, nothing else. */
  function FiniteValue(d: Option<Double>): Option<real> {
    if d.Some? && d.value.Finite? then Some(d.value.r) else None
  }

  lemma DecodePlayerObject(p: PlayerSnapshot)
    ensures DecodePlayer(PlayerObject(p)) == Some(p)
  {
    LookupAt(PlayerObject(p).members, "name", 0);
    LookupAt(PlayerObject(p).members, "uuid", 1);
  }

  lemma {:induction false} DecodePlayersArray(ps: seq<PlayerSnapshot>)
    ensures DecodePlayers(PlayersArray(ps)) == Some(ps)
  {
    if ps != [] {
      var init, last := ps[..|ps| - 1], ps[|ps| - 1];
      DecodePlayersArray(init);
      DecodePlayerObject(last);
      var items := PlayersArray(ps);
      assert items == PlayersArray(init) + [PlayerObject(last)];
      assert items[..|items| - 1] == PlayersArray(init) && items[|items| - 1] == PlayerObject(last);
      assert init + [last] == ps;
    }
  }

  /** Round trip: every field of a snapshot comes back exactly, except that a
      null or non-finite metric comes back as null. */
  lemma DecodeDocument(minecraftVersion: string, loader: string, players: seq<PlayerSnapshot>,
                       mspt: Option<Double>, tps: Option<Double>)
    ensures Decode(Document(minecraftVersion, loader, players, mspt, tps))
            == Some(Decoded(minecraftVersion, loader, FiniteValue(mspt), FiniteValue(tps), players))
  {
    var d := Document(minecraftVersion, loader, players, mspt, tps);
    var m := d.members;
    LookupAt(m, "mc", 0);
    LookupAt(m, "loader", 1);
    LookupAt(m, "mspt", 2);
    LookupAt(m, "tps", 3);
    LookupAt(m, "players", 4);
    assert DecodeString(Lookup(m, "mc")) == Some(minecraftVersion);
    assert DecodeString(Lookup(m, "loader")) == Some(loader);
    assert DecodeMetric(Lookup(m, "mspt")) == Some(FiniteValue(mspt));
    assert DecodeMetric(Lookup(m, "tps")) == Some(FiniteValue(tps));
    DecodePlayersArray(players);
  }
}
