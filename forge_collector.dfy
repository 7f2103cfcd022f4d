/** The Forge collector: it reads the server's tick-time samples and the
    roster directly, averages the positive samples, and converts players
    one at a time, skipping the ones whose conversion throws. */
module ForgeCollector {
  import opened Wrappers
  import opened Java
  import opened Snapshot
  import opened Metrics
  import opened Host

  /** `MCTelemetryForge.LOADER`. */
  const LOADER: string := "forge"

  /** `nanosToMillis`. */
  function NanosToMillis(nanos: Long): real {
    nanos as int as real / 1000000.0
  }

  /** The number of strictly positive samples. */
  function PositiveCount(samples: seq<Long>): nat {
    if samples == [] then 0
    else PositiveCount(samples[..|samples| - 1]) + (if samples[|samples| - 1] > 0 then 1 else 0)
  }

  /** The sum, in milliseconds, of the strictly positive samples. */
  function PositiveMillis(samples: seq<Long>): real {
    if samples == [] then 0.0
    else
      var last := samples[|samples| - 1];
      PositiveMillis(samples[..|samples| - 1]) + (if last > 0 then NanosToMillis(last) else 0.0)
  }

  /** The mean of the positive samples in milliseconds, or empty when there
      is none. */
  function MeanPositiveMillis(samples: seq<Long>): OptionalDouble {
    if PositiveCount(samples) == 0 then Empty
    else Present(Finite(PositiveMillis(samples) / PositiveCount(samples) as real))
  }

  /** `averageTickTimeMs` over the samples `readTickTimes` returned. */
  method AverageTickTimeMs(tickTimes: array<Long>) returns (average: OptionalDouble)
    ensures average == MeanPositiveMillis(tickTimes[..])
  {
    if tickTimes.Length == 0 {
      return Empty;
    }
    var totalMs := 0.0;
    var samples := 0;
    var i := 0;
    while i < tickTimes.Length
      invariant 0 <= i <= tickTimes.Length
      invariant totalMs == PositiveMillis(tickTimes[..i])
      invariant samples == PositiveCount(tickTimes[..i])
    {
      assert tickTimes[..i + 1][..i] == tickTimes[..i];
      var time := tickTimes[i];
      if time > 0 {
        totalMs := totalMs + NanosToMillis(time);
        samples := samples + 1;
      }
      i := i + 1;
    }
    assert tickTimes[..i] == tickTimes[..];
    if samples == 0 {
      return Empty;
    }
    return Present(Finite(totalMs / samples as real));
  }

  /** There is an average exactly when some sample is positive. */
  lemma {:induction false} PositiveCountZero(samples: seq<Long>)
    ensures PositiveCount(samples) == 0 <==> forall i :: 0 <= i < |samples| ==> samples[i] <= 0
  {
    if samples != [] {
      var init := samples[..|samples| - 1];
      PositiveCountZero(init);
      assert forall i :: 0 <= i < |init| ==> init[i] == samples[i];
    }
  }

  /** Every positive sample lies within `[lo, hi]` milliseconds. */
  predicate SamplesWithin(samples: seq<Long>, lo: real, hi: real) {
    forall i :: 0 <= i < |samples| && samples[i] > 0 ==> lo <= NanosToMillis(samples[i]) <= hi
  }

  /** `count` copies of `x` added up, which is `count * x` without the
      multiplication. */
  function Repeated(count: nat, x: real): real {
    if count == 0 then 0.0 else Repeated(count - 1, x) + x
  }

  lemma {:induction false} RepeatedIsProduct(count: nat, x: real)
    ensures Repeated(count, x) == count as real * x
  {
    if count > 0 {
      RepeatedIsProduct(count - 1, x);
      assert (count - 1) as real * x + x == count as real * x;
    }
  }

  /** When every positive sample lies within `[lo, hi]` milliseconds, their
      sum lies between `count` copies of `lo` and `count` copies of `hi`. */
  lemma {:induction false} PositiveMillisBounds(samples: seq<Long>, lo: real, hi: real)
    requires SamplesWithin(samples, lo, hi)
    ensures Repeated(PositiveCount(samples), lo) <= PositiveMillis(samples) <= Repeated(PositiveCount(samples), hi)
  {
    if samples != [] {
      var init := samples[..|samples| - 1];
      assert SamplesWithin(init, lo, hi) by {
        forall i | 0 <= i < |init| && init[i] > 0
          ensures lo <= NanosToMillis(init[i]) <= hi
        {
          assert init[i] == samples[i];
        }
      }
      PositiveMillisBounds(init, lo, hi);
    }
  }

  lemma MeanBounds(count: real, sum: real, lo: real, hi: real)
    requires count > 0.0
    requires count * lo <= sum <= count * hi
    ensures lo <= sum / count <= hi
  {
  }

  /** The average is a true mean: it lies between the smallest and the
      largest positive sample, so it is positive itself. */
  lemma MeanWithinSamples(samples: seq<Long>, lo: real, hi: real)
    requires SamplesWithin(samples, lo, hi)
    requires MeanPositiveMillis(samples).Present?
    ensures lo <= MeanPositiveMillis(samples).value.r <= hi
  {
    PositiveMillisBounds(samples, lo, hi);
    RepeatedIsProduct(PositiveCount(samples), lo);
    RepeatedIsProduct(PositiveCount(samples), hi);
    MeanBounds(PositiveCount(samples) as real, PositiveMillis(samples), lo, hi);
  }

  /** Every positive sample gives a positive contribution, so a present
      average is positive. */
  lemma MeanIsPositive(samples: seq<Long>)
    requires MeanPositiveMillis(samples).Present?
    ensures MeanPositiveMillis(samples).value.r > 0.0
  {
    MeanWithinSamples(samples, 0.000001, LONG_MAX as real / 1000000.0);
  }

  /** `readTickMetrics`: no average gives both metrics null. */
  function ReadTickMetrics(samples: seq<Long>): (m: TickMetrics)
    ensures m.mspt.None? <==> forall i :: 0 <= i < |samples| ==> samples[i] <= 0
    ensures m.mspt.None? <==> m.tps.None?
    ensures m.mspt.Some? ==> MeanPositiveMillis(samples).Present? &&
                             m.mspt.value == Finite(RoundToTenth(MeanPositiveMillis(samples).value))
    ensures m.tps.Some? ==> m.tps.value.Finite? && 0.0 <= m.tps.value.r <= MAX_TPS
    ensures m.tps.Some? ==> m.tps.value.r == TpsFor(m.mspt.value.r)
  {
    PositiveCountZero(samples);
    MetricsFor(MeanPositiveMillis(samples))
  }

  /** The successful conversions of `players`, in roster order. */
  function Converted(players: seq<ServerPlayer>): (r: seq<PlayerSnapshot>)
    ensures |r| <= |players|
  {
    if players == [] then []
    else
      var init := Converted(players[..|players| - 1]);
      var last := SnapshotForPlayer(players[|players| - 1]);
      if last.Ok? then init + [last.value] else init
  }

  /** What `collectPlayerSnapshots` yields for a roster query: an empty
      list when it throws, a `NullPointerException` when it returns null,
      and the successful conversions otherwise. */
  function RosterSnapshots(roster: Fallible<Option<seq<ServerPlayer>>>): Result<seq<PlayerSnapshot>, JavaException> {
    if roster.Throws? then Ok([])
    else if roster.value.None? then Err(NullPointer("onlinePlayers"))
    else Ok(Converted(roster.value.value))
  }

  /** `collectPlayerSnapshots`. */
  method CollectPlayerSnapshots(roster: Fallible<Option<seq<ServerPlayer>>>) returns (r: Result<seq<PlayerSnapshot>, JavaException>)
    ensures r == RosterSnapshots(roster)
  {
    var players: seq<PlayerSnapshot> := [];
    var onlinePlayers: seq<ServerPlayer> := [];
    if roster.Returns? {
      if roster.value.None? {
        return Err(NullPointer("onlinePlayers"));
      }
      onlinePlayers := roster.value.value;
    }
    if onlinePlayers == [] {
      return Ok(players);
    }
    var i := 0;
    while i < |onlinePlayers|
      invariant 0 <= i <= |onlinePlayers|
      invariant players == Converted(onlinePlayers[..i])
    {
      assert onlinePlayers[..i + 1][..i] == onlinePlayers[..i];
      var snapshot := SnapshotForPlayer(onlinePlayers[i]);
      if snapshot.Ok? {
        players := players + [snapshot.value];
      }
      i := i + 1;
    }
    assert onlinePlayers[..i] == onlinePlayers;
    return Ok(players);
  }

  /** Only the players whose name reads as null are dropped; when there is
      none, every player is converted in order, exactly as the hooks do. */
  lemma {:induction false} ConvertedAll(players: seq<ServerPlayer>)
    requires forall i :: 0 <= i < |players| ==> SnapshotForPlayer(players[i]).Ok?
    ensures MapSnapshots(players).Ok? && Converted(players) == MapSnapshots(players).value
  {
    if players != [] {
      var init := players[..|players| - 1];
      assert forall i :: 0 <= i < |init| ==> init[i] == players[i];
      ConvertedAll(init);
      var whole := MapSnapshots(players).value;
      assert |whole| == |players|;
      assert whole == MapSnapshots(init).value + [SnapshotForPlayer(players[|players| - 1]).value];
    }
  }

  /** Every kept snapshot is the conversion of some player of the roster. */
  lemma {:induction false} ConvertedFromRoster(players: seq<ServerPlayer>)
    ensures forall k :: 0 <= k < |Converted(players)| ==>
              exists i :: 0 <= i < |players| && SnapshotForPlayer(players[i]) == Ok(Converted(players)[k])
  {
    if players != [] {
      var init := players[..|players| - 1];
      ConvertedFromRoster(init);
      forall k | 0 <= k < |Converted(players)|
        ensures exists i :: 0 <= i < |players| && SnapshotForPlayer(players[i]) == Ok(Converted(players)[k])
      {
        var last := SnapshotForPlayer(players[|players| - 1]);
        if k < |Converted(init)| {
          var i :| 0 <= i < |init| && SnapshotForPlayer(init[i]) == Ok(Converted(init)[k]);
          assert init[i] == players[i];
          assert Converted(players)[k] == Converted(init)[k];
        } else {
          assert last.Ok? && Converted(players) == Converted(init) + [last.value];
          assert SnapshotForPlayer(players[|players| - 1]) == Ok(Converted(players)[k]);
        }
      }
    } else {
      assert |Converted(players)| == 0;
    }
  }

  /** Converting a roster in two parts converts each part and joins the
      results, so the collector drops players without reordering them. */
  lemma {:induction false} ConvertedConcat(front: seq<ServerPlayer>, back: seq<ServerPlayer>)
    ensures Converted(front + back) == Converted(front) + Converted(back)
    decreases |back|
  {
    if back == [] {
      assert front + back == front;
    } else {
      var whole := front + back;
      var init := back[..|back| - 1];
      assert whole[..|whole| - 1] == front + init;
      assert whole[|whole| - 1] == back[|back| - 1];
      ConvertedConcat(front, init);
    }
  }

  /** Every player whose conversion succeeds is kept, at its place in the
      roster: after what the players before it give, before what the
      players after it give. */
  lemma {:induction false} ConvertedKeepsConvertible(players: seq<ServerPlayer>, i: int)
    requires 0 <= i < |players| && SnapshotForPlayer(players[i]).Ok?
    ensures Converted(players) ==
            Converted(players[..i]) + [SnapshotForPlayer(players[i]).value] + Converted(players[i + 1..])
  {
    var before, player, after := players[..i], players[i], players[i + 1..];
    assert players == (before + [player]) + after;
    ConvertedConcat(before + [player], after);
    ConvertedConcat(before, [player]);
    ConvertedSingle(player);
  }

  /** A roster of one keeps its player exactly when the conversion succeeds. */
  lemma ConvertedSingle(player: ServerPlayer)
    ensures Converted([player]) ==
            (if SnapshotForPlayer(player).Ok? then [SnapshotForPlayer(player).value] else [])
  {
    assert [player][..0] == [];
  }

  /** `collect`: the roster first (a null roster escapes as an exception),
      then the metrics, then `TelemetrySnapshot.of` with the loader id
      `"forge"`. */
  method Collect(roster: Fallible<Option<seq<ServerPlayer>>>, tickTimes: array<Long>, mcVersion: Option<string>)
    returns (r: Result<TelemetrySnapshot, JavaException>)
    ensures roster == Returns(None) ==> r == Err(NullPointer("onlinePlayers"))
    ensures r.Ok? <==> roster != Returns(None) && mcVersion.Some?
    ensures r.Ok? ==> r.value.minecraftVersion == mcVersion.value && r.value.loader == LOADER
    ensures r.Ok? ==> r.value.players == Refs(RosterSnapshots(roster).value)
    ensures r.Ok? ==> r.value.mspt == ReadTickMetrics(tickTimes[..]).mspt && r.value.tps == ReadTickMetrics(tickTimes[..]).tps
  {
    var players := CollectPlayerSnapshots(roster);
    if players.Err? {
      return Err(players.error);
    }
    var average := AverageTickTimeMs(tickTimes);
    var metrics := MetricsFor(average);
    return Of(mcVersion, Some(LOADER), Some(Refs(players.value)), metrics.mspt, metrics.tps);
  }

  /** A roster with one readable player and one whose name reads as null:
      the collector keeps the readable one, while the hooks' mapping of the
      same roster fails as a whole. */
  lemma OneUnreadablePlayer()
    ensures var good := ServerPlayer(Returns(GameProfile(Returns(Some("Ari")), Returns(Some("ab-cd")))));
            var bad := ServerPlayer(Returns(GameProfile(Returns(None), Returns(Some("ef-01")))));
            Converted([good, bad]) == [PlayerSnapshot("Ari", "abcd")] &&
            OnlineSnapshots(Returns(Some([good, bad]))) == []
  {
    var good := ServerPlayer(Returns(GameProfile(Returns(Some("Ari")), Returns(Some("ab-cd")))));
    var bad := ServerPlayer(Returns(GameProfile(Returns(None), Returns(Some("ef-01")))));
    assert [good, bad][..1] == [good];
    assert [good][..0] == [];
    assert RemoveDashes("ab-cd") == "abcd";
    assert SnapshotForPlayer(bad).Err?;
  }
}
