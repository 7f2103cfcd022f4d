/** The tick metrics both collectors derive from an average tick time:
    `mspt` rounded half-up to a tenth, and `tps` derived from it and
    capped at 20. */
module Metrics {
  import opened Wrappers
  import opened Java

  /** The tick rate the game aims for, and the cap on `tps`. */
  const MAX_TPS: real := 20.0

  /** `TickMetrics(mspt, tps)`, two nullable doubles. */
  datatype TickMetrics = TickMetrics(mspt: Option<Double>, tps: Option<Double>)

  /** `TickMetrics.empty()`. */
  const NO_METRICS: TickMetrics := TickMetrics(None, None)

  function Min(a: real, b: real): real {
    if a <= b then a else b
  }

  /** `roundToTenth(value)`, that is `Math.round(value * 10.0) / 10.0`. */
  function RoundToTenth(value: Double): real {
    Round(Scale(value, 10.0)) as real / 10.0
  }

  /** The arithmetic behind `RoundToTenthNearest`, with no function in
      sight. */
  lemma TenthOfNearest(x: real, n: int)
    requires x * 10.0 - 0.5 < n as real <= x * 10.0 + 0.5
    ensures x - 0.05 < n as real / 10.0 <= x + 0.05
    ensures (n as real / 10.0 * 10.0).Floor as real == n as real / 10.0 * 10.0
  {
    assert n as real / 10.0 * 10.0 == n as real;
  }

  /** Within the `long` range, rounding moves a value by at most a
      twentieth, ties going up, onto a multiple of a tenth. */
  lemma RoundToTenthNearest(x: real)
    requires LONG_MIN as real <= x * 10.0 + 0.5 < LONG_MAX as real + 1.0
    ensures x - 0.05 < RoundToTenth(Finite(x)) <= x + 0.05
    ensures (RoundToTenth(Finite(x)) * 10.0).Floor as real == RoundToTenth(Finite(x)) * 10.0
  {
    assert Scale(Finite(x), 10.0) == Finite(x * 10.0);
    var n := Round(Finite(x * 10.0));
    assert RoundToTenth(Finite(x)) == n as real / 10.0;
    TenthOfNearest(x, n);
  }

  /** A value that is already a multiple of a tenth is left alone, so
      rounding twice is rounding once. */
  lemma RoundToTenthIdempotent(x: real)
    requires LONG_MIN as real <= x * 10.0 + 0.5 < LONG_MAX as real + 1.0
    ensures RoundToTenth(Finite(RoundToTenth(Finite(x)))) == RoundToTenth(Finite(x))
  {
    var n := Round(Finite(x * 10.0));
    var r := n as real / 10.0;
    assert RoundToTenth(Finite(x)) == r;
    assert r * 10.0 == n as real;
    assert (n as real + 0.5).Floor == n;
  }

  /** A non-negative value never rounds to a negative one. */
  lemma RoundToTenthNonNegative(d: Double)
    requires d.PosInf? || (d.Finite? && d.r >= 0.0)
    ensures RoundToTenth(d) >= 0.0
  {
    if d.Finite? && d.r * 10.0 + 0.5 >= LONG_MAX as real + 1.0 {
      assert Round(Scale(d, 10.0)) == LONG_MAX;
    }
  }

  /** The `tps` the collectors derive from a rounded `mspt`. */
  function TpsFor(mspt: real): (tps: real)
    ensures 0.0 <= tps <= MAX_TPS
    ensures mspt <= 0.0 ==> tps == MAX_TPS
    ensures 0.0 < mspt <= 50.0 ==> tps == MAX_TPS
    ensures mspt > 0.0 ==> Min(MAX_TPS, 1000.0 / mspt) - 0.05 < tps <= Min(MAX_TPS, 1000.0 / mspt) + 0.05
  {
    if mspt > 0.0 then
      var y := Min(MAX_TPS, 1000.0 / mspt);
      assert 0.0 < y <= MAX_TPS;
      assert mspt <= 50.0 ==> y == MAX_TPS by {
        if mspt <= 50.0 { assert 1000.0 / mspt * mspt == 1000.0; }
      }
      RoundToTenthNearest(y);
      var n := Round(Finite(y * 10.0));
      assert 0 <= n <= 200;
      assert mspt <= 50.0 ==> n == 200;
      RoundToTenth(Finite(y))
    else MAX_TPS
  }

  /** The metrics of a present average (`readTickMetrics`, after the
      average has been found present). */
  function FromAverage(average: Double): (m: TickMetrics)
    ensures m.mspt.Some? && m.tps.Some? && m.mspt.value.Finite? && m.tps.value.Finite?
    ensures m.mspt.value.r == RoundToTenth(average)
    ensures m.tps.value.r == TpsFor(m.mspt.value.r)
  {
    var mspt := RoundToTenth(average);
    TickMetrics(Some(Finite(mspt)), Some(Finite(TpsFor(mspt))))
  }

  /** `readTickMetrics` from an `OptionalDouble`: absent gives both metrics
      null, present gives both. */
  function MetricsFor(average: OptionalDouble): (m: TickMetrics)
    ensures m.mspt.None? <==> average.Empty?
    ensures m.tps.None? <==> average.Empty?
    ensures average.Present? ==> m == FromAverage(average.value)
  {
    if average.Empty? then NO_METRICS else FromAverage(average.value)
  }

  /** Rounding `x` to a tenth when `n` is the nearest integer to `10 x`. */
  lemma RoundToTenthAt(x: real, n: int)
    requires LONG_MIN <= n <= LONG_MAX
    requires x * 10.0 - 0.5 < n as real <= x * 10.0 + 0.5
    ensures RoundToTenth(Finite(x)) == n as real / 10.0
  {
    assert Scale(Finite(x), 10.0) == Finite(x * 10.0);
    assert (x * 10.0 + 0.5).Floor == n;
  }

  /** Worked values: 25 ms gives 25.0/20.0 and 100 ms gives 100.0/10.0. */
  lemma MetricsExamples()
    ensures FromAverage(Finite(25.0)) == TickMetrics(Some(Finite(25.0)), Some(Finite(20.0)))
    ensures FromAverage(Finite(100.0)) == TickMetrics(Some(Finite(100.0)), Some(Finite(10.0)))
  {
    RoundToTenthAt(25.0, 250);
    RoundToTenthAt(100.0, 1000);
    assert Min(MAX_TPS, 1000.0 / 100.0) == 10.0;
    RoundToTenthAt(10.0, 100);
  }

  /** An average of zero reports 20.0 without dividing. */
  lemma IdleServerMetrics()
    ensures FromAverage(Finite(0.0)) == TickMetrics(Some(Finite(0.0)), Some(Finite(20.0)))
  {
    RoundToTenthAt(0.0, 0);
  }

  /** 66.66 ms is reported as 66.7 ms, and 1000/66.7 = 14.99... as 15.0 tps. */
  lemma SlowServerMetrics()
    ensures FromAverage(Finite(66.66)) == TickMetrics(Some(Finite(66.7)), Some(Finite(15.0)))
  {
    RoundToTenthAt(66.66, 667);
    var y := 1000.0 / 66.7;
    assert Min(MAX_TPS, y) == y;
    RoundToTenthAt(y, 150);
  }
}
