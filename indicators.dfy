/** The market indicators: dollar index, ten-year yield and volatility index, each mapped into [-1, 1]. */
module Indicators {
  import opened Common

  /** A fetched close-price history, oldest first; None when the fetch raised. */
  type History = Option<seq<real>>

  /** `hist['Close'].iloc[-1]` */
  function Last(closes: seq<real>): real
    requires closes != []
  {
    closes[|closes| - 1]
  }

  /** Percent change from `weekAgo` to `current`. */
  function PercentChange(weekAgo: real, current: real): (pct: real)
    requires weekAgo != 0.0
    ensures pct * weekAgo == (current - weekAgo) * 100.0
  {
    ((current - weekAgo) / weekAgo) * 100.0
  }

  /**
   * `get_dxy_signal`: minus the percent change over the history, scaled so that a 3% move is
   * full scale, and clamped. No history, fewer than two closes, or a zero first close (the
   * division raises and the handler returns 0.0) give 0.0.
   */
  function DollarSignal(hist: History): (r: real)
    ensures -1.0 <= r <= 1.0
    ensures hist.None? || |hist.value| < 2 ==> r == 0.0
    ensures hist.Some? && |hist.value| >= 2 && hist.value[0] == 0.0 ==> r == 0.0
  {
    match hist
    case None => 0.0
    case Some(closes) =>
      if |closes| < 2 then 0.0
      else
        var current, weekAgo := Last(closes), closes[0];
        if weekAgo == 0.0 then 0.0 else Clamp(-PercentChange(weekAgo, current) / 3.0)
  }

  /** Within a 3% move the dollar signal is linear in the change; beyond it, saturated. */
  lemma DollarSignalBands(closes: seq<real>)
    requires |closes| >= 2 && closes[0] != 0.0
    ensures -3.0 <= PercentChange(closes[0], Last(closes)) <= 3.0 ==>
      DollarSignal(Some(closes)) == -PercentChange(closes[0], Last(closes)) / 3.0
    ensures PercentChange(closes[0], Last(closes)) >= 3.0 ==> DollarSignal(Some(closes)) == -1.0
    ensures PercentChange(closes[0], Last(closes)) <= -3.0 ==> DollarSignal(Some(closes)) == 1.0
  {
  }

  /** A falling (positive) dollar index gives a non-negative signal, a rising one a non-positive signal. */
  lemma DollarSignalDirection(closes: seq<real>)
    requires |closes| >= 2 && closes[0] > 0.0
    ensures Last(closes) <= closes[0] ==> DollarSignal(Some(closes)) >= 0.0
    ensures Last(closes) >= closes[0] ==> DollarSignal(Some(closes)) <= 0.0
  {
    var pct := PercentChange(closes[0], Last(closes));
    assert pct * closes[0] == (Last(closes) - closes[0]) * 100.0;
  }

  /**
   * `get_yield_signal`: minus 0.4 times the absolute change over the history, clamped. No
   * history or fewer than two closes give 0.0; a falling yield never gives a negative signal.
   */
  function YieldSignal(hist: History): (r: real)
    ensures -1.0 <= r <= 1.0
    ensures hist.None? || |hist.value| < 2 ==> r == 0.0
    ensures hist.Some? && |hist.value| >= 2 ==>
      (Last(hist.value) <= hist.value[0] ==> r >= 0.0) && (Last(hist.value) >= hist.value[0] ==> r <= 0.0)
  {
    match hist
    case None => 0.0
    case Some(closes) =>
      if |closes| < 2 then 0.0
      else
        var current, weekAgo := Last(closes), closes[0];
        var change := current - weekAgo;
        Clamp(-change * 0.4)
  }

  /** Within a 2.5-point move the yield signal is linear in the change; beyond it, saturated. */
  lemma YieldSignalBands(closes: seq<real>)
    requires |closes| >= 2
    ensures -2.5 <= Last(closes) - closes[0] <= 2.5 ==>
      YieldSignal(Some(closes)) == -0.4 * (Last(closes) - closes[0])
    ensures Last(closes) - closes[0] >= 2.5 ==> YieldSignal(Some(closes)) == -1.0
    ensures Last(closes) - closes[0] <= -2.5 ==> YieldSignal(Some(closes)) == 1.0
  {
  }

  /** The volatility step function on the latest close: strict comparisons, first match wins. */
  function VixLevel(current: real): (r: real)
    ensures r in {0.8, 0.5, 0.3, -0.3, -0.1, 0.0}
  {
    if current > 30.0 then 0.8
    else if current > 25.0 then 0.5
    else if current > 20.0 then 0.3
    else if current < 12.0 then -0.3
    else if current < 15.0 then -0.1
    else 0.0
  }

  /** The step function as a table of disjoint intervals, each direction of each row. */
  lemma VixTable(v: real)
    ensures VixLevel(v) == 0.8 <==> v > 30.0
    ensures VixLevel(v) == 0.5 <==> 25.0 < v <= 30.0
    ensures VixLevel(v) == 0.3 <==> 20.0 < v <= 25.0
    ensures VixLevel(v) == 0.0 <==> 15.0 <= v <= 20.0
    ensures VixLevel(v) == -0.1 <==> 12.0 <= v < 15.0
    ensures VixLevel(v) == -0.3 <==> v < 12.0
  {
  }

  /** More fear never means a lower signal. */
  lemma VixMonotone(a: real, b: real)
    requires a <= b
    ensures VixLevel(a) <= VixLevel(b)
  {
  }

  /** The breakpoints themselves fall into the lower band of each strict comparison. */
  lemma VixBreakpoints()
    ensures VixLevel(30.0) == 0.5 && VixLevel(25.0) == 0.3 && VixLevel(20.0) == 0.0
    ensures VixLevel(15.0) == 0.0 && VixLevel(12.0) == -0.1
  {
  }

  /** `get_vix_signal`: the step function of the latest close; no history or no close give 0.0. */
  function VixSignal(hist: History): (r: real)
    ensures -1.0 <= r <= 1.0
    ensures r in {0.8, 0.5, 0.3, -0.3, -0.1, 0.0}
    ensures hist.None? || hist.value == [] ==> r == 0.0
    ensures hist.Some? && hist.value != [] ==> r == VixLevel(Last(hist.value))
  {
    match hist
    case None => 0.0
    case Some(closes) => if |closes| < 1 then 0.0 else VixLevel(Last(closes))
  }
}
