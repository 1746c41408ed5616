/**
 * `VolSqueezeBreakout.signal` (experts/vol_squeeze.py): Bollinger bands at +-2 standard
 * deviations around MA20; a band narrower than 5% of MA20 is a squeeze, and a close outside
 * it is a breakout. The 20-bar sample standard deviation is an input (its square root is
 * floating-point numerics).
 */
module VolSqueezeBreakout {
  import opened Common
  import opened Market

  const Name := "vol_squeeze"

  /**
   * band_width = (upper - lower) / ma20 < 0.05. The values are numpy floats: for ma20 == 0
   * the width is +inf (std > 0) or NaN (std == 0), and neither is below 0.05.
   */
  predicate InSqueeze(ma20: real, std20: real) {
    ma20 != 0.0 && ((ma20 + 2.0 * std20) - (ma20 - 2.0 * std20)) / ma20 < 0.05
  }

  function SignalOf(bars: seq<Bar>, std20: real): (s: Signal)
    requires std20 >= 0.0
    ensures |bars| < 20 ==> s == Neutral("not enough data")
    ensures |bars| >= 20 && !InSqueeze(Ma20(bars), std20) ==> s == Neutral("No squeeze")
    ensures |bars| >= 20 && InSqueeze(Ma20(bars), std20) ==>
      (s.direction == 1 <==> LastClose(bars) > Ma20(bars) + 2.0 * std20) &&
      (s.direction == -1 <==> LastClose(bars) < Ma20(bars) - 2.0 * std20)
    ensures DirectionOk(s.direction)
    ensures s.direction == 0 <==> s.strength == 0.0
    ensures s.direction != 0 ==> s.strength == 1.0
  {
    if |bars| < 20 then Neutral("not enough data")
    else
      var ma20 := Ma20(bars);
      var upper := ma20 + 2.0 * std20;
      var lower := ma20 - 2.0 * std20;
      var price := LastClose(bars);
      if InSqueeze(ma20, std20) then
        if price > upper then Signal(1, 1.0, "Bollinger squeeze breakout ↑")
        else if price < lower then Signal(-1, 1.0, "Bollinger squeeze breakdown ↓")
        else Neutral("Waiting breakout")
      else Neutral("No squeeze")
  }

  /** The band width is 4 std20 / MA20; for a positive MA20 the squeeze is 80 std20 < MA20. */
  lemma SqueezeWidth(ma20: real, std20: real)
    requires ma20 > 0.0
    ensures InSqueeze(ma20, std20) <==> 4.0 * std20 / ma20 < 0.05
    ensures InSqueeze(ma20, std20) <==> 80.0 * std20 < ma20
  {
    assert (ma20 + 2.0 * std20) - (ma20 - 2.0 * std20) == 4.0 * std20;
    QuotientCompare(4.0 * std20, ma20, 0.05);
  }
}
