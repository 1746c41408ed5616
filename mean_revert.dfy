/** `MeanRevert.signal` (experts/mean_revert.py): fade a move of more than 5% away from MA20. */
module MeanRevert {
  import opened Common
  import opened Market

  const Name := "mean_revert"

  /**
   * diff = (price - ma20) / ma20 > 0.05. The series are numpy floats, so ma20 == 0 does not
   * raise: the quotient is +inf for a positive numerator (above the band), -inf for a
   * negative one and NaN for 0 / 0 (neither).
   */
  predicate AboveBand(price: real, ma20: real) {
    if ma20 != 0.0 then (price - ma20) / ma20 > 0.05 else price - ma20 > 0.0
  }

  predicate BelowBand(price: real, ma20: real) {
    if ma20 != 0.0 then (price - ma20) / ma20 < -0.05 else price - ma20 < 0.0
  }

  function SignalOf(bars: seq<Bar>): (s: Signal)
    ensures |bars| < 20 ==> s == Neutral("not enough data")
    ensures |bars| >= 20 ==> (s.direction == -1 <==> AboveBand(LastClose(bars), Ma20(bars)))
    ensures |bars| >= 20 ==> (s.direction == 1 <==> BelowBand(LastClose(bars), Ma20(bars)))
    ensures DirectionOk(s.direction)
    ensures s.direction == 0 <==> s.strength == 0.0
    ensures s.direction != 0 ==> s.strength == 0.6
  {
    if |bars| < 20 then Neutral("not enough data")
    else
      var ma20 := Ma20(bars);
      var price := LastClose(bars);
      if AboveBand(price, ma20) then Signal(-1, 0.6, "Price above MA20 → short")
      else if BelowBand(price, ma20) then Signal(1, 0.6, "Price below MA20 → long")
      else Neutral("Near mean")
  }

  /** The direction is always opposite in sign to the deviation price - MA20 (for MA20 > 0). */
  lemma OppositeToDeviation(bars: seq<Bar>)
    requires |bars| >= 20 && Ma20(bars) > 0.0
    ensures SignalOf(bars).direction == -1 <==> LastClose(bars) > 1.05 * Ma20(bars)
    ensures SignalOf(bars).direction == 1 <==> LastClose(bars) < 0.95 * Ma20(bars)
    ensures (SignalOf(bars).direction as real) * (LastClose(bars) - Ma20(bars)) <= 0.0
  {
    var p, m := LastClose(bars), Ma20(bars);
    QuotientCompare(p - m, m, 0.05);
    QuotientCompare(p - m, m, -0.05);
  }
}
