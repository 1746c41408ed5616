/** `TrendPullback.signal` (experts/pullback.py): buy a close just above MA20. */
module TrendPullback {
  import opened Common
  import opened Market

  const Name := "pullback"

  function SignalOf(bars: seq<Bar>): (s: Signal)
    ensures |bars| < 20 ==> s == Neutral("not enough data")
    ensures |bars| >= 20 ==>
      (s.direction == 1 <==> Ma20(bars) < LastClose(bars) <= Ma20(bars) * 1.02)
    ensures s.direction == 0 || s.direction == 1
    ensures s.direction == 0 <==> s.strength == 0.0
    ensures s.direction == 1 ==> s.strength == 0.7
  {
    if |bars| < 20 then Neutral("not enough data")
    else
      var ma20 := Ma20(bars);
      var price := LastClose(bars);
      if price > ma20 * 1.02 then Neutral("Too far above MA20")
      else if price > ma20 then Signal(1, 0.7, "Pullback near MA20 in uptrend")
      else Neutral("Not in uptrend")
  }

  /** A close at or below MA20, or more than 2% above it, is never a buy. */
  lemma OutsideBandIsNeutral(bars: seq<Bar>)
    requires |bars| >= 20
    requires LastClose(bars) <= Ma20(bars) || LastClose(bars) > 1.02 * Ma20(bars)
    ensures IsNeutral(SignalOf(bars))
  {
  }
}
