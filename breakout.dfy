/** `Breakout.signal` (experts/breakout.py): the last close against the 20-bar high and low. */
module Breakout {
  import opened Common
  import opened Market

  const Name := "breakout"

  /** `high.rolling(20).max()` at the last bar. */
  function High20(bars: seq<Bar>): real
    requires |bars| >= 20
  {
    MaxOf(LastN(Highs(bars), 20))
  }

  /** `low.rolling(20).min()` at the last bar. */
  function Low20(bars: seq<Bar>): real
    requires |bars| >= 20
  {
    MinOf(LastN(Lows(bars), 20))
  }

  function SignalOf(bars: seq<Bar>): (s: Signal)
    ensures |bars| < 20 ==> s == Neutral("not enough data")
    ensures |bars| >= 20 ==> (s.direction == 1 <==> LastClose(bars) > High20(bars))
    ensures |bars| >= 20 ==> (s.direction == -1 <==> LastClose(bars) <= High20(bars) && LastClose(bars) < Low20(bars))
    ensures DirectionOk(s.direction)
    ensures s.direction == 0 <==> s.strength == 0.0
    ensures s.direction != 0 ==> s.strength == 1.0
  {
    if |bars| < 20 then Neutral("not enough data")
    else
      var high20 := High20(bars);
      var low20 := Low20(bars);
      var price := LastClose(bars);
      if price > high20 then Signal(1, 1.0, "Breakout above 20-day high")
      else if price < low20 then Signal(-1, 1.0, "Breakdown below 20-day low")
      else Neutral("Inside range")
  }

  /**
   * The 20-bar window includes the last bar itself, so a well-formed last bar
   * (low <= close <= high) can never close outside it: the expert is always neutral.
   */
  lemma WellFormedLastBarIsNeutral(bars: seq<Bar>)
    requires |bars| >= 20
    requires bars[|bars| - 1].low <= bars[|bars| - 1].close <= bars[|bars| - 1].high
    ensures IsNeutral(SignalOf(bars))
  {
    var hs := LastN(Highs(bars), 20);
    var ls := LastN(Lows(bars), 20);
    assert hs[19] == bars[|bars| - 1].high;
    assert ls[19] == bars[|bars| - 1].low;
  }
}
