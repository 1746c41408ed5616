/** `TrendFollower.signal` (experts/trend.py): the last close against MA20. */
module TrendFollower {
  import opened Common
  import opened Market

  const Name := "trend"

  function SignalOf(bars: seq<Bar>): (s: Signal)
    ensures |bars| < 20 ==> s == Neutral("not enough data")
    ensures |bars| >= 20 ==> (s.direction == 1 <==> LastClose(bars) > Ma20(bars))
    ensures |bars| >= 20 ==> (s.direction == -1 <==> LastClose(bars) < Ma20(bars))
    ensures DirectionOk(s.direction)
    ensures s.direction == 0 <==> s.strength == 0.0
    ensures s.direction != 0 ==> s.strength == 0.8
  {
    if |bars| < 20 then Neutral("not enough data")
    else
      var ma20 := Ma20(bars);
      var price := LastClose(bars);
      if price > ma20 then Signal(1, 0.8, "Price above MA20 (uptrend)")
      else if price < ma20 then Signal(-1, 0.8, "Price below MA20 (downtrend)")
      else Neutral("Price near MA20")
  }

  /** A window whose last 20 closes are all equal has MA20 equal to the price: neutral. */
  lemma FlatWindowIsNeutral(bars: seq<Bar>)
    requires |bars| >= 20
    requires forall i :: |bars| - 20 <= i < |bars| ==> bars[i].close == LastClose(bars)
    ensures IsNeutral(SignalOf(bars))
  {
    var w := LastN(Closes(bars), 20);
    assert forall i :: 0 <= i < 20 ==> w[i] == LastClose(bars);
    MeanBounds(w);
    assert MinOf(w) == LastClose(bars) == MaxOf(w);
  }

  /** A last close strictly above every other close of the window pulls MA20 below it: long. */
  lemma NewHighIsLong(bars: seq<Bar>)
    requires |bars| >= 20
    requires forall i :: |bars| - 20 <= i < |bars| - 1 ==> bars[i].close < LastClose(bars)
    ensures SignalOf(bars).direction == 1
  {
    var w := LastN(Closes(bars), 20);
    var p := LastClose(bars);
    var init := w[..19];
    assert w == init + [p];
    SumAppend(init, p);
    assert forall i :: 0 <= i < 19 ==> init[i] < p;
    SumBounds(init, MinOf(init), MaxOf(init));
    assert MaxOf(init) < p;
    assert Sum(w) < 20.0 * p;
    assert Ma20(bars) == Sum(w) / 20.0;
  }
}
