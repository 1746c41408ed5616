/**
 * The indicator-driven experts of pullback.py: `TrendPullback.signal` (EMA50/EMA200 trend with
 * an RSI pullback) and the ATR-expansion `VolSqueezeBreakout.signal` that follows it in the
 * same file. The EMAs are the recurrence of utils.py over the closes; the Wilder RSI(14) and the
 * ATR14 / (ATR50 + 1e-9) ratio at the last bar are inputs.
 */
module IndicatorExperts {
  import opened Common
  import opened Market
  import opened Indicators

  const TrendPullbackName := "trend_pullback"
  const AtrSqueezeName := "vol_squeeze"

  /** The last value of `ema(close, span)`. */
  function LastEma(bars: seq<Bar>, span: int): real
    requires |bars| > 0 && span >= 1
  {
    Ema(Closes(bars), span)[|bars| - 1]
  }

  /** `TrendPullback.signal` of pullback.py, given the last RSI(14). */
  function TrendPullbackSignal(bars: seq<Bar>, rsi: real): (s: Signal)
    ensures |bars| < 210 ==> s == Neutral("insufficient data")
    ensures |bars| >= 210 ==>
      (s.direction == 1 <==> LastEma(bars, 50) > LastEma(bars, 200) && rsi < 40.0)
    ensures |bars| >= 210 ==>
      (s.direction == -1 <==> !(LastEma(bars, 50) > LastEma(bars, 200) && rsi < 40.0) &&
                              LastEma(bars, 50) < LastEma(bars, 200) && rsi > 60.0)
    ensures s.direction == 1 ==> s.strength == Min(1.0, (40.0 - rsi) / 20.0)
    ensures s.direction == -1 ==> s.strength == Min(1.0, (rsi - 60.0) / 20.0)
    ensures DirectionOk(s.direction)
    ensures s.direction == 0 ==> s.strength == 0.0
    ensures s.direction != 0 ==> 0.0 < s.strength <= 1.0
  {
    if |bars| < 210 then Neutral("insufficient data")
    else
      var e50 := LastEma(bars, 50);
      var e200 := LastEma(bars, 200);
      if e50 > e200 && rsi < 40.0 then Signal(1, Min(1.0, (40.0 - rsi) / 20.0), "trend up + rsi pullback")
      else if e50 < e200 && rsi > 60.0 then Signal(-1, Min(1.0, (rsi - 60.0) / 20.0), "trend down + rsi rebound")
      else Neutral("no pullback setup")
  }

  /** The two setups exclude each other, and an RSI within [40, 60] is never a setup. */
  lemma TrendPullbackMidRsiIsNeutral(bars: seq<Bar>, rsi: real)
    requires 40.0 <= rsi <= 60.0
    ensures IsNeutral(TrendPullbackSignal(bars, rsi))
  {
  }

  /** The direction follows the EMA trend: long only in an uptrend, short only in a downtrend. */
  lemma TrendPullbackFollowsTrend(bars: seq<Bar>, rsi: real)
    requires |bars| >= 210
    ensures TrendPullbackSignal(bars, rsi).direction == 1 ==> LastEma(bars, 50) > LastEma(bars, 200)
    ensures TrendPullbackSignal(bars, rsi).direction == -1 ==> LastEma(bars, 50) < LastEma(bars, 200)
  {
  }

  /** The ATR-expansion `VolSqueezeBreakout.signal` of pullback.py, given the last ATR ratio. */
  function AtrSqueezeSignal(bars: seq<Bar>, ratio: real): (s: Signal)
    ensures |bars| < 100 ==> s == Neutral("insufficient data")
    ensures |bars| >= 100 ==>
      (s.direction == 1 <==> ratio > 1.2 && LastClose(bars) > LastEma(bars, 20))
    ensures |bars| >= 100 ==>
      (s.direction == -1 <==> ratio > 1.2 && LastClose(bars) < LastEma(bars, 20))
    ensures s.direction != 0 ==> s.strength == Min(1.0, ratio / 2.0) && 0.6 <= s.strength <= 1.0
    ensures s.direction == 0 ==> s.strength == 0.0
    ensures DirectionOk(s.direction)
  {
    if |bars| < 100 then Neutral("insufficient data")
    else
      var close := LastClose(bars);
      var e20 := LastEma(bars, 20);
      if ratio > 1.2 && close > e20 then Signal(1, Min(1.0, ratio / 2.0), "ATR expand up + EMA cross up")
      else if ratio > 1.2 && close < e20 then Signal(-1, Min(1.0, ratio / 2.0), "ATR expand down + EMA cross down")
      else Neutral("no squeeze breakout")
  }

  /** Without an ATR expansion, or with the close exactly on EMA20, the expert stays flat. */
  lemma AtrSqueezeNeedsExpansion(bars: seq<Bar>, ratio: real)
    requires ratio <= 1.2 || (|bars| >= 100 && LastClose(bars) == LastEma(bars, 20))
    ensures IsNeutral(AtrSqueezeSignal(bars, ratio))
  {
  }
}
