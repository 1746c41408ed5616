/**
 * Indicator helpers of utils.py: true range, Donchian channels and the EMA recurrence.
 * A pandas NaN (the first true range, the warm-up rows of a rolling window) is `None`.
 */
module Indicators {
  import opened Common
  import opened Market

  /** True range of one bar given the previous close. */
  function TrueRangeAt(b: Bar, prevClose: real): real
  {
    Max(b.high - b.low, Max(Abs(b.high - prevClose), Abs(b.low - prevClose)))
  }

  /** `true_range(df)`: row 0 has no previous close, so it is NaN. */
  function TrueRange(bars: seq<Bar>): (tr: seq<Option<real>>)
    ensures |tr| == |bars|
    ensures |bars| > 0 ==> tr[0] == None
  {
    seq(|bars|, i requires 0 <= i < |bars| =>
      if i == 0 then None else Some(TrueRangeAt(bars[i], bars[i - 1].close)))
  }

  /** From bar 1 on, row i holds the true range of bar i against the close of bar i - 1. */
  lemma TrueRangeRow(bars: seq<Bar>, i: int)
    requires 1 <= i < |bars|
    ensures TrueRange(bars)[i] == Some(TrueRangeAt(bars[i], bars[i - 1].close))
  {
  }

  /** From bar 1 on the true range dominates the bar's own range and both gaps to the previous close. */
  lemma TrueRangeDominates(bars: seq<Bar>, i: int)
    requires 1 <= i < |bars|
    ensures TrueRange(bars)[i].Some?
    ensures TrueRange(bars)[i].value >= bars[i].high - bars[i].low
    ensures TrueRange(bars)[i].value >= Abs(bars[i].high - bars[i - 1].close)
    ensures TrueRange(bars)[i].value >= Abs(bars[i].low - bars[i - 1].close)
    ensures TrueRange(bars)[i].value >= 0.0
  {
    TrueRangeRow(bars, i);
  }

  /**
   * For a well-formed bar the true range is the width of the range that also covers the
   * previous close: max(high, prevClose) - min(low, prevClose).
   */
  lemma TrueRangeIsCoveringRange(b: Bar, prevClose: real)
    requires b.low <= b.high
    ensures TrueRangeAt(b, prevClose) == Max(b.high, prevClose) - Min(b.low, prevClose)
  {
  }

  /** The window `rolling(period)` sees at row i. */
  function Window(xs: seq<real>, i: int, period: int): seq<real>
    requires 1 <= period <= i + 1 <= |xs|
  {
    xs[i + 1 - period..i + 1]
  }

  /**
   * `donchian_channels(df, period)`: the rolling max of the highs and the rolling min of the
   * lows, NaN for the first period - 1 rows.
   */
  function DonchianChannels(bars: seq<Bar>, period: int): (ch: (seq<Option<real>>, seq<Option<real>>))
    requires period >= 1
    ensures |ch.0| == |bars| && |ch.1| == |bars|
    ensures forall i :: 0 <= i < |bars| && i < period - 1 ==> ch.0[i] == None && ch.1[i] == None
    ensures forall i :: period - 1 <= i < |bars| ==>
      ch.0[i] == Some(MaxOf(Window(Highs(bars), i, period))) &&
      ch.1[i] == Some(MinOf(Window(Lows(bars), i, period)))
  {
    var hs, ls := Highs(bars), Lows(bars);
    (seq(|bars|, i requires 0 <= i < |bars| =>
       if i < period - 1 then None else Some(MaxOf(Window(hs, i, period)))),
     seq(|bars|, i requires 0 <= i < |bars| =>
       if i < period - 1 then None else Some(MinOf(Window(ls, i, period)))))
  }

  /** Upper is the max of the last `period` highs, lower the min of the lows; upper >= lower. */
  lemma DonchianOrdered(bars: seq<Bar>, period: int, i: int)
    requires period >= 1 && period - 1 <= i < |bars|
    requires forall j :: 0 <= j < |bars| ==> bars[j].low <= bars[j].high
    ensures DonchianChannels(bars, period).0[i].Some?
    ensures DonchianChannels(bars, period).1[i].Some?
    ensures forall j :: i + 1 - period <= j <= i ==>
      bars[j].high <= DonchianChannels(bars, period).0[i].value &&
      DonchianChannels(bars, period).1[i].value <= bars[j].low
    ensures DonchianChannels(bars, period).1[i].value <= DonchianChannels(bars, period).0[i].value
  {
    var hw := Window(Highs(bars), i, period);
    var lw := Window(Lows(bars), i, period);
    assert forall k :: 0 <= k < period ==> hw[k] == bars[i + 1 - period + k].high;
    assert forall k :: 0 <= k < period ==> lw[k] == bars[i + 1 - period + k].low;
    forall j | i + 1 - period <= j <= i
      ensures bars[j].high <= MaxOf(hw) && MinOf(lw) <= bars[j].low
    {
      assert hw[j - (i + 1 - period)] == bars[j].high;
      assert lw[j - (i + 1 - period)] == bars[j].low;
    }
    assert bars[i].high <= MaxOf(hw) && MinOf(lw) <= bars[i].low;
  }

  /** The pandas `ewm(alpha=a, adjust=False)` recurrence: out[0] = x[0], out[t] = a x[t] + (1-a) out[t-1]. */
  function EmaRecurrence(xs: seq<real>, a: real): (out: seq<real>)
    ensures |out| == |xs|
  {
    if |xs| == 0 then []
    else if |xs| == 1 then [xs[0]]
    else
      var prev := EmaRecurrence(xs[..|xs| - 1], a);
      prev + [a * xs[|xs| - 1] + (1.0 - a) * prev[|xs| - 2]]
  }

  /** `ema(series, span)` of utils.py: adjust=False with a = 2 / (span + 1); pandas refuses span < 1. */
  function Ema(xs: seq<real>, span: int): (out: seq<real>)
    requires span >= 1
    ensures |out| == |xs|
  {
    EmaRecurrence(xs, 2.0 / ((span + 1) as real))
  }

  lemma SpanAlpha(span: int)
    requires span >= 1
    ensures 0.0 < 2.0 / ((span + 1) as real) <= 1.0
  {
  }

  /** Index-wise reading of the recurrence: every prefix of the output is the output of the prefix. */
  lemma {:induction false} EmaPrefix(xs: seq<real>, a: real, n: int)
    requires 0 <= n <= |xs|
    ensures EmaRecurrence(xs[..n], a) == EmaRecurrence(xs, a)[..n]
    decreases |xs|
  {
    if n < |xs| {
      var init := xs[..|xs| - 1];
      assert xs[..n] == init[..n];
      EmaPrefix(init, a, n);
      if |xs| > 1 {
        assert EmaRecurrence(xs, a)[..|xs| - 1] == EmaRecurrence(init, a);
      }
    } else {
      assert xs[..n] == xs;
    }
  }

  /** out[0] = x[0] and out[t] = a x[t] + (1 - a) out[t-1] for every t >= 1. */
  lemma EmaSteps(xs: seq<real>, a: real, t: int)
    requires 0 <= t < |xs|
    ensures t == 0 ==> EmaRecurrence(xs, a)[0] == xs[0]
    ensures t > 0 ==> EmaRecurrence(xs, a)[t] == a * xs[t] + (1.0 - a) * EmaRecurrence(xs, a)[t - 1]
  {
    var pre := xs[..t + 1];
    EmaPrefix(xs, a, t + 1);
    assert EmaRecurrence(pre, a)[t] == EmaRecurrence(xs, a)[t];
    if t > 0 {
      EmaPrefix(xs, a, t);
      assert pre[..t] == xs[..t];
      assert EmaRecurrence(pre, a)[t - 1] == EmaRecurrence(xs, a)[t - 1];
    }
  }

  /** A constant input gives a constant output. */
  lemma {:induction false} EmaOfConstant(xs: seq<real>, a: real, c: real)
    requires forall i :: 0 <= i < |xs| ==> xs[i] == c
    ensures forall i :: 0 <= i < |xs| ==> EmaRecurrence(xs, a)[i] == c
  {
    if |xs| > 1 {
      var init := xs[..|xs| - 1];
      EmaOfConstant(init, a, c);
      var prev := EmaRecurrence(init, a);
      assert prev[|xs| - 2] == c;
      assert a * c + (1.0 - a) * c == c;
    }
  }

  /** For 0 <= a <= 1 the output at t stays within the min and max of the inputs seen up to t. */
  lemma {:induction false} EmaWithinRange(xs: seq<real>, a: real, lo: real, hi: real)
    requires 0.0 <= a <= 1.0
    requires forall i :: 0 <= i < |xs| ==> lo <= xs[i] <= hi
    ensures forall i :: 0 <= i < |xs| ==> lo <= EmaRecurrence(xs, a)[i] <= hi
  {
    if |xs| > 1 {
      var init := xs[..|xs| - 1];
      EmaWithinRange(init, a, lo, hi);
      var prev := EmaRecurrence(init, a);
      var p, x := prev[|xs| - 2], xs[|xs| - 1];
      ConvexBetween(p, x, a, lo, hi);
    }
  }

  lemma ConvexBetween(p: real, x: real, a: real, lo: real, hi: real)
    requires 0.0 <= a <= 1.0 && lo <= p <= hi && lo <= x <= hi
    ensures lo <= a * x + (1.0 - a) * p <= hi
  {
    MulNonNegative(a, x - lo);
    MulNonNegative(1.0 - a, p - lo);
    MulNonNegative(a, hi - x);
    MulNonNegative(1.0 - a, hi - p);
    assert a * x + (1.0 - a) * p - lo == a * (x - lo) + (1.0 - a) * (p - lo);
    assert hi - (a * x + (1.0 - a) * p) == a * (hi - x) + (1.0 - a) * (hi - p);
  }

  /** The EMA of utils.py at bar t lies between the min and max of the closes up to t. */
  lemma EmaBoundedByPrefix(xs: seq<real>, span: int, t: int)
    requires span >= 1 && 0 <= t < |xs|
    ensures MinOf(xs[..t + 1]) <= Ema(xs, span)[t] <= MaxOf(xs[..t + 1])
  {
    var a := 2.0 / ((span + 1) as real);
    SpanAlpha(span);
    var pre := xs[..t + 1];
    EmaWithinRange(pre, a, MinOf(pre), MaxOf(pre));
    EmaPrefix(xs, a, t + 1);
    assert EmaRecurrence(pre, a)[t] == Ema(xs, span)[t];
  }
}
