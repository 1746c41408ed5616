/** Bars, expert signals and the window statistics the experts read off a bar window. */
module Market {
  import opened Common

  /** One OHLCV record of a bar window (timestamps play no part in any rule). */
  datatype Bar = Bar(open: real, high: real, low: real, close: real, volume: real)

  /** What an expert emits: a direction in {-1, 0, 1}, a strength and a reason text. */
  datatype Signal = Signal(direction: int, strength: real, reason: string)

  /** The neutral signal every expert falls back to. */
  function Neutral(reason: string): (s: Signal)
    ensures s.direction == 0 && s.strength == 0.0 && s.reason == reason
  {
    Signal(0, 0.0, reason)
  }

  predicate IsNeutral(s: Signal) {
    s.direction == 0 && s.strength == 0.0
  }

  predicate DirectionOk(d: int) {
    d == -1 || d == 0 || d == 1
  }

  function Closes(bars: seq<Bar>): (r: seq<real>)
    ensures |r| == |bars|
    ensures forall i :: 0 <= i < |bars| ==> r[i] == bars[i].close
  {
    seq(|bars|, i requires 0 <= i < |bars| => bars[i].close)
  }

  function Highs(bars: seq<Bar>): (r: seq<real>)
    ensures |r| == |bars|
    ensures forall i :: 0 <= i < |bars| ==> r[i] == bars[i].high
  {
    seq(|bars|, i requires 0 <= i < |bars| => bars[i].high)
  }

  function Lows(bars: seq<Bar>): (r: seq<real>)
    ensures |r| == |bars|
    ensures forall i :: 0 <= i < |bars| ==> r[i] == bars[i].low
  {
    seq(|bars|, i requires 0 <= i < |bars| => bars[i].low)
  }

  /** The last n entries, the window of a pandas `rolling(n)` evaluated at the last row. */
  function LastN(xs: seq<real>, n: nat): (r: seq<real>)
    requires n <= |xs|
    ensures |r| == n
    ensures forall i :: 0 <= i < n ==> r[i] == xs[|xs| - n + i]
  {
    xs[|xs| - n..]
  }

  /** Largest entry (pandas `rolling(...).max()` on one window). */
  function MaxOf(xs: seq<real>): (r: real)
    requires |xs| > 0
    ensures forall i :: 0 <= i < |xs| ==> xs[i] <= r
    ensures exists i :: 0 <= i < |xs| && xs[i] == r
  {
    if |xs| == 1 then xs[0]
    else
      var m := MaxOf(xs[..|xs| - 1]);
      assert forall i :: 0 <= i < |xs| - 1 ==> xs[..|xs| - 1][i] == xs[i];
      Max(m, xs[|xs| - 1])
  }

  /** Smallest entry (pandas `rolling(...).min()` on one window). */
  function MinOf(xs: seq<real>): (r: real)
    requires |xs| > 0
    ensures forall i :: 0 <= i < |xs| ==> r <= xs[i]
    ensures exists i :: 0 <= i < |xs| && xs[i] == r
  {
    if |xs| == 1 then xs[0]
    else
      var m := MinOf(xs[..|xs| - 1]);
      assert forall i :: 0 <= i < |xs| - 1 ==> xs[..|xs| - 1][i] == xs[i];
      Min(m, xs[|xs| - 1])
  }

  function Mean(xs: seq<real>): real
    requires |xs| > 0
  {
    Sum(xs) / (|xs| as real)
  }

  /** A sum of n terms lies between n times the smallest and n times the largest. */
  lemma {:induction false} SumBounds(xs: seq<real>, lo: real, hi: real)
    requires forall i :: 0 <= i < |xs| ==> lo <= xs[i] <= hi
    ensures (|xs| as real) * lo <= Sum(xs) <= (|xs| as real) * hi
  {
    if |xs| > 0 {
      var init := xs[..|xs| - 1];
      assert forall i :: 0 <= i < |init| ==> init[i] == xs[i];
      SumBounds(init, lo, hi);
    }
  }

  lemma DivideBounds(lo: real, s: real, hi: real, n: real)
    requires n > 0.0 && n * lo <= s <= n * hi
    ensures lo <= s / n <= hi
  {
    var q := s / n;
    assert s == n * q;
    assert n * lo <= n * q <= n * hi;
  }

  /** The mean of a window lies between its minimum and its maximum. */
  lemma {:induction false} MeanBounds(xs: seq<real>)
    requires |xs| > 0
    ensures MinOf(xs) <= Mean(xs) <= MaxOf(xs)
  {
    MeanBetween(xs, MinOf(xs), MaxOf(xs));
  }

  /** A mean lies between any two bounds of its entries. */
  lemma MeanBetween(xs: seq<real>, lo: real, hi: real)
    requires |xs| > 0
    requires forall i :: 0 <= i < |xs| ==> lo <= xs[i] <= hi
    ensures lo <= Mean(xs) <= hi
  {
    SumBounds(xs, lo, hi);
    MeanOfBounds(Sum(xs), |xs|, lo, hi);
  }

  lemma MeanOfBounds(total: real, n: nat, lo: real, hi: real)
    requires n > 0 && (n as real) * lo <= total <= (n as real) * hi
    ensures lo <= total / (n as real) <= hi
  {
    DivideBounds(lo, total, hi, n as real);
  }

  /** MA20: `close.rolling(20).mean()` at the last bar, the mean of the last 20 closes. */
  function Ma20(bars: seq<Bar>): real
    requires |bars| >= 20
  {
    Mean(LastN(Closes(bars), 20))
  }

  /** The price every expert compares against: the last close. */
  function LastClose(bars: seq<Bar>): real
    requires |bars| > 0
  {
    bars[|bars| - 1].close
  }

  /** A decision of the signal aggregator: direction and reported strength. */
  datatype Decision = Decision(direction: int, strength: real)

  /**
   * The +-0.05 band around zero: long above +0.05, short below -0.05, flat in between,
   * with strength min(1, |net|).
   */
  function Decide(net: real): (d: Decision)
    ensures d.direction == 1 <==> net > 0.05
    ensures d.direction == -1 <==> net < -0.05
    ensures d.direction == 0 <==> -0.05 <= net <= 0.05
    ensures d.strength == Min(1.0, Abs(net))
  {
    Decision(if net > 0.05 then 1 else if net < -0.05 then -1 else 0, Min(1.0, Abs(net)))
  }

  /** A non-flat decision always reports a strength in (0.05, 1]. */
  lemma DecideStrength(net: real)
    ensures 0.0 <= Decide(net).strength <= 1.0
    ensures Decide(net).direction != 0 ==> 0.05 < Decide(net).strength
    ensures DirectionOk(Decide(net).direction)
  {
  }
}
