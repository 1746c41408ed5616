/**
 * The decision and book-keeping arithmetic of `run_portfolio` (backtest_portfolio.py): the
 * regime-weight normalisation, the regime- and meta-weighted expert net, the per-symbol
 * mark-to-market / close / reversal / open rule, and the compounding of equity bar by bar.
 *
 * The order decision comes from `risk.decide`, which risk.py does not define; it is an input
 * here (`None` for no decision). The meta weight of each expert is the value `get_weight`
 * returned for it.
 */
module Backtest {
  import opened Common
  import opened Market
  import opened Regime

  /** FEE (0.05% per side) and SLIPPAGE (0.10% adverse). */
  const Fee: real := 0.0005
  const Slippage: real := 0.001

  // ---------------------------------------------------------------- regime weights

  function RegimeSum(w: RegimeWeights): real {
    w.trend + w.range + w.breakout
  }

  /** `sum(w_reg.values()) or 1.0`: a zero sum divides by 1. */
  function RegimeDivisor(w: RegimeWeights): (d: real)
    ensures d != 0.0
  {
    if RegimeSum(w) == 0.0 then 1.0 else RegimeSum(w)
  }

  /** `{k: v / ssum}`: every regime weight divided by the divisor. */
  function NormalizeRegime(w: RegimeWeights): RegimeWeights {
    var d := RegimeDivisor(w);
    RegimeWeights(w.trend / d, w.range / d, w.breakout / d)
  }

  /**
   * Normalised weights sum to 1 when the raw ones do not sum to 0 and keep their proportions;
   * weights summing to 0 (in particular all-zero ones) are left as they are, with no uniform
   * fallback.
   */
  lemma NormalizeRegimeSpec(w: RegimeWeights)
    ensures RegimeSum(w) != 0.0 ==> RegimeSum(NormalizeRegime(w)) == 1.0
    ensures RegimeSum(w) != 0.0 ==>
      NormalizeRegime(w).trend * RegimeSum(w) == w.trend &&
      NormalizeRegime(w).range * RegimeSum(w) == w.range &&
      NormalizeRegime(w).breakout * RegimeSum(w) == w.breakout
    ensures RegimeSum(w) == 0.0 ==> NormalizeRegime(w) == w
  {
    var t := RegimeSum(w);
    if t != 0.0 {
      DivideSum(w.trend, w.range, t);
      DivideSum(w.trend + w.range, w.breakout, t);
      assert t / t == 1.0;
    }
  }

  /** Non-negative weights normalise to weights in [0, 1] whose sum is at most 1. */
  lemma NormalizeNonNegative(w: RegimeWeights)
    requires w.trend >= 0.0 && w.range >= 0.0 && w.breakout >= 0.0
    ensures var n := NormalizeRegime(w);
      0.0 <= n.trend <= 1.0 && 0.0 <= n.range <= 1.0 && 0.0 <= n.breakout <= 1.0 &&
      RegimeSum(n) <= 1.0
  {
    if RegimeSum(w) != 0.0 {
      NormalizedShares(w);
    }
  }

  /** Non-negative weights with a nonzero sum normalise to shares in [0, 1] that add up to exactly 1. */
  lemma NormalizedShares(w: RegimeWeights)
    requires w.trend >= 0.0 && w.range >= 0.0 && w.breakout >= 0.0 && RegimeSum(w) != 0.0
    ensures var n := NormalizeRegime(w);
      0.0 <= n.trend <= 1.0 && 0.0 <= n.range <= 1.0 && 0.0 <= n.breakout <= 1.0 &&
      RegimeSum(n) == 1.0
  {
    var t := RegimeSum(w);
    assert RegimeDivisor(w) == t;
    SumOfShares(w.trend, w.range, w.breakout);
  }

  /** Three non-negative parts of a positive whole are shares in [0, 1] that add up to 1. */
  lemma SumOfShares(a: real, b: real, c: real)
    requires a >= 0.0 && b >= 0.0 && c >= 0.0 && a + b + c > 0.0
    ensures var t := a + b + c;
      0.0 <= a / t <= 1.0 && 0.0 <= b / t <= 1.0 && 0.0 <= c / t <= 1.0 && a / t + b / t + c / t == 1.0
  {
    var t := a + b + c;
    QuotientVersusOne(a, t);
    QuotientVersusOne(b, t);
    QuotientVersusOne(c, t);
    DivideSum(a, b, t);
    DivideSum(a + b, c, t);
    assert t / t == 1.0;
  }

  /** Weights of the regime detector (each in [0, 1]) normalise to weights in [0, 1]. */
  lemma NormalizeDetected(cfg: RegimeConfig, f: Features)
    requires ValidConfig(cfg)
    ensures var n := NormalizeRegime(Detect(cfg, f));
      0.0 <= n.trend <= 1.0 && 0.0 <= n.range <= 1.0 && 0.0 <= n.breakout <= 1.0 &&
      RegimeSum(n) <= 1.0
  {
    NormalizeNonNegative(Detect(cfg, f));
  }

  // ---------------------------------------------------------------- expert weighting and net

  /** `w_reg.get(name, 0.0)`: the keys are 'trend', 'mean_revert' and 'breakout'. */
  function RegimeWeightOf(name: string, n: RegimeWeights): real {
    if name == "trend" then n.trend
    else if name == "mean_revert" then n.range
    else if name == "breakout" then n.breakout
    else 0.0
  }

  /** Line 86: the regime weight of the expert times its meta weight. */
  function ExpertWeight(name: string, n: RegimeWeights, metaWeight: real): real {
    RegimeWeightOf(name, n) * metaWeight
  }

  /** Only the trend, mean-revert and breakout experts can carry a nonzero weight. */
  lemma OnlyRegimeExpertsWeighted(name: string, n: RegimeWeights, metaWeight: real)
    requires name != "trend" && name != "mean_revert" && name != "breakout"
    ensures ExpertWeight(name, n, metaWeight) == 0.0
  {
  }

  /** One panel entry: the expert's name, its signal and the meta weight `get_weight` gave it. */
  datatype Opinion = Opinion(name: string, signal: Signal, metaWeight: real)

  /** Line 87: the strength clipped to [0, 1] and scaled by the expert's weight. */
  function WeightedStrength(o: Opinion, n: RegimeWeights): real {
    Clip(o.signal.strength, 0.0, 1.0) * ExpertWeight(o.name, n, o.metaWeight)
  }

  /** A non-negative weight bounds the weighted strength from above. */
  lemma WeightedStrengthBounds(o: Opinion, n: RegimeWeights)
    requires ExpertWeight(o.name, n, o.metaWeight) >= 0.0
    ensures 0.0 <= WeightedStrength(o, n) <= ExpertWeight(o.name, n, o.metaWeight)
  {
    var w := ExpertWeight(o.name, n, o.metaWeight);
    var c := Clip(o.signal.strength, 0.0, 1.0);
    assert WeightedStrength(o, n) == c * w;
    ScaleWithin(c, w);
  }

  lemma ScaleWithin(c: real, w: real)
    requires 0.0 <= c <= 1.0 && w >= 0.0
    ensures 0.0 <= c * w <= w
  {
    MulNonNegative(c, w);
    MulMonotone(c, 1.0, w);
  }

  /** Line 89: the sum of direction * weighted strength over the panel. */
  function Net(panel: seq<Opinion>, n: RegimeWeights): real
    decreases |panel|
  {
    if |panel| == 0 then 0.0
    else
      var o := panel[|panel| - 1];
      Net(panel[..|panel| - 1], n) + (o.signal.direction as real) * WeightedStrength(o, n)
  }

  /** Sum of the experts' weights. */
  function TotalWeight(panel: seq<Opinion>, n: RegimeWeights): real
    decreases |panel|
  {
    if |panel| == 0 then 0.0
    else
      var o := panel[|panel| - 1];
      TotalWeight(panel[..|panel| - 1], n) + ExpertWeight(o.name, n, o.metaWeight)
  }

  predicate WellFormedPanel(panel: seq<Opinion>, n: RegimeWeights) {
    forall i :: 0 <= i < |panel| ==>
      DirectionOk(panel[i].signal.direction) && ExpertWeight(panel[i].name, n, panel[i].metaWeight) >= 0.0
  }

  /** With directions in {-1, 0, 1} and non-negative weights, |net| is at most the total weight. */
  lemma {:induction false} NetBounded(panel: seq<Opinion>, n: RegimeWeights)
    requires WellFormedPanel(panel, n)
    ensures Abs(Net(panel, n)) <= TotalWeight(panel, n)
    decreases |panel|
  {
    if |panel| > 0 {
      var pre := panel[..|panel| - 1];
      assert WellFormedPanel(pre, n) by {
        forall i | 0 <= i < |pre| ensures pre[i] == panel[i] { }
      }
      NetBounded(pre, n);
      WeightedStrengthBounds(panel[|panel| - 1], n);
    }
  }

  /** Sum of the experts' regime weights (their weights before the meta weight). */
  function RegimeTotal(panel: seq<Opinion>, n: RegimeWeights): real
    decreases |panel|
  {
    if |panel| == 0 then 0.0
    else RegimeTotal(panel[..|panel| - 1], n) + RegimeWeightOf(panel[|panel| - 1].name, n)
  }

  lemma ScaleAtMostTwice(r: real, m: real)
    requires r >= 0.0 && 0.0 <= m <= 2.0
    ensures 0.0 <= r * m <= 2.0 * r
  {
    MulNonNegative(r, m);
    MulMonotone(m, 2.0, r);
  }

  /** An expert's weight lies between 0 and twice its regime weight. */
  lemma ExpertWeightWithin(name: string, n: RegimeWeights, metaWeight: real)
    requires n.trend >= 0.0 && n.range >= 0.0 && n.breakout >= 0.0
    requires 0.0 <= metaWeight <= 2.0
    ensures 0.0 <= ExpertWeight(name, n, metaWeight) <= 2.0 * RegimeWeightOf(name, n)
  {
    var r := RegimeWeightOf(name, n);
    assert ExpertWeight(name, n, metaWeight) == r * metaWeight;
    ScaleAtMostTwice(r, metaWeight);
  }

  /** Meta weights in [0, 2] at most double the regime weights. */
  lemma {:induction false} TotalWeightAtMostTwice(panel: seq<Opinion>, n: RegimeWeights)
    requires n.trend >= 0.0 && n.range >= 0.0 && n.breakout >= 0.0
    requires forall i :: 0 <= i < |panel| ==> 0.0 <= panel[i].metaWeight <= 2.0
    ensures TotalWeight(panel, n) <= 2.0 * RegimeTotal(panel, n)
    decreases |panel|
  {
    if |panel| > 0 {
      var pre := panel[..|panel| - 1];
      var o := panel[|panel| - 1];
      assert forall i :: 0 <= i < |pre| ==> pre[i] == panel[i];
      TotalWeightAtMostTwice(pre, n);
      ExpertWeightWithin(o.name, n, o.metaWeight);
      assert TotalWeight(panel, n) == TotalWeight(pre, n) + ExpertWeight(o.name, n, o.metaWeight);
      assert RegimeTotal(panel, n) == RegimeTotal(pre, n) + RegimeWeightOf(o.name, n);
    }
  }

  /** The experts of the back-test, in the order the panel lists them. */
  function Panel(trend: Signal, meanRevert: Signal, breakout: Signal, pullback: Signal, volSqueeze: Signal,
                 m: seq<real>): (p: seq<Opinion>)
    requires |m| == 5
    ensures |p| == 5
  {
    [Opinion("trend", trend, m[0]), Opinion("mean_revert", meanRevert, m[1]), Opinion("breakout", breakout, m[2]),
     Opinion("pullback", pullback, m[3]), Opinion("vol_squeeze", volSqueeze, m[4])]
  }

  /** The panel's regime weights are the three normalised regime weights; pullback and squeeze get 0. */
  lemma PanelRegimeTotal(p: seq<Opinion>, n: RegimeWeights)
    requires |p| == 5
    requires p[0].name == "trend" && p[1].name == "mean_revert" && p[2].name == "breakout"
    requires p[3].name == "pullback" && p[4].name == "vol_squeeze"
    ensures RegimeTotal(p, n) == RegimeSum(n)
  {
    assert p[..1][..0] == [];
    assert p[..2][..1] == p[..1];
    assert p[..3][..2] == p[..2];
    assert p[..4][..3] == p[..3];
    assert p[..5][..4] == p[..4];
    assert RegimeTotal(p[..1], n) == n.trend;
    assert RegimeTotal(p[..2], n) == n.trend + n.range;
    assert RegimeTotal(p[..3], n) == n.trend + n.range + n.breakout;
    assert RegimeTotal(p[..4], n) == RegimeSum(n);
    assert p[..5] == p;
  }

  /**
   * For the back-test's panel with meta weights in [0, 2] and normalised regime weights, the net
   * lies in [-2, 2]: only three experts are weighted and their regime weights sum to at most 1.
   */
  lemma PanelNetBounded(trend: Signal, meanRevert: Signal, breakout: Signal, pullback: Signal, volSqueeze: Signal,
                        m: seq<real>, cfg: RegimeConfig, f: Features)
    requires ValidConfig(cfg) && |m| == 5
    requires forall i :: 0 <= i < 5 ==> 0.0 <= m[i] <= 2.0
    requires DirectionOk(trend.direction) && DirectionOk(meanRevert.direction) && DirectionOk(breakout.direction)
    requires DirectionOk(pullback.direction) && DirectionOk(volSqueeze.direction)
    ensures var n := NormalizeRegime(Detect(cfg, f));
      Abs(Net(Panel(trend, meanRevert, breakout, pullback, volSqueeze, m), n)) <= 2.0
  {
    var n := NormalizeRegime(Detect(cfg, f));
    NormalizeDetected(cfg, f);
    var p := Panel(trend, meanRevert, breakout, pullback, volSqueeze, m);
    forall i | 0 <= i < |p| ensures ExpertWeight(p[i].name, n, p[i].metaWeight) >= 0.0 {
      ExpertWeightWithin(p[i].name, n, p[i].metaWeight);
    }
    TotalWeightAtMostTwice(p, n);
    PanelRegimeTotal(p, n);
    NetBounded(p, n);
  }

  /** Lines 89-91: the net of the panel through the +-0.05 band. */
  function NetDecision(panel: seq<Opinion>, n: RegimeWeights): Decision {
    Decide(Net(panel, n))
  }

  // ---------------------------------------------------------------- one symbol on one bar

  datatype Side = Buy | Sell

  /** What `risk.decide` hands back when it decides to trade. */
  datatype OrderDecision = OrderDecision(side: Side, size: real)

  /** `state[sym]`: the signed position and its entry price (`None` when flat). */
  datatype Holding = Holding(pos: real, entry: Option<real>)

  const Flat := Holding(0.0, None)

  predicate IsOpen(h: Holding) {
    h.pos != 0.0 && h.entry.Some?
  }

  /** The state the back-test keeps: an entry, when present, is a positive price. */
  predicate HoldingOk(h: Holding) {
    h.entry.Some? ==> h.entry.value > 0.0
  }

  /** Lines 101-104: the step's P&L of an open holding, net of fee and slippage, times |pos|. */
  function MarkToMarket(h: Holding, price: real): real
    requires HoldingOk(h)
  {
    if IsOpen(h) then
      var ret := price / h.entry.value - 1.0;
      ((if h.pos > 0.0 then ret else -ret) - Fee - Slippage) * Abs(h.pos)
    else 0.0
  }

  /** The decision goes against the holding: a buy against a short or a sell against a long. */
  predicate Opposes(dec: OrderDecision, h: Holding) {
    (dec.side == Buy && h.pos < 0.0) || (dec.side == Sell && h.pos > 0.0)
  }

  /** Lines 106-108: an open holding is closed when there is no decision or it opposes the holding. */
  function CloseRule(h: Holding, dec: Option<OrderDecision>): Holding {
    if IsOpen(h) && (dec.None? || Opposes(dec.value, h)) then Flat else h
  }

  /** Lines 112-114: a decision opens a position only from a flat state, paying the slippage. */
  function OpenRule(h: Holding, dec: Option<OrderDecision>, price: real): Holding {
    if dec.Some? && h.pos == 0.0 then
      var d := dec.value;
      Holding(if d.side == Buy then d.size else -d.size,
              Some(price * (if d.side == Buy then 1.0 + Slippage else 1.0 - Slippage)))
    else h
  }

  /** One symbol on one bar: its P&L contribution and its new holding. */
  function SymbolStep(h: Holding, price: real, dec: Option<OrderDecision>): (real, Holding)
    requires HoldingOk(h)
  {
    (MarkToMarket(h, price), OpenRule(CloseRule(h, dec), dec, price))
  }

  /** The bar step keeps entries positive for positive prices. */
  lemma SymbolStepKeepsOk(h: Holding, price: real, dec: Option<OrderDecision>)
    requires HoldingOk(h) && price > 0.0
    ensures HoldingOk(SymbolStep(h, price, dec).1)
  {
    MulSign(price, 1.0 + Slippage);
    MulSign(price, 1.0 - Slippage);
  }

  /**
   * The close/reversal/open rule: with no decision an open holding goes flat; an opposing
   * decision closes it and opens the decided side at once; an agreeing decision keeps it
   * untouched; a position opens only from flat, at price * (1 +- SLIPPAGE).
   */
  lemma SymbolStepRules(h: Holding, price: real, dec: Option<OrderDecision>)
    requires HoldingOk(h)
    ensures IsOpen(h) && dec.None? ==> SymbolStep(h, price, dec).1 == Flat
    ensures IsOpen(h) && dec.Some? && Opposes(dec.value, h) ==>
      SymbolStep(h, price, dec).1 == OpenRule(Flat, dec, price)
    ensures IsOpen(h) && dec.Some? && !Opposes(dec.value, h) ==> SymbolStep(h, price, dec).1 == h
    ensures h.pos == 0.0 && dec.Some? && dec.value.side == Buy ==>
      SymbolStep(h, price, dec).1 == Holding(dec.value.size, Some(price * (1.0 + Slippage)))
    ensures h.pos == 0.0 && dec.Some? && dec.value.side == Sell ==>
      SymbolStep(h, price, dec).1 == Holding(-dec.value.size, Some(price * (1.0 - Slippage)))
    ensures h.pos == 0.0 && dec.None? ==> SymbolStep(h, price, dec).1 == h
  {
    var next := OpenRule(CloseRule(h, dec), dec, price);
    assert SymbolStep(h, price, dec).1 == next;
    if h.pos == 0.0 {
      assert CloseRule(h, dec) == h;
    } else if IsOpen(h) && (dec.None? || Opposes(dec.value, h)) {
      assert CloseRule(h, dec) == Flat;
    } else {
      assert CloseRule(h, dec) == h;
    }
  }

  /** The mark-to-market of a long is its return net of costs; a short earns the opposite. */
  lemma MarkToMarketSign(h: Holding, price: real)
    requires HoldingOk(h) && IsOpen(h)
    ensures h.pos > 0.0 ==> MarkToMarket(h, price) == (price / h.entry.value - 1.0 - Fee - Slippage) * h.pos
    ensures h.pos < 0.0 ==> MarkToMarket(h, price) == (1.0 - price / h.entry.value - Fee - Slippage) * -h.pos
    ensures h.pos > 0.0 && price <= h.entry.value ==> MarkToMarket(h, price) < 0.0
  {
    if h.pos > 0.0 && price <= h.entry.value {
      QuotientVersusOne(price, h.entry.value);
      MulSign(price / h.entry.value - 1.0 - Fee - Slippage, h.pos);
    }
  }

  // ---------------------------------------------------------------- one bar across the tradables

  /** One tradable symbol's input on a bar: its last close and the decision for it. */
  datatype SymbolBar = SymbolBar(symbol: string, price: real, decision: Option<OrderDecision>)

  predicate BookOk(book: map<string, Holding>) {
    forall s :: s in book ==> HoldingOk(book[s])
  }

  predicate BarOk(book: map<string, Holding>, items: seq<SymbolBar>) {
    forall i :: 0 <= i < |items| ==> items[i].symbol in book && items[i].price > 0.0
  }

  /** The bar's P&L step and the book after processing the tradables in order. */
  function BarFold(book: map<string, Holding>, items: seq<SymbolBar>): (r: (real, map<string, Holding>))
    requires BookOk(book) && BarOk(book, items)
    ensures BookOk(r.1) && r.1.Keys == book.Keys
    decreases |items|
  {
    if |items| == 0 then (0.0, book)
    else
      var pre := items[..|items| - 1];
      assert BarOk(book, pre) by {
        forall i | 0 <= i < |pre| ensures pre[i] == items[i] { }
      }
      var (step, b) := BarFold(book, pre);
      var it := items[|items| - 1];
      SymbolStepKeepsOk(b[it.symbol], it.price, it.decision);
      var (pnl, h) := SymbolStep(b[it.symbol], it.price, it.decision);
      (step + pnl, b[it.symbol := h])
  }

  /** A symbol that is not among the bar's tradables keeps its holding. */
  lemma {:induction false} BarFoldOthers(book: map<string, Holding>, items: seq<SymbolBar>, s: string)
    requires BookOk(book) && BarOk(book, items) && s in book
    requires forall i :: 0 <= i < |items| ==> items[i].symbol != s
    ensures BarFold(book, items).1[s] == book[s]
    decreases |items|
  {
    if |items| > 0 {
      var pre := items[..|items| - 1];
      assert BarOk(book, pre) by {
        forall i | 0 <= i < |pre| ensures pre[i] == items[i] { }
      }
      BarFoldOthers(book, pre, s);
    }
  }

  /** Processing one more tradable: its mark-to-market joins the step and its holding is replaced. */
  lemma BarFoldSnoc(book: map<string, Holding>, items: seq<SymbolBar>, i: int)
    requires BookOk(book) && BarOk(book, items) && 0 <= i < |items|
    ensures BarOk(book, items[..i]) && BarOk(book, items[..i + 1])
    ensures var b := BarFold(book, items[..i]).1;
      var it := items[i];
      BarFold(book, items[..i + 1]).0 == BarFold(book, items[..i]).0 + MarkToMarket(b[it.symbol], it.price) &&
      BarFold(book, items[..i + 1]).1 == b[it.symbol := OpenRule(CloseRule(b[it.symbol], it.decision), it.decision, it.price)]
  {
    assert forall j :: 0 <= j < i + 1 ==> items[..i + 1][j] == items[j];
    assert items[..i + 1][..i] == items[..i];
  }

  /** Lines 68 and 71-115: the tradables loop, accumulating `pnl_step` and updating `state`. */
  method ProcessBar(book: map<string, Holding>, items: seq<SymbolBar>) returns (pnlStep: real, next: map<string, Holding>)
    requires BookOk(book) && BarOk(book, items)
    ensures (pnlStep, next) == BarFold(book, items)
    ensures BookOk(next) && next.Keys == book.Keys
  {
    pnlStep := 0.0;
    next := book;
    var i := 0;
    while i < |items|
      invariant 0 <= i <= |items|
      invariant BarOk(book, items[..i])
      invariant pnlStep == BarFold(book, items[..i]).0 && next == BarFold(book, items[..i]).1
    {
      BarFoldSnoc(book, items, i);
      var it := items[i];
      var h := next[it.symbol];
      pnlStep := pnlStep + MarkToMarket(h, it.price);
      h := CloseRule(h, it.decision);
      h := OpenRule(h, it.decision, it.price);
      next := next[it.symbol := h];
      i := i + 1;
    }
    assert items[..i] == items;
  }

  // ---------------------------------------------------------------- equity compounding

  /** The equity reached so far: the last point of the curve, or the start before any bar. */
  function Last(equity0: real, curve: seq<real>): real {
    if |curve| == 0 then equity0 else curve[|curve| - 1]
  }

  /** Line 118: one bar compounds the equity by its step. */
  function Grow(equity: real, step: real): real {
    equity * (1.0 + step)
  }

  /** Line 118, bar after bar: the equity after each step, starting from `equity0`. */
  function EquityCurve(equity0: real, steps: seq<real>): (c: seq<real>)
    ensures |c| == |steps|
    decreases |steps|
  {
    if |steps| == 0 then []
    else
      var prev := EquityCurve(equity0, steps[..|steps| - 1]);
      prev + [Grow(Last(equity0, prev), steps[|steps| - 1])]
  }

  lemma EquityCurveSnoc(equity0: real, steps: seq<real>, x: real)
    ensures EquityCurve(equity0, steps + [x]) == EquityCurve(equity0, steps) + [Grow(Last(equity0, EquityCurve(equity0, steps)), x)]
  {
    var s := steps + [x];
    assert s[..|s| - 1] == steps;
    assert s[|s| - 1] == x;
  }

  /** Each point of the curve is the previous one (or the start) times 1 + that bar's step. */
  lemma {:induction false} EquityCurveStep(equity0: real, steps: seq<real>, i: int)
    requires 0 <= i < |steps|
    ensures EquityCurve(equity0, steps)[i] ==
      Grow(if i == 0 then equity0 else EquityCurve(equity0, steps)[i - 1], steps[i])
    decreases |steps|
  {
    if i < |steps| - 1 {
      var pre := steps[..|steps| - 1];
      EquityCurveStep(equity0, pre, i);
    }
  }

  /** Equity never turns negative while no step loses more than everything, and stays positive above -1. */
  lemma EquityCurveSign(equity0: real, steps: seq<real>)
    requires equity0 >= 0.0
    requires forall i :: 0 <= i < |steps| ==> steps[i] >= -1.0
    ensures forall i :: 0 <= i < |steps| ==> EquityCurve(equity0, steps)[i] >= 0.0
    ensures equity0 > 0.0 && (forall i :: 0 <= i < |steps| ==> steps[i] > -1.0) ==>
      forall i :: 0 <= i < |steps| ==> EquityCurve(equity0, steps)[i] > 0.0
  {
    EquityCurveNonNegative(equity0, steps);
    if equity0 > 0.0 && (forall i :: 0 <= i < |steps| ==> steps[i] > -1.0) {
      EquityCurvePositive(equity0, steps);
    }
  }

  lemma {:induction false} EquityCurveNonNegative(equity0: real, steps: seq<real>)
    requires equity0 >= 0.0
    requires forall i :: 0 <= i < |steps| ==> steps[i] >= -1.0
    ensures forall i :: 0 <= i < |steps| ==> EquityCurve(equity0, steps)[i] >= 0.0
    decreases |steps|
  {
    if |steps| > 0 {
      var pre := steps[..|steps| - 1];
      var x := steps[|steps| - 1];
      assert forall i :: 0 <= i < |pre| ==> pre[i] == steps[i];
      EquityCurveNonNegative(equity0, pre);
      var c := EquityCurve(equity0, pre);
      var last := Last(equity0, c);
      assert last >= 0.0;
      MulNonNegative(last, 1.0 + x);
      assert EquityCurve(equity0, steps) == c + [Grow(last, x)];
    }
  }

  /** A positive equity grown by a step above -1 stays positive. */
  lemma GrowPositive(equity: real, step: real)
    requires equity > 0.0 && step > -1.0
    ensures Grow(equity, step) > 0.0
  {
    MulSign(equity, 1.0 + step);
  }

  lemma {:induction false} EquityCurvePositive(equity0: real, steps: seq<real>)
    requires equity0 > 0.0
    requires forall i :: 0 <= i < |steps| ==> steps[i] > -1.0
    ensures forall i :: 0 <= i < |steps| ==> EquityCurve(equity0, steps)[i] > 0.0
    decreases |steps|
  {
    if |steps| > 0 {
      var pre := steps[..|steps| - 1];
      var x := steps[|steps| - 1];
      assert forall i :: 0 <= i < |pre| ==> pre[i] == steps[i];
      EquityCurvePositive(equity0, pre);
      var c := EquityCurve(equity0, pre);
      var last := Last(equity0, c);
      assert last > 0.0 && x > -1.0;
      GrowPositive(last, x);
      assert EquityCurve(equity0, steps) == c + [Grow(last, x)];
      forall i | 0 <= i < |steps| ensures EquityCurve(equity0, steps)[i] > 0.0 {
        if i < |c| {
          assert EquityCurve(equity0, steps)[i] == c[i];
        } else {
          assert EquityCurve(equity0, steps)[i] == Grow(last, x);
        }
      }
    }
  }

  /** Lines 118-119 over a run: compound each bar's step and record the curve. */
  method Compound(equity0: real, steps: seq<real>) returns (equity: real, curve: seq<real>)
    ensures curve == EquityCurve(equity0, steps)
    ensures equity == if |steps| == 0 then equity0 else curve[|curve| - 1]
  {
    equity := equity0;
    curve := [];
    var i := 0;
    while i < |steps|
      invariant 0 <= i <= |steps|
      invariant curve == EquityCurve(equity0, steps[..i])
      invariant equity == Last(equity0, curve)
    {
      assert steps[..i + 1] == steps[..i] + [steps[i]];
      EquityCurveSnoc(equity0, steps[..i], steps[i]);
      equity := Grow(equity, steps[i]);
      curve := curve + [equity];
      i := i + 1;
    }
    assert steps[..i] == steps;
  }
}
