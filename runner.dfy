/**
 * The decision, sizing and position-lifecycle logic of the live loop in runner.py: the
 * strength-to-probability map, the three-layer entry filter, the multi-timeframe net decision,
 * the expected-utility and Kelly sizing, the capacity loop that opens positions and the
 * stop-management loop that moves stops and closes positions.
 *
 * Market data reaches the model as values: each expert's signal per timeframe, the filter's
 * indicator values (EMA50, EMA200, ATR14, close, RSI) and, per symbol, the last 1h close and
 * ATR14. The clock is the `now` parameter. Whether a live order came back from the exchange is
 * the `liveFills` parameter of the capacity loop.
 */
module Runner {
  import opened Common
  import opened Market
  import opened Sizing
  import opened Risk
  import Broker

  // ---------------------------------------------------------------- probability, EU and Kelly

  /** `rr`, the reward-to-risk ratio of the EU filter and of the Kelly fraction. */
  const RewardRisk: real := 1.5

  /**
   * `strength_to_prob`: 0.46 + 0.2 * strength held within [0.45, 0.66]; for a strength in
   * [0, 1] neither bound is active.
   */
  function StrengthToProb(strength: real): (p: real)
    ensures 0.45 <= p <= 0.66
    ensures 0.0 <= strength <= 1.0 ==> p == 0.46 + 0.2 * strength
    ensures strength <= -0.05 ==> p == 0.45
    ensures strength >= 1.0 ==> p == 0.66
  {
    Max(0.45, Min(0.66, 0.46 + 0.2 * strength))
  }

  lemma StrengthToProbMonotone(s1: real, s2: real)
    requires s1 <= s2
    ensures StrengthToProb(s1) <= StrengthToProb(s2)
  {
  }

  /** `eu = p * rr - (1 - p)`. */
  function ExpectedUtility(p: real): real {
    p * RewardRisk - (1.0 - p)
  }

  /**
   * Since p is at least 0.45 and rr is 1.5, the expected utility is at least 0.125: the
   * `eu <= 0` filter never rejects a candidate.
   */
  lemma EuFilterNeverRejects(strength: real)
    ensures ExpectedUtility(StrengthToProb(strength)) >= 0.125
    ensures ExpectedUtility(StrengthToProb(strength)) <= 0.65
  {
  }

  /** `kelly_f = max(0, min(0.5, (p * R - (1 - p)) / max(1e-9, R)))`. */
  function KellyFraction(strength: real): (k: real)
    ensures 0.0 <= k <= 0.5
  {
    var p := StrengthToProb(strength);
    Max(0.0, Min(0.5, ExpectedUtility(p) / Max(0.000000001, RewardRisk)))
  }

  /**
   * Neither clamp of the Kelly fraction is ever active: it is the edge over the odds, strictly
   * positive and below 0.44.
   */
  lemma KellyIsEdgeOverOdds(strength: real)
    ensures KellyFraction(strength) == ExpectedUtility(StrengthToProb(strength)) / RewardRisk
    ensures 0.08 < KellyFraction(strength) < 0.44
  {
    EuFilterNeverRejects(strength);
  }

  lemma KellyMonotone(s1: real, s2: real)
    requires s1 <= s2
    ensures KellyFraction(s1) <= KellyFraction(s2)
  {
    StrengthToProbMonotone(s1, s2);
    KellyIsEdgeOverOdds(s1);
    KellyIsEdgeOverOdds(s2);
  }

  /** `qty *= (0.5 + kelly_f)`: the multiplier lies in [0.5, 1]. */
  function SizeMultiplier(strength: real): (m: real)
    ensures 0.5 <= m <= 1.0
  {
    0.5 + KellyFraction(strength)
  }

  // ---------------------------------------------------------------- the three-layer filter

  /**
   * What `pass_filters` reads from the 1h frame: its length, the last EMA50 and EMA200, the
   * last ATR14 (`None` when the column is missing), the last close and the last RSI (`None`
   * when it is NaN).
   */
  datatype FilterInputs = FilterInputs(bars: nat, ema50: real, ema200: real, atr: Option<real>, close: real, rsi: Option<real>)

  /** A missing ATR column reads as 0.0. */
  function AtrOf(f: FilterInputs): real {
    f.atr.GetOr(0.0)
  }

  /** A NaN RSI reads as 50. */
  function RsiOf(f: FilterInputs): real {
    f.rsi.GetOr(50.0)
  }

  /** `max(close, 1e-9)`, the divisor of the volatility ratio. */
  function CloseFloor(f: FilterInputs): (c: real)
    ensures c > 0.0
  {
    Max(f.close, 0.000000001)
  }

  predicate TrendOk(f: FilterInputs, direction: int) {
    (direction > 0 && f.ema50 > f.ema200) || (direction < 0 && f.ema50 < f.ema200)
  }

  predicate VolOk(f: FilterInputs) {
    0.01 <= AtrOf(f) / CloseFloor(f) <= 0.06
  }

  predicate MomOk(f: FilterInputs, direction: int) {
    (direction > 0 && RsiOf(f) >= 55.0) || (direction < 0 && RsiOf(f) <= 45.0)
  }

  /**
   * `pass_filters(df, direction)`: a missing frame or fewer than 50 bars fails; otherwise the
   * trend, volatility and momentum layers must all pass. A passing frame has the EMAs and the
   * RSI on the side of the direction and an ATR between 1% and 6% of the close; a NaN RSI
   * (read as 50) never passes.
   */
  function PassFilters(df: Option<FilterInputs>, direction: int): (ok: bool)
    ensures ok ==> df.Some? && df.value.bars >= 50 && direction != 0
    ensures ok && direction > 0 ==> df.value.ema50 > df.value.ema200 && RsiOf(df.value) >= 55.0
    ensures ok && direction < 0 ==> df.value.ema50 < df.value.ema200 && RsiOf(df.value) <= 45.0
    ensures ok ==> 0.01 * CloseFloor(df.value) <= AtrOf(df.value) <= 0.06 * CloseFloor(df.value)
    ensures df.Some? && df.value.rsi.None? ==> !ok
  {
    if df.None? || df.value.bars < 50 then false
    else
      var f := df.value;
      QuotientCompare(AtrOf(f), CloseFloor(f), 0.01);
      QuotientCompare(AtrOf(f), CloseFloor(f), 0.06);
      TrendOk(f, direction) && VolOk(f) && MomOk(f, direction)
  }

  /** The converse: a long frame meeting every layer passes (a short one mirrors it). */
  lemma PassFiltersComplete(f: FilterInputs, direction: int)
    requires f.bars >= 50 && direction != 0
    requires direction > 0 ==> f.ema50 > f.ema200 && RsiOf(f) >= 55.0
    requires direction < 0 ==> f.ema50 < f.ema200 && RsiOf(f) <= 45.0
    requires 0.01 * CloseFloor(f) <= AtrOf(f) <= 0.06 * CloseFloor(f)
    ensures PassFilters(Some(f), direction)
  {
    QuotientCompare(AtrOf(f), CloseFloor(f), 0.01);
    QuotientCompare(AtrOf(f), CloseFloor(f), 0.06);
  }

  // ---------------------------------------------------------------- multi-timeframe decision

  /** Line 178: the sum of direction * clip(strength, 0, 1) over one timeframe's signals. */
  function TfNet(sigs: seq<Signal>): real
    decreases |sigs|
  {
    if |sigs| == 0 then 0.0
    else
      var s := sigs[|sigs| - 1];
      TfNet(sigs[..|sigs| - 1]) + (s.direction as real) * Clip(s.strength, 0.0, 1.0)
  }

  predicate DirectionsOk(sigs: seq<Signal>) {
    forall i :: 0 <= i < |sigs| ==> DirectionOk(sigs[i].direction)
  }

  /** With directions in {-1, 0, 1} each signal moves a timeframe's net by at most 1. */
  lemma {:induction false} TfNetBounded(sigs: seq<Signal>)
    requires DirectionsOk(sigs)
    ensures Abs(TfNet(sigs)) <= |sigs| as real
    decreases |sigs|
  {
    if |sigs| > 0 {
      var pre := sigs[..|sigs| - 1];
      assert DirectionsOk(pre) by {
        forall i | 0 <= i < |pre| ensures pre[i] == sigs[i] { }
      }
      TfNetBounded(pre);
    }
  }

  /** Signals that are all neutral in direction add up to a zero net. */
  lemma {:induction false} TfNetNeutral(sigs: seq<Signal>)
    requires forall i :: 0 <= i < |sigs| ==> sigs[i].direction == 0
    ensures TfNet(sigs) == 0.0
    decreases |sigs|
  {
    if |sigs| > 0 {
      TfNetNeutral(sigs[..|sigs| - 1]);
    }
  }

  /** Line 179: the 15m, 30m and 1h nets weighted 0.3, 0.3 and 0.4. */
  function Combined(s15: seq<Signal>, s30: seq<Signal>, s1h: seq<Signal>): real {
    0.3 * TfNet(s15) + 0.3 * TfNet(s30) + 0.4 * TfNet(s1h)
  }

  /** Lines 180-181: the combined net through the +-0.05 band. */
  function CombinedDecision(s15: seq<Signal>, s30: seq<Signal>, s1h: seq<Signal>): Decision {
    Decide(Combined(s15, s30, s1h))
  }

  /** The combined net is bounded by the weighted signal counts. */
  lemma CombinedBounded(s15: seq<Signal>, s30: seq<Signal>, s1h: seq<Signal>)
    requires DirectionsOk(s15) && DirectionsOk(s30) && DirectionsOk(s1h)
    ensures Abs(Combined(s15, s30, s1h)) <= 0.3 * |s15| as real + 0.3 * |s30| as real + 0.4 * |s1h| as real
  {
    TfNetBounded(s15);
    TfNetBounded(s30);
    TfNetBounded(s1h);
  }

  /** When every expert on every timeframe is neutral the decision is flat. */
  lemma AllNeutralIsFlat(s15: seq<Signal>, s30: seq<Signal>, s1h: seq<Signal>)
    requires forall i :: 0 <= i < |s15| ==> s15[i].direction == 0
    requires forall i :: 0 <= i < |s30| ==> s30[i].direction == 0
    requires forall i :: 0 <= i < |s1h| ==> s1h[i].direction == 0
    ensures CombinedDecision(s15, s30, s1h).direction == 0
  {
    TfNetNeutral(s15);
    TfNetNeutral(s30);
    TfNetNeutral(s1h);
  }

  // ---------------------------------------------------------------- candidates

  /** `(eu, s, direction, strength)`. */
  datatype Candidate = Candidate(eu: real, symbol: string, direction: int, strength: real)

  /** One usable symbol's inputs: the experts' signals per timeframe and the 1h filter values. */
  datatype SymbolInputs = SymbolInputs(symbol: string, s15: seq<Signal>, s30: seq<Signal>, s1h: seq<Signal>,
                                       filters: Option<FilterInputs>)

  /**
   * Lines 178-192 for one symbol: a flat decision or a failing filter gives no candidate; the
   * EU filter never rejects, so every other symbol becomes a candidate carrying its decision.
   */
  function CandidateOf(x: SymbolInputs): (c: Option<Candidate>)
    ensures c.None? <==>
      CombinedDecision(x.s15, x.s30, x.s1h).direction == 0 ||
      !PassFilters(x.filters, CombinedDecision(x.s15, x.s30, x.s1h).direction)
    ensures c.Some? ==>
      c.value.symbol == x.symbol &&
      c.value.direction == CombinedDecision(x.s15, x.s30, x.s1h).direction &&
      c.value.strength == CombinedDecision(x.s15, x.s30, x.s1h).strength &&
      c.value.eu == ExpectedUtility(StrengthToProb(c.value.strength)) && c.value.eu > 0.0
  {
    var d := CombinedDecision(x.s15, x.s30, x.s1h);
    if d.direction == 0 || !PassFilters(x.filters, d.direction) then None
    else
      var eu := ExpectedUtility(StrengthToProb(d.strength));
      EuFilterNeverRejects(d.strength);
      if eu <= 0.0 then None else Some(Candidate(eu, x.symbol, d.direction, d.strength))
  }

  /** The candidate list of the usable symbols, in their order. */
  function CandidatesOf(xs: seq<SymbolInputs>): seq<Candidate>
    decreases |xs|
  {
    if |xs| == 0 then []
    else
      var c := CandidateOf(xs[|xs| - 1]);
      CandidatesOf(xs[..|xs| - 1]) + (if c.Some? then [c.value] else [])
  }

  /** Every candidate has a direction of +-1, a strength in (0.05, 1] and a positive EU. */
  lemma {:induction false} CandidatesShape(xs: seq<SymbolInputs>)
    ensures forall i :: 0 <= i < |CandidatesOf(xs)| ==>
      (CandidatesOf(xs)[i].direction == 1 || CandidatesOf(xs)[i].direction == -1) &&
      0.05 < CandidatesOf(xs)[i].strength <= 1.0 && CandidatesOf(xs)[i].eu > 0.0
    decreases |xs|
  {
    if |xs| > 0 {
      var x := xs[|xs| - 1];
      CandidatesShape(xs[..|xs| - 1]);
      DecideStrength(Combined(x.s15, x.s30, x.s1h));
    }
  }

  /** Lines 160-192: the candidate loop over the usable symbols. */
  method CollectCandidates(xs: seq<SymbolInputs>) returns (cands: seq<Candidate>)
    ensures cands == CandidatesOf(xs)
    ensures |cands| <= |xs|
  {
    cands := [];
    var i := 0;
    while i < |xs|
      invariant 0 <= i <= |xs|
      invariant cands == CandidatesOf(xs[..i])
      invariant |cands| <= i
    {
      assert xs[..i + 1][..i] == xs[..i];
      var d := CombinedDecision(xs[i].s15, xs[i].s30, xs[i].s1h);
      if d.direction != 0 && PassFilters(xs[i].filters, d.direction) {
        var p := StrengthToProb(d.strength);
        var eu := p * RewardRisk - (1.0 - p);
        if eu > 0.0 {
          cands := cands + [Candidate(eu, xs[i].symbol, d.direction, d.strength)];
        }
      }
      i := i + 1;
    }
    assert xs[..i] == xs;
  }

  // ---------------------------------------------------------------- risk fraction and quantity

  /** `max(1, dyn_max_positions - len(open_positions))`. */
  function SlotsRemaining(dynMaxPositions: int, openCount: int): (n: int)
    ensures n >= 1 && n >= dynMaxPositions - openCount
    ensures n == 1 || n == dynMaxPositions - openCount
  {
    if dynMaxPositions - openCount >= 1 then dynMaxPositions - openCount else 1
  }

  /**
   * Lines 216-217: the per-trade fraction is the smaller of the tier's risk per trade and the
   * day's risk budget spread over the remaining slots, so filling every remaining slot at it
   * stays within the day's budget.
   */
  function RiskFraction(dynRisk: real, maxRiskPerDay: real, dynMaxPositions: int, openCount: int): (f: real)
    ensures f <= dynRisk
    ensures f <= maxRiskPerDay / SlotsRemaining(dynMaxPositions, openCount) as real
    ensures f * SlotsRemaining(dynMaxPositions, openCount) as real <= maxRiskPerDay
    ensures f == dynRisk || f == maxRiskPerDay / SlotsRemaining(dynMaxPositions, openCount) as real
  {
    var n := SlotsRemaining(dynMaxPositions, openCount) as real;
    var f := Min(dynRisk, maxRiskPerDay / n);
    QuotientCompare(maxRiskPerDay, n, f);
    assert f * n <= maxRiskPerDay;
    f
  }

  /** Lines 219-224: the risk-sized quantity (contract multiplier 1) times the Kelly multiplier. */
  function RiskQuantity(equity: real, fraction: real, price: real, sl: real, strength: real): real {
    var q := PositionSizeByRisk(equity, fraction, price, sl, 1.0);
    q.value * SizeMultiplier(strength)
  }

  lemma ScaledLoss(q: real, d: real, m: real, budget: real)
    requires q * d == budget && budget >= 0.0 && 0.5 <= m <= 1.0
    ensures (q * m) * d == budget * m
    ensures 0.5 * budget <= (q * m) * d <= budget
  {
    assert (q * m) * d == (q * d) * m;
    assert (q * m) * d == budget * m;
    MulMonotone(m, 1.0, budget);
    MulMonotone(0.5, m, budget);
    assert m * budget == budget * m;
  }

  /**
   * Stopped out, the quantity loses at most equity * fraction and, unless the stop sits on the
   * price, at least half of it: the Kelly multiplier only scales the risk down.
   */
  lemma RiskQuantityStopLoss(equity: real, fraction: real, price: real, sl: real, strength: real)
    requires equity >= 0.0 && fraction >= 0.0
    ensures RiskQuantity(equity, fraction, price, sl, strength) >= 0.0
    ensures RiskQuantity(equity, fraction, price, sl, strength) * Abs(price - sl) <= equity * fraction
    ensures Abs(price - sl) > MinStopDistance ==>
      0.5 * (equity * fraction) <= RiskQuantity(equity, fraction, price, sl, strength) * Abs(price - sl)
  {
    SizeNonNegative(equity, fraction, price, sl, 1.0);
    MulNonNegative(equity, fraction);
    var q := PositionSizeByRisk(equity, fraction, price, sl, 1.0).value;
    var m := SizeMultiplier(strength);
    var d := Abs(price - sl);
    assert RiskQuantity(equity, fraction, price, sl, strength) == q * m;
    MulNonNegative(q, m);
    if d > MinStopDistance {
      assert q * d * 1.0 == equity * fraction;
      ScaledLoss(q, d, m, equity * fraction);
    } else {
      assert q == 0.0;
    }
  }

  /** One candidate's opening plan: its side, levels, fraction, quantity and rounded notional. */
  datatype Plan = Plan(side: int, levels: Levels, fraction: real, qty: real, rounded: real, notional: real)

  /** `1` for a buy and `-1` for a sell. */
  function SideOf(direction: int): int {
    if direction > 0 then 1 else -1
  }

  /** Lines 208-231 for a candidate when `openCount` positions are open. */
  function PlanOf(c: Candidate, price: real, atr: real, markets: map<string, Broker.MarketInfo>, equity: real,
                  dynRisk: real, maxRiskPerDay: real, dynMaxPositions: int, openCount: int): Plan
  {
    var side := SideOf(c.direction);
    var lv := ComputeSlTp(price, atr, 2.0, 1.5, 2.5, side);
    var f := RiskFraction(dynRisk, maxRiskPerDay, dynMaxPositions, openCount);
    var qty := RiskQuantity(equity, f, price, lv.sl, c.strength);
    var rounded := Broker.RoundedAmount(markets, c.symbol, qty);
    Plan(side, lv, f, qty, rounded, rounded * price)
  }

  /**
   * Before rounding, the quantity's stop-out loss is within equity times the tier's risk per
   * trade and, over every remaining slot, within equity times the day's risk budget.
   */
  lemma SizingRiskBound(equity: real, dynRisk: real, maxRiskPerDay: real, dynMaxPositions: int, openCount: int,
                        price: real, sl: real, strength: real)
    requires equity >= 0.0 && dynRisk >= 0.0 && maxRiskPerDay >= 0.0
    ensures var q := RiskQuantity(equity, RiskFraction(dynRisk, maxRiskPerDay, dynMaxPositions, openCount), price, sl, strength);
      q >= 0.0 &&
      q * Abs(price - sl) <= equity * dynRisk &&
      q * Abs(price - sl) * SlotsRemaining(dynMaxPositions, openCount) as real <= equity * maxRiskPerDay
  {
    var f := RiskFraction(dynRisk, maxRiskPerDay, dynMaxPositions, openCount);
    var n := SlotsRemaining(dynMaxPositions, openCount) as real;
    QuotientVersusOne(maxRiskPerDay, n);
    SizingBoundFor(equity, f, dynRisk, maxRiskPerDay, n, price, sl, strength);
  }

  /** The same bound for any fraction within the tier's risk that spreads the day's budget over n slots. */
  lemma SizingBoundFor(equity: real, f: real, dynRisk: real, maxRiskPerDay: real, n: real,
                       price: real, sl: real, strength: real)
    requires equity >= 0.0 && 0.0 <= f <= dynRisk && n >= 1.0 && f * n <= maxRiskPerDay
    ensures var q := RiskQuantity(equity, f, price, sl, strength);
      q >= 0.0 && q * Abs(price - sl) <= equity * dynRisk && q * Abs(price - sl) * n <= equity * maxRiskPerDay
  {
    RiskQuantityStopLoss(equity, f, price, sl, strength);
    var q := RiskQuantity(equity, f, price, sl, strength);
    FractionLossBound(equity, f, dynRisk, maxRiskPerDay, n, q * Abs(price - sl));
  }

  /** A loss within equity * f stays within both budgets that f respects. */
  lemma FractionLossBound(equity: real, f: real, dynRisk: real, maxRiskPerDay: real, n: real, loss: real)
    requires equity >= 0.0 && 0.0 <= f <= dynRisk && n >= 1.0 && f * n <= maxRiskPerDay
    requires 0.0 <= loss <= equity * f
    ensures loss <= equity * dynRisk
    ensures loss * n <= equity * maxRiskPerDay
  {
    MulMonotone(f, dynRisk, equity);
    assert f * equity == equity * f && dynRisk * equity == equity * dynRisk;
    MulMonotone(loss, equity * f, n);
    assert equity * f * n == equity * (f * n);
    MulMonotone(f * n, maxRiskPerDay, equity);
    assert (f * n) * equity == equity * (f * n) && maxRiskPerDay * equity == equity * maxRiskPerDay;
  }

  // ---------------------------------------------------------------- stop management

  /** `1` for a long and `-1` for a short. */
  function SideSign(pos: real): int {
    if pos > 0.0 then 1 else -1
  }

  /**
   * Lines 268-271: once the move in favour reaches one R (the current stop's distance from
   * the entry) the stop goes to the entry.
   */
  function Breakeven(entry: real, sl: real, r: real): (s: real)
    ensures s == entry || s == sl
    ensures s != sl <==> Abs(entry - sl) > 0.0 && r >= Abs(entry - sl)
  {
    var oneR := Abs(entry - sl);
    if oneR > 0.0 && r >= oneR && sl != entry then entry else sl
  }

  /**
   * Lines 273-280: from 1.5 R in favour the stop trails 1.2 ATR behind the price, a long's
   * taking the higher and a short's the lower of the two stops, so trailing never loosens.
   */
  function Trail(sl: real, price: real, atr: real, side: int, r: real, oneR: real): (s: real)
    ensures r < oneR * 1.5 ==> s == sl
    ensures side > 0 ==> s >= sl
    ensures side <= 0 ==> s <= sl
    ensures r >= oneR * 1.5 ==> s == sl || s == price - (side as real) * (1.2 * atr)
  {
    if r >= oneR * 1.5 then
      var newSl := price - (side as real) * (1.2 * atr);
      if side > 0 then Max(sl, newSl) else Min(sl, newSl)
    else sl
  }

  /** Lines 282-290: a long exits at or below its stop or at or above tp2; a short mirrors it. */
  predicate ExitNow(side: int, price: real, sl: real, tp2: real) {
    (side > 0 && price <= sl) || (side < 0 && price >= sl) ||
    (side > 0 && price >= tp2) || (side < 0 && price <= tp2)
  }

  /** The outcome of one symbol's management step: its stop, whether it exits, and its P&L if so. */
  datatype Managed = Managed(sl: real, exit: bool, pnl: real)

  /** Lines 261-296 for one open symbol. */
  function ManageStep(entry: real, sl: real, tp2: real, pos: real, price: real, atr: real): (m: Managed)
    ensures pos > 0.0 ==> (m.exit <==> price <= m.sl || price >= tp2)
    ensures pos <= 0.0 ==> (m.exit <==> price >= m.sl || price <= tp2)
  {
    var side := SideSign(pos);
    var r := (price - entry) * side as real;
    var oneR := Abs(entry - sl);
    var sl1 := Breakeven(entry, sl, r);
    var sl2 := Trail(sl1, price, atr, side, r, oneR);
    Managed(sl2, ExitNow(side, price, sl2, tp2), ClosePnl(entry, pos, price))
  }

  /** Line 296: the realised P&L of closing `pos` at `price`, (price - entry) * side * |pos|. */
  function ClosePnl(entry: real, pos: real, price: real): real {
    (price - entry) * SideSign(pos) as real * Abs(pos)
  }

  /**
   * While a long's stop is at or below its entry (a short's at or above) one management step
   * never loosens it: the break-even move goes to the entry and trailing only tightens.
   */
  lemma StopTightensFromLossSide(entry: real, sl: real, tp2: real, pos: real, price: real, atr: real)
    ensures pos > 0.0 && sl <= entry ==> ManageStep(entry, sl, tp2, pos, price, atr).sl >= sl
    ensures pos <= 0.0 && sl >= entry ==> ManageStep(entry, sl, tp2, pos, price, atr).sl <= sl
  {
  }

  /**
   * The stop is not monotone across cycles: a long entered at 100 whose stop has trailed to
   * 105 sees the price at 106, one R (now 5) in favour, and the break-even rule puts the stop
   * back to 100 while the position stays open.
   */
  lemma StopCanLoosenAcrossCycles()
    ensures var m := ManageStep(100.0, 105.0, 120.0, 1.0, 106.0, 1.0);
      m.sl == 100.0 && m.sl < 105.0 && !m.exit
  {
  }

  /** The realised P&L is positive exactly when the price moved in the position's favour. */
  lemma ClosePnlSign(entry: real, sl: real, tp2: real, pos: real, price: real, atr: real)
    requires pos != 0.0
    ensures ManageStep(entry, sl, tp2, pos, price, atr).pnl > 0.0 <==> (price - entry) * (SideSign(pos) as real) > 0.0
  {
    assert ManageStep(entry, sl, tp2, pos, price, atr).pnl == ClosePnl(entry, pos, price);
    ClosePnlSignOf(entry, pos, price);
  }

  lemma ClosePnlSignOf(entry: real, pos: real, price: real)
    requires pos != 0.0
    ensures ClosePnl(entry, pos, price) > 0.0 <==> (price - entry) * (SideSign(pos) as real) > 0.0
  {
    var u := (price - entry) * (SideSign(pos) as real);
    assert ClosePnl(entry, pos, price) == u * Abs(pos);
    MulSign(u, Abs(pos));
  }

  // ---------------------------------------------------------------- the symbol book

  /** `state[s]`: entry, signed position, stop and the two targets. */
  datatype Slot = Slot(entry: Option<real>, pos: real, sl: Option<real>, tp1: Option<real>, tp2: Option<real>)

  const FlatSlot := Slot(None, 0.0, None, None, None)

  /** An open slot carries the entry, stop and second target the management step reads. */
  predicate SlotOk(s: Slot) {
    s.pos != 0.0 ==> s.entry.Some? && s.sl.Some? && s.tp2.Some?
  }

  predicate StateOk(state: map<string, Slot>) {
    forall s :: s in state ==> SlotOk(state[s])
  }

  /** The last 1h close and ATR14 of a symbol. */
  datatype Quote = Quote(price: real, atr: real)

  /** Line 199: the symbols with a non-zero position, in the order of `symbols`. */
  function OpenSymbols(symbols: seq<string>, state: map<string, Slot>): (r: seq<string>)
    requires forall i :: 0 <= i < |symbols| ==> symbols[i] in state
    ensures forall s :: s in r <==> s in symbols && state[s].pos != 0.0
    ensures forall i :: 0 <= i < |r| ==> r[i] in state && state[r[i]].pos != 0.0
    ensures |r| <= |symbols|
    decreases |symbols|
  {
    if |symbols| == 0 then []
    else
      var s := symbols[|symbols| - 1];
      OpenSymbols(symbols[..|symbols| - 1], state) + (if state[s].pos != 0.0 then [s] else [])
  }

  /** Line 199's list comprehension: the symbols whose slot holds a non-zero position, in order. */
  method CollectOpen(symbols: seq<string>, state: map<string, Slot>) returns (open: seq<string>)
    requires AllIn(symbols, state)
    ensures open == OpenSymbols(symbols, state)
  {
    open := [];
    var i := 0;
    while i < |symbols|
      invariant 0 <= i <= |symbols|
      invariant AllIn(symbols[..i], state)
      invariant open == OpenSymbols(symbols[..i], state)
    {
      OpenSymbolsSnoc(symbols, state, i);
      if state[symbols[i]].pos != 0.0 {
        open := open + [symbols[i]];
      }
      i := i + 1;
    }
    assert symbols[..i] == symbols;
  }

  /** Every symbol of the list has a slot. */
  predicate AllIn(xs: seq<string>, state: map<string, Slot>) {
    forall j :: 0 <= j < |xs| ==> xs[j] in state
  }

  /** One more symbol of the list adds it to the open symbols exactly when its position is non-zero. */
  lemma OpenSymbolsSnoc(symbols: seq<string>, state: map<string, Slot>, i: int)
    requires AllIn(symbols, state) && 0 <= i < |symbols|
    ensures AllIn(symbols[..i], state) && AllIn(symbols[..i + 1], state)
    ensures OpenSymbols(symbols[..i + 1], state) ==
      OpenSymbols(symbols[..i], state) + (if state[symbols[i]].pos != 0.0 then [symbols[i]] else [])
  {
    assert symbols[..i + 1][..i] == symbols[..i];
    assert forall j :: 0 <= j < i + 1 ==> symbols[..i + 1][j] == symbols[j];
  }

  predicate NoDuplicates(xs: seq<string>) {
    forall i, j :: 0 <= i < j < |xs| ==> xs[i] != xs[j]
  }

  /** Distinct symbols give a list of open symbols without repeats. */
  lemma {:induction false} OpenSymbolsDistinct(symbols: seq<string>, state: map<string, Slot>)
    requires forall i :: 0 <= i < |symbols| ==> symbols[i] in state
    requires NoDuplicates(symbols)
    ensures NoDuplicates(OpenSymbols(symbols, state))
    decreases |symbols|
  {
    if |symbols| > 0 {
      var pre := symbols[..|symbols| - 1];
      var s := symbols[|symbols| - 1];
      assert NoDuplicates(pre);
      OpenSymbolsDistinct(pre, state);
      assert s !in pre;
    }
  }

  /** `list.remove(s)` with the ValueError ignored: the first occurrence goes, if any. */
  function RemoveFirst(xs: seq<string>, s: string): (r: seq<string>)
    ensures s !in xs ==> r == xs
    ensures s in xs ==> |r| == |xs| - 1
    ensures multiset(r) == multiset(xs) - multiset{s}
    ensures forall t :: t in r ==> t in xs
    decreases |xs|
  {
    if |xs| == 0 then []
    else
      assert xs == [xs[0]] + xs[1..];
      if xs[0] == s then xs[1..] else [xs[0]] + RemoveFirst(xs[1..], s)
  }

  /** Without repeats, the removed symbol is gone from the list. */
  lemma {:induction false} RemoveFirstGone(xs: seq<string>, s: string)
    requires NoDuplicates(xs)
    ensures s !in RemoveFirst(xs, s)
    decreases |xs|
  {
    if |xs| > 0 {
      var tail := xs[1..];
      assert NoDuplicates(tail) by {
        forall i, j | 0 <= i < j < |tail| ensures tail[i] != tail[j] {
          assert tail[i] == xs[i + 1] && tail[j] == xs[j + 1];
        }
      }
      if xs[0] == s {
        assert forall j :: 0 <= j < |tail| ==> tail[j] == xs[j + 1];
      } else {
        RemoveFirstGone(tail, s);
      }
    }
  }

  /** The book the management loop updates: the slots, the open list and the realised P&L. */
  datatype Book = Book(state: map<string, Slot>, open: seq<string>, realized: real)

  predicate Covered(b: Book, todo: seq<string>, quotes: map<string, Quote>) {
    StateOk(b.state) && forall i :: 0 <= i < |todo| ==> todo[i] in b.state && todo[i] in quotes
  }

  /**
   * One iteration of lines 258-306: a flat slot is skipped; otherwise the stop moves and, on
   * an exit, the P&L is realised, the slot goes flat and the symbol leaves the open list.
   */
  function ManageOne(b: Book, s: string, quotes: map<string, Quote>): (r: Book)
    requires StateOk(b.state) && s in b.state && s in quotes
    ensures StateOk(r.state) && r.state.Keys == b.state.Keys
    ensures forall t :: t in b.state && t != s ==> r.state[t] == b.state[t]
  {
    var slot := b.state[s];
    if slot.pos == 0.0 then b
    else
      var q := quotes[s];
      var m := ManageStep(slot.entry.value, slot.sl.value, slot.tp2.value, slot.pos, q.price, q.atr);
      if m.exit then Book(b.state[s := FlatSlot], RemoveFirst(b.open, s), b.realized + m.pnl)
      else Book(b.state[s := slot.(sl := Some(m.sl))], b.open, b.realized)
  }

  /** An exit realises the step's P&L, flattens the slot and takes the symbol off the open list. */
  lemma ManageOneExit(b: Book, s: string, quotes: map<string, Quote>)
    requires StateOk(b.state) && s in b.state && s in quotes && b.state[s].pos != 0.0
    requires NoDuplicates(b.open)
    ensures var slot := b.state[s];
      var m := ManageStep(slot.entry.value, slot.sl.value, slot.tp2.value, slot.pos, quotes[s].price, quotes[s].atr);
      var r := ManageOne(b, s, quotes);
      (m.exit ==> r.state[s] == FlatSlot && s !in r.open && r.realized == b.realized + m.pnl) &&
      (!m.exit ==> r.state[s].pos == b.state[s].pos && r.state[s].entry == b.state[s].entry &&
                   r.state[s].sl == Some(m.sl) && r.open == b.open && r.realized == b.realized)
  {
    RemoveFirstGone(b.open, s);
  }

  /** ManageOne on an open slot, with the quote of the managed symbol alone. */
  lemma ManageOneOpen(b: Book, s: string, quote: Quote)
    requires StateOk(b.state) && s in b.state && b.state[s].pos != 0.0
    ensures var slot := b.state[s];
      var m := ManageStep(slot.entry.value, slot.sl.value, slot.tp2.value, slot.pos, quote.price, quote.atr);
      ManageOne(b, s, map[s := quote]) ==
        if m.exit then Book(b.state[s := FlatSlot], RemoveFirst(b.open, s), b.realized + m.pnl)
        else Book(b.state[s := slot.(sl := Some(m.sl))], b.open, b.realized)
  {
    assert map[s := quote][s] == quote;
  }

  /** The whole management loop over the snapshot `todo` of the open list. */
  function ManageAll(b: Book, todo: seq<string>, quotes: map<string, Quote>): (r: Book)
    requires Covered(b, todo, quotes)
    ensures StateOk(r.state) && r.state.Keys == b.state.Keys
    decreases |todo|
  {
    if |todo| == 0 then b
    else
      var pre := todo[..|todo| - 1];
      assert Covered(b, pre, quotes) by {
        forall i | 0 <= i < |pre| ensures pre[i] == todo[i] { }
      }
      ManageOne(ManageAll(b, pre, quotes), todo[|todo| - 1], quotes)
  }

  lemma ManageAllSnoc(b: Book, todo: seq<string>, i: int, quotes: map<string, Quote>)
    requires Covered(b, todo, quotes) && 0 <= i < |todo|
    ensures Covered(b, todo[..i], quotes) && Covered(b, todo[..i + 1], quotes)
    ensures ManageAll(b, todo[..i + 1], quotes) == ManageOne(ManageAll(b, todo[..i], quotes), todo[i], quotes)
  {
    assert forall j :: 0 <= j < i + 1 ==> todo[..i + 1][j] == todo[j];
    assert todo[..i + 1][..i] == todo[..i];
  }

  /** Only the quote of the managed symbol matters. */
  lemma ManageOneQuotes(b: Book, s: string, quotes: map<string, Quote>)
    requires StateOk(b.state) && s in b.state && s in quotes
    ensures ManageOne(b, s, quotes) == ManageOne(b, s, map[s := quotes[s]])
  {
  }

  /** Symbols outside the snapshot keep their slots; the open list only loses entries. */
  lemma {:induction false} ManageAllFrame(b: Book, todo: seq<string>, quotes: map<string, Quote>, t: string)
    requires Covered(b, todo, quotes) && t in b.state && t !in todo
    ensures ManageAll(b, todo, quotes).state[t] == b.state[t]
    ensures multiset(ManageAll(b, todo, quotes).open) <= multiset(b.open)
    decreases |todo|
  {
    if |todo| > 0 {
      var pre := todo[..|todo| - 1];
      assert Covered(b, pre, quotes) by {
        forall i | 0 <= i < |pre| ensures pre[i] == todo[i] { }
      }
      assert t !in pre;
      ManageAllFrame(b, pre, quotes, t);
    }
  }

  /** The symbols open in `s0` that are flat in `cur`: the exits between the two. */
  ghost function Exited(s0: map<string, Slot>, cur: map<string, Slot>): set<string> {
    set t | t in s0 && t in cur && s0[t].pos != 0.0 && cur[t].pos == 0.0
  }

  /** Every symbol open in `cur` was already open in `s0`. */
  ghost predicate NeverOpens(s0: map<string, Slot>, cur: map<string, Slot>) {
    forall t :: t in cur && cur[t].pos != 0.0 ==> t in s0 && s0[t].pos != 0.0
  }

  /**
   * A step that changes only the slot of `s`, and that either flattens it or keeps its
   * position, adds exactly `s` to the exits when it flattens an open slot and nothing otherwise.
   */
  lemma ExitedStep(s0: map<string, Slot>, prev: map<string, Slot>, cur: map<string, Slot>, s: string)
    requires NeverOpens(s0, prev) && s in prev && s in cur
    requires prev.Keys == cur.Keys && forall t :: t in prev && t != s ==> cur[t] == prev[t]
    requires cur[s].pos == 0.0 || cur[s].pos == prev[s].pos
    ensures NeverOpens(s0, cur)
    ensures Exited(s0, cur) ==
      if prev[s].pos != 0.0 && cur[s].pos == 0.0 then Exited(s0, prev) + {s} else Exited(s0, prev)
  {
  }

  /**
   * One turn of the management loop on values: `closed` stays the set of exits, the ledger
   * stays the starting one less the exits, and the cooldowns stay the starting ones off the exits.
   */
  lemma TrackStep(s0: map<string, Slot>, prev: map<string, Slot>, cur: map<string, Slot>,
                  p0: map<string, PositionRecord>, pPrev: map<string, PositionRecord>, pCur: map<string, PositionRecord>,
                  c0: map<string, real>, cPrev: map<string, real>, cCur: map<string, real>,
                  closed: set<string>, s: string, v: real)
    requires NeverOpens(s0, prev) && closed == Exited(s0, prev)
    requires s in prev && s in cur && prev.Keys == cur.Keys && forall t :: t in prev && t != s ==> cur[t] == prev[t]
    requires cur[s].pos == 0.0 || cur[s].pos == prev[s].pos
    requires pPrev == p0 - closed && cPrev - closed == c0 - closed
    requires prev[s].pos != 0.0 && cur[s].pos == 0.0 ==> pCur == pPrev - {s} && cCur == cPrev[s := v]
    requires !(prev[s].pos != 0.0 && cur[s].pos == 0.0) ==> pCur == pPrev && cCur == cPrev
    ensures var next := if prev[s].pos != 0.0 && cur[s].pos == 0.0 then closed + {s} else closed;
      NeverOpens(s0, cur) && next == Exited(s0, cur) && pCur == p0 - next && cCur - next == c0 - next
  {
    ExitedStep(s0, prev, cur, s);
    if prev[s].pos != 0.0 && cur[s].pos == 0.0 {
      AgreeOffGrow(pPrev, p0, closed, s);
      AgreeOffGrow(cPrev, c0, closed, s);
      UpdateOff(cPrev, closed + {s}, s, v);
    }
  }

  /** Removing one more key from two maps that agree off a set keeps them agreeing off the larger set. */
  lemma AgreeOffGrow<V>(a: map<string, V>, b: map<string, V>, x: set<string>, k: string)
    requires a - x == b - x
    ensures a - (x + {k}) == b - (x + {k})
  {
    assert a - (x + {k}) == (a - x) - {k};
    assert b - (x + {k}) == (b - x) - {k};
  }

  /** Updating a key inside the removed set does not change what is left. */
  lemma UpdateOff<V>(a: map<string, V>, x: set<string>, k: string, v: V)
    requires k in x
    ensures a[k := v] - x == a - x
  {
  }

  // ---------------------------------------------------------------- the capacity loop on values

  /** What the capacity loop of lines 203-256 updates: the slots, the open list and the governor's ledger. */
  datatype Opening = Opening(state: map<string, Slot>, open: seq<string>,
                             positions: map<string, PositionRecord>, exposure: real)

  /** The inputs that stay fixed through one pass of the capacity loop. */
  datatype Cycle = Cycle(quotes: map<string, Quote>, tradables: set<string>, markets: map<string, Broker.MarketInfo>,
                         dryRun: bool, liveFills: set<string>, dynRisk: real, dynMaxPositions: int,
                         maxRiskPerDay: real, equity: real, now: real)

  /** The candidate's plan when the open list stands as in `o`. */
  function PlanAt(o: Opening, c: Candidate, cy: Cycle): Plan
    requires c.symbol in cy.quotes
  {
    var q := cy.quotes[c.symbol];
    PlanOf(c, q.price, q.atr, cy.markets, cy.equity, cy.dynRisk, cy.maxRiskPerDay, cy.dynMaxPositions, |o.open|)
  }

  /**
   * Lines 209-255: the candidate opens when it is tradable, its rounded quantity is positive,
   * `can_open` admits it against the ledger as it stands and (live) the order was filled.
   */
  predicate Opens(g: RiskGovernor, o: Opening, c: Candidate, cy: Cycle)
    requires c.symbol in cy.quotes
    reads g`dailyPnl, g`cooldownUntil
  {
    var p := PlanAt(o, c, cy);
    c.symbol in cy.tradables && p.rounded > 0.0 &&
    g.CanOpenAt(o.exposure, cy.equity, c.symbol, p.notional, map[], |o.open|, cy.now) == Allowed &&
    (cy.dryRun || c.symbol in cy.liveFills)
  }

  /**
   * Lines 237-255, an opening with plan `p` at `price`: the slot takes the signed rounded
   * quantity and the levels, the symbol is appended to the open list and `on_open` records it
   * and adds |notional| to the ledger.
   */
  function Opened(o: Opening, symbol: string, price: real, p: Plan): Opening {
    Opening(o.state[symbol := Slot(Some(price), (p.side as real) * p.rounded,
                                   Some(p.levels.sl), Some(p.levels.tp1), Some(p.levels.tp2))],
            o.open + [symbol],
            o.positions[symbol := PositionRecord(p.rounded, price, p.levels.sl, Some(p.levels.tp2), p.notional)],
            o.exposure + Abs(p.notional))
  }

  /**
   * One turn of the capacity loop: nothing once the list is at the cap, otherwise the opening
   * if any. Every candidate is built from a symbol with a quote; one without is skipped.
   */
  function OpenStep(g: RiskGovernor, o: Opening, c: Candidate, cy: Cycle): Opening
    reads g`dailyPnl, g`cooldownUntil
  {
    if c.symbol !in cy.quotes || |o.open| >= cy.dynMaxPositions || !Opens(g, o, c, cy) then o
    else Opened(o, c.symbol, cy.quotes[c.symbol].price, PlanAt(o, c, cy))
  }

  /** The capacity loop over the candidates in order. */
  function OpenFold(g: RiskGovernor, o: Opening, cands: seq<Candidate>, cy: Cycle): Opening
    reads g`dailyPnl, g`cooldownUntil
    decreases |cands|
  {
    if |cands| == 0 then o
    else
      OpenStep(g, OpenFold(g, o, cands[..|cands| - 1], cy), cands[|cands| - 1], cy)
  }

  lemma OpenFoldSnoc(g: RiskGovernor, o: Opening, cands: seq<Candidate>, k: int, cy: Cycle)
    requires 0 <= k < |cands|
    ensures OpenFold(g, o, cands[..k + 1], cy) == OpenStep(g, OpenFold(g, o, cands[..k], cy), cands[k], cy)
  {
    assert forall j :: 0 <= j < k + 1 ==> cands[..k + 1][j] == cands[j];
    assert cands[..k + 1][..k] == cands[..k];
  }

  /** The `break` of line 205: once the list reaches the cap, the later candidates change nothing. */
  lemma {:induction false} OpenFoldStopped(g: RiskGovernor, o: Opening, cands: seq<Candidate>, k: int, cy: Cycle)
    requires 0 <= k <= |cands| && |OpenFold(g, o, cands[..k], cy).open| >= cy.dynMaxPositions
    ensures OpenFold(g, o, cands, cy) == OpenFold(g, o, cands[..k], cy)
    decreases |cands|
  {
    if k < |cands| {
      var pre := cands[..|cands| - 1];
      assert pre[..k] == cands[..k];
      OpenFoldStopped(g, o, pre, k, cy);
    } else {
      assert cands[..k] == cands;
    }
  }

  /**
   * The open list keeps what was open as its prefix and grows by at most what the cap allows;
   * the ledger never shrinks.
   */
  lemma {:induction false} OpenFoldGrows(g: RiskGovernor, o: Opening, cands: seq<Candidate>, cy: Cycle)
    ensures var r := OpenFold(g, o, cands, cy);
      |o.open| <= |r.open| && r.open[..|o.open|] == o.open &&
      (|r.open| <= |o.open| || |r.open| <= cy.dynMaxPositions) &&
      r.exposure >= o.exposure
    decreases |cands|
  {
    if |cands| > 0 {
      var pre := cands[..|cands| - 1];
      OpenFoldGrows(g, o, pre, cy);
      var m := OpenFold(g, o, pre, cy);
      var r := OpenStep(g, m, cands[|cands| - 1], cy);
      if r != m {
        assert r.open == m.open + [cands[|cands| - 1].symbol];
        assert r.open[..|o.open|] == m.open[..|o.open|];
      }
    }
  }

  /** Every symbol the loop appends is tradable, holds a non-zero position and is in the ledger. */
  lemma {:induction false} OpenFoldEntries(g: RiskGovernor, o: Opening, cands: seq<Candidate>, cy: Cycle)
    ensures var r := OpenFold(g, o, cands, cy);
      |o.open| <= |r.open| &&
      forall i :: |o.open| <= i < |r.open| ==>
        r.open[i] in cy.tradables && r.open[i] in r.state && r.state[r.open[i]].pos != 0.0 && r.open[i] in r.positions
    decreases |cands|
  {
    if |cands| > 0 {
      var pre := cands[..|cands| - 1];
      OpenFoldEntries(g, o, pre, cy);
      OpenStepEntry(g, OpenFold(g, o, pre, cy), cands[|cands| - 1], cy);
    }
  }

  /** One step either changes nothing or appends a tradable symbol with a non-zero, registered position. */
  lemma OpenStepEntry(g: RiskGovernor, m: Opening, c: Candidate, cy: Cycle)
    ensures var r := OpenStep(g, m, c, cy);
      r == m ||
      (r.open == m.open + [c.symbol] && c.symbol in cy.tradables &&
       c.symbol in r.state && r.state[c.symbol].pos != 0.0 && c.symbol in r.positions &&
       m.state.Keys <= r.state.Keys && m.positions.Keys <= r.positions.Keys &&
       forall t :: t in m.state && t != c.symbol ==> r.state[t] == m.state[t])
  {
    var r := OpenStep(g, m, c, cy);
    if r != m {
      var p := PlanAt(m, c, cy);
      assert r.state[c.symbol].pos == (p.side as real) * p.rounded;
      SideTimesPositive(p.side, p.rounded);
    }
  }

  /** A buy or sell side times a positive quantity is a non-zero position. */
  lemma SideTimesPositive(side: int, q: real)
    requires (side == 1 || side == -1) && q > 0.0
    ensures (side as real) * q != 0.0
  {
  }

  /** The slots of the symbols the loop does not append are untouched. */
  lemma {:induction false} OpenFoldOthers(g: RiskGovernor, o: Opening, cands: seq<Candidate>, cy: Cycle, s: string)
    requires var r := OpenFold(g, o, cands, cy); |o.open| <= |r.open| && s !in r.open[|o.open|..]
    ensures var r := OpenFold(g, o, cands, cy);
      (s in r.state <==> s in o.state) && (s in o.state ==> r.state[s] == o.state[s])
    decreases |cands|
  {
    if |cands| > 0 {
      var pre := cands[..|cands| - 1];
      OpenFoldGrows(g, o, pre, cy);
      var m := OpenFold(g, o, pre, cy);
      var c := cands[|cands| - 1];
      var r := OpenStep(g, m, c, cy);
      if r != m {
        assert r.open[|o.open|..] == m.open[|o.open|..] + [c.symbol];
      }
      OpenFoldOthers(g, o, pre, cy, s);
    }
  }

  /** With every candidate's symbol already a slot, the loop keeps the set of slots. */
  lemma {:induction false} OpenFoldKeys(g: RiskGovernor, o: Opening, cands: seq<Candidate>, cy: Cycle)
    requires forall i :: 0 <= i < |cands| ==> cands[i].symbol in o.state
    ensures OpenFold(g, o, cands, cy).state.Keys == o.state.Keys
    decreases |cands|
  {
    if |cands| > 0 {
      var pre := cands[..|cands| - 1];
      assert forall i :: 0 <= i < |pre| ==> pre[i].symbol in o.state by {
        forall i | 0 <= i < |pre| ensures pre[i] == cands[i] { }
      }
      OpenFoldKeys(g, o, pre, cy);
    }
  }

  /** A live run in which no order was filled opens nothing. */
  lemma {:induction false} OpenFoldNoFills(g: RiskGovernor, o: Opening, cands: seq<Candidate>, cy: Cycle)
    requires !cy.dryRun && cy.liveFills == {}
    ensures OpenFold(g, o, cands, cy) == o
    decreases |cands|
  {
    if |cands| > 0 {
      var pre := cands[..|cands| - 1];
      OpenFoldNoFills(g, o, pre, cy);
    }
  }

  /** The risk configuration built at lines 91-100: no buckets map, daily loss limit 5% of capital. */
  function RunnerRiskConfig(capital: real, maxPositions: int, maxGrossExposure: real, maxRiskPerDay: real,
                            maxPerBucket: int, riskUnit: real, lookback: int, budgetMin: real, budgetMax: real,
                            dailyLossFraction: real): (c: RiskConfig)
    ensures c.bucketsMap == map[]
    ensures c.dailyLossLimit == Some(dailyLossFraction * capital)
    ensures c.maxRiskPerDay == Some(maxRiskPerDay) && c.maxPositions == maxPositions
  {
    RiskConfig(Some(maxRiskPerDay), Some(dailyLossFraction * capital), maxPositions, maxGrossExposure, map[],
               maxPerBucket, Some(riskUnit), Some(lookback), Some(budgetMin), Some(budgetMax))
  }

  /** Without a buckets map (and with the empty bucket counts of line 200) no symbol is refused for its bucket. */
  lemma NoBucketRejection(g: RiskGovernor, equity: real, symbol: string, notional: real, openCount: int, now: real)
    requires g.cfg.bucketsMap == map[]
    ensures g.CanOpen(equity, symbol, notional, map[], openCount, now) != Rejected(CorrBucket)
  {
  }

  // ---------------------------------------------------------------- the live loop's state

  /**
   * The variables of `main` that the two loops update: the per-symbol state, the open list,
   * the realised P&L and the risk governor.
   */
  class Commander {
    const symbols: seq<string>
    const capital: real
    const risk: RiskGovernor
    var state: map<string, Slot>
    var openPositions: seq<string>
    var realizedPnl: real

    ghost predicate Valid()
      reads this, risk
    {
      risk.Valid() &&
      (forall i :: 0 <= i < |symbols| ==> symbols[i] in state) &&
      StateOk(state) &&
      (forall s :: s in openPositions ==> s in state)
    }

    /** The symbols in `closed` are flat, gone from the governor and cooling down until now + 1800. */
    ghost predicate CooledDown(closed: set<string>, now: real)
      reads this, risk
    {
      forall t :: t in closed ==>
        t in state && state[t].pos == 0.0 && t !in risk.positions &&
        t in risk.cooldownUntil && risk.cooldownUntil[t] >= now + 1800.0
    }

    function BookOf(): Book
      reads this
    {
      Book(state, openPositions, realizedPnl)
    }

    /** The part of the commander and its governor that the capacity loop updates. */
    function OpeningOf(): Opening
      reads this, risk
    {
      Opening(state, openPositions, risk.positions, risk.grossExposure)
    }

    /** Lines 102, 106 and 114: every symbol starts flat, with no realised P&L. */
    constructor (syms: seq<string>, capitalTotal: real, config: RiskConfig)
      ensures Valid() && fresh(risk)
      ensures symbols == syms && capital == capitalTotal
      ensures state == map s | s in syms :: FlatSlot
      ensures openPositions == [] && realizedPnl == 0.0
      ensures risk.cfg == config && risk.positions == map[] && risk.grossExposure == 0.0
    {
      symbols := syms;
      capital := capitalTotal;
      risk := new RiskGovernor(config);
      state := map s | s in syms :: FlatSlot;
      openPositions := [];
      realizedPnl := 0.0;
    }

    /** Lines 147 and 198: the capital plus the realised P&L. */
    function Equity(): real
      reads this
    {
      capital + realizedPnl
    }

    /** Line 199: the open list is rebuilt from the state at the start of each cycle. */
    method RefreshOpen()
      requires Valid()
      modifies this
      ensures Valid()
      ensures openPositions == OpenSymbols(symbols, state)
      ensures NoDuplicates(symbols) ==> NoDuplicates(openPositions)
      ensures state == old(state) && realizedPnl == old(realizedPnl)
    {
      var open := CollectOpen(symbols, state);
      openPositions := open;
      if NoDuplicates(symbols) {
        OpenSymbolsDistinct(symbols, state);
      }
    }

    /**
     * Lines 206-255 for one candidate: it opens exactly when it is tradable, its rounded
     * quantity is positive, the governor admits it and (live) the exchange filled the order.
     * An opening records the slot, registers the position with the governor and appends the
     * symbol; otherwise nothing changes.
     */
    method TryOpen(c: Candidate, quote: Quote, tradables: set<string>, markets: map<string, Broker.MarketInfo>,
                   dryRun: bool, liveFills: set<string>, dynRisk: real, dynMaxPositions: int,
                   maxRiskPerDay: real, now: real) returns (placed: bool)
      requires Valid() && c.symbol in state
      modifies this, risk
      ensures Valid()
      ensures var p := PlanOf(c, quote.price, quote.atr, markets, old(Equity()), dynRisk, maxRiskPerDay,
                              dynMaxPositions, |old(openPositions)|);
        placed <==> c.symbol in tradables && p.rounded > 0.0 &&
                    old(risk.CanOpen(Equity(), c.symbol, p.notional, map[], |openPositions|, now)) == Allowed &&
                    (dryRun || c.symbol in liveFills)
      ensures !placed ==> OpeningOf() == old(OpeningOf())
      ensures var p := PlanOf(c, quote.price, quote.atr, markets, old(Equity()), dynRisk, maxRiskPerDay,
                              dynMaxPositions, |old(openPositions)|);
        placed ==> OpeningOf() == Opened(old(OpeningOf()), c.symbol, quote.price, p)
      ensures realizedPnl == old(realizedPnl)
      ensures risk.dailyPnl == old(risk.dailyPnl) && risk.currentDay == old(risk.currentDay)
      ensures risk.cooldownUntil == old(risk.cooldownUntil) && risk.equityHistory == old(risk.equityHistory)
    {
      placed := false;
      if c.symbol !in tradables {
        return;
      }
      var p := PlanOf(c, quote.price, quote.atr, markets, Equity(), dynRisk, maxRiskPerDay, dynMaxPositions,
                      |openPositions|);
      if p.rounded <= 0.0 {
        return;
      }
      var price, lv, rounded, notional := quote.price, p.levels, p.rounded, p.notional;
      var admission := risk.CanOpen(Equity(), c.symbol, notional, map[], |openPositions|, now);
      if admission != Allowed {
        return;
      }
      if dryRun || c.symbol in liveFills {
        state := state[c.symbol := Slot(Some(price), (p.side as real) * rounded, Some(lv.sl), Some(lv.tp1), Some(lv.tp2))];
        risk.OnOpen(c.symbol, notional, rounded, price, lv.sl, Some(lv.tp2));
        openPositions := openPositions + [c.symbol];
        placed := true;
      }
    }

    /** One turn of the capacity loop below the cap: TryOpen, which performs OpenStep. */
    method OpenTurn(c: Candidate, quote: Quote, tradables: set<string>, markets: map<string, Broker.MarketInfo>,
                    dryRun: bool, liveFills: set<string>, dynRisk: real, dynMaxPositions: int,
                    maxRiskPerDay: real, now: real, ghost cy: Cycle)
      requires Valid() && c.symbol in state && |openPositions| < dynMaxPositions
      requires cy == Cycle(cy.quotes, tradables, markets, dryRun, liveFills, dynRisk, dynMaxPositions, maxRiskPerDay,
                           Equity(), now)
      requires c.symbol in cy.quotes && cy.quotes[c.symbol] == quote
      modifies this, risk
      ensures Valid() && OpeningOf() == OpenStep(risk, old(OpeningOf()), c, cy)
      ensures state.Keys == old(state).Keys && realizedPnl == old(realizedPnl)
      ensures risk.dailyPnl == old(risk.dailyPnl) && risk.cooldownUntil == old(risk.cooldownUntil)
    {
      ghost var before := OpeningOf();
      ghost var opens := Opens(risk, before, c, cy);
      ghost var next := OpenStep(risk, before, c, cy);
      assert next == if opens then Opened(before, c.symbol, quote.price, PlanAt(before, c, cy)) else before;
      var placed := TryOpen(c, quote, tradables, markets, dryRun, liveFills, dynRisk, dynMaxPositions,
                            maxRiskPerDay, now);
      assert placed == opens;
    }

    /** One iteration of the capacity loop: the state moves from the fold over k candidates to the fold over k + 1. */
    method OpenNext(candidates: seq<Candidate>, k: int, quote: Quote, tradables: set<string>,
                    markets: map<string, Broker.MarketInfo>, dryRun: bool, liveFills: set<string>, dynRisk: real,
                    dynMaxPositions: int, maxRiskPerDay: real, now: real, ghost o0: Opening, ghost cy: Cycle)
      requires Valid() && 0 <= k < |candidates| && candidates[k].symbol in state && |openPositions| < dynMaxPositions
      requires cy == Cycle(cy.quotes, tradables, markets, dryRun, liveFills, dynRisk, dynMaxPositions, maxRiskPerDay,
                           Equity(), now)
      requires candidates[k].symbol in cy.quotes && cy.quotes[candidates[k].symbol] == quote
      requires OpeningOf() == OpenFold(risk, o0, candidates[..k], cy)
      modifies this, risk
      ensures Valid() && OpeningOf() == OpenFold(risk, o0, candidates[..k + 1], cy)
      ensures state.Keys == old(state).Keys && realizedPnl == old(realizedPnl)
      ensures risk.dailyPnl == old(risk.dailyPnl) && risk.cooldownUntil == old(risk.cooldownUntil)
    {
      OpenFoldSnoc(risk, o0, candidates, k, cy);
      OpenTurn(candidates[k], quote, tradables, markets, dryRun, liveFills, dynRisk, dynMaxPositions,
               maxRiskPerDay, now, cy);
    }

    /**
     * Lines 203-256: candidates are tried in order until the open list reaches the tier's
     * maximum; the slots, the open list and the ledger become OpenFold of the old ones. What
     * follows for them is stated by OpenFoldGrows, OpenFoldEntries, OpenFoldOthers and
     * OpenFoldNoFills.
     */
    method OpenCandidates(candidates: seq<Candidate>, quotes: map<string, Quote>, tradables: set<string>,
                          markets: map<string, Broker.MarketInfo>, dryRun: bool, liveFills: set<string>,
                          dynRisk: real, dynMaxPositions: int, maxRiskPerDay: real, now: real)
      requires Valid()
      requires forall i :: 0 <= i < |candidates| ==> candidates[i].symbol in state && candidates[i].symbol in quotes
      modifies this, risk
      ensures Valid()
      ensures OpeningOf() == OpenFold(risk, old(OpeningOf()), candidates,
        Cycle(quotes, tradables, markets, dryRun, liveFills, dynRisk, dynMaxPositions, maxRiskPerDay, old(Equity()), now))
      ensures state.Keys == old(state).Keys && realizedPnl == old(realizedPnl)
      ensures risk.dailyPnl == old(risk.dailyPnl) && risk.cooldownUntil == old(risk.cooldownUntil)
    {
      ghost var o0 := OpeningOf();
      ghost var cy := Cycle(quotes, tradables, markets, dryRun, liveFills, dynRisk, dynMaxPositions, maxRiskPerDay,
                            Equity(), now);
      var k := 0;
      while k < |candidates| && |openPositions| < dynMaxPositions
        invariant 0 <= k <= |candidates|
        invariant Valid()
        invariant OpeningOf() == OpenFold(risk, o0, candidates[..k], cy)
        invariant state.Keys == old(state).Keys
        invariant realizedPnl == old(realizedPnl)
        invariant risk.dailyPnl == old(risk.dailyPnl) && risk.cooldownUntil == old(risk.cooldownUntil)
      {
        OpenNext(candidates, k, quotes[candidates[k].symbol], tradables, markets, dryRun, liveFills, dynRisk,
                 dynMaxPositions, maxRiskPerDay, now, o0, cy);
        k := k + 1;
      }
      if k < |candidates| {
        OpenFoldStopped(risk, o0, candidates, k, cy);
      } else {
        assert candidates[..k] == candidates;
      }
    }

    /**
     * Lines 259-306 for one symbol: a flat slot is skipped; otherwise the stop moves and, on an
     * exit, the P&L is realised and registered, the governor drops the position and its
     * exposure, the slot goes flat, the symbol leaves the open list and a 1800-second cooldown
     * is set. Without an exit the governor's positions, exposure and cooldowns stay as they were.
     */
    method ManageSymbol(s: string, quote: Quote, now: real, ghost closed: set<string>)
      requires Valid() && s in state && CooledDown(closed, now)
      modifies this, risk
      ensures Valid() && s in state
      ensures CooledDown(if old(state)[s].pos != 0.0 && state[s].pos == 0.0 then closed + {s} else closed, now)
      ensures BookOf() == ManageOne(old(BookOf()), s, map[s := quote])
      ensures state[s].pos == 0.0 || state[s].pos == old(state)[s].pos
      ensures risk.dailyPnl == old(risk.dailyPnl) + (realizedPnl - old(realizedPnl))
      ensures risk.positions.Keys <= old(risk.positions).Keys
      ensures old(state)[s].pos != 0.0 && state[s].pos == 0.0 ==>
        risk.positions == old(risk.positions) - {s} &&
        risk.grossExposure == (if s in old(risk.positions)
          then Max(0.0, old(risk.grossExposure) - Abs(old(risk.positions)[s].notional))
          else old(risk.grossExposure)) &&
        risk.cooldownUntil == old(risk.cooldownUntil)[s := Max(old(risk.CooldownOf(s)), now + 1800.0)]
      ensures !(old(state)[s].pos != 0.0 && state[s].pos == 0.0) ==>
        risk.positions == old(risk.positions) && risk.grossExposure == old(risk.grossExposure) &&
        risk.cooldownUntil == old(risk.cooldownUntil)
      ensures risk.grossExposure <= old(risk.grossExposure)
      ensures old(risk.LedgerExact()) ==> risk.LedgerExact()
      ensures risk.currentDay == old(risk.currentDay) && risk.equityHistory == old(risk.equityHistory)
    {
      if state[s].pos != 0.0 {
        ManageOpenSlot(s, quote, now, closed);
      }
    }

    /** Lines 261-306 for an open slot: the stop moves, or the position exits and is closed. */
    method ManageOpenSlot(s: string, quote: Quote, now: real, ghost closed: set<string>)
      requires Valid() && s in state && state[s].pos != 0.0 && CooledDown(closed, now)
      modifies this, risk
      ensures Valid() && s in state
      ensures CooledDown(if state[s].pos == 0.0 then closed + {s} else closed, now)
      ensures BookOf() == ManageOne(old(BookOf()), s, map[s := quote])
      ensures state[s].pos == 0.0 || state[s].pos == old(state)[s].pos
      ensures risk.dailyPnl == old(risk.dailyPnl) + (realizedPnl - old(realizedPnl))
      ensures state[s].pos == 0.0 ==>
        risk.positions == old(risk.positions) - {s} &&
        risk.grossExposure == (if s in old(risk.positions)
          then Max(0.0, old(risk.grossExposure) - Abs(old(risk.positions)[s].notional))
          else old(risk.grossExposure)) &&
        risk.cooldownUntil == old(risk.cooldownUntil)[s := Max(old(risk.CooldownOf(s)), now + 1800.0)]
      ensures state[s].pos != 0.0 ==>
        risk.positions == old(risk.positions) && risk.grossExposure == old(risk.grossExposure) &&
        risk.cooldownUntil == old(risk.cooldownUntil)
      ensures risk.grossExposure <= old(risk.grossExposure)
      ensures old(risk.LedgerExact()) ==> risk.LedgerExact()
      ensures risk.currentDay == old(risk.currentDay) && risk.equityHistory == old(risk.equityHistory)
    {
      var slot := state[s];
      assert s !in closed;
      var m := ManageStep(slot.entry.value, slot.sl.value, slot.tp2.value, slot.pos, quote.price, quote.atr);
      ManageOneOpen(BookOf(), s, quote);
      if m.exit {
        CloseSlot(s, m.pnl, now, closed);
        assert state[s].pos == 0.0;
      } else {
        MoveStop(s, m.sl, now, closed);
        assert state[s].pos == slot.pos;
      }
    }

    /**
     * What the management loop keeps between turns, against the state `s0`, ledger `p0`,
     * exposure `g0` and cooldowns `c0` it started from: the exits so far are exactly `closed`,
     * they are cooling down and gone from the ledger, the other cooldowns are as they were,
     * nothing was opened and the exposure has not risen.
     */
    ghost predicate Tracked(closed: set<string>, now: real, s0: map<string, Slot>, p0: map<string, PositionRecord>,
                            c0: map<string, real>, g0: real, exact0: bool)
      reads this, risk
    {
      CooledDown(closed, now) &&
      closed == Exited(s0, state) && NeverOpens(s0, state) &&
      risk.positions == p0 - closed && risk.cooldownUntil - closed == c0 - closed &&
      risk.grossExposure <= g0 && (exact0 ==> risk.LedgerExact())
    }

    /** One turn of the management loop, keeping Tracked with the symbol added to `closed` on an exit. */
    method ManageTracked(s: string, quote: Quote, now: real, ghost closed: set<string>, ghost s0: map<string, Slot>,
                         ghost p0: map<string, PositionRecord>, ghost c0: map<string, real>, ghost g0: real,
                         ghost exact0: bool) returns (ghost closed': set<string>)
      requires Valid() && s in state && Tracked(closed, now, s0, p0, c0, g0, exact0)
      modifies this, risk
      ensures Valid() && Tracked(closed', now, s0, p0, c0, g0, exact0)
      ensures BookOf() == ManageOne(old(BookOf()), s, map[s := quote])
      ensures risk.dailyPnl == old(risk.dailyPnl) + (realizedPnl - old(realizedPnl))
      ensures risk.currentDay == old(risk.currentDay) && risk.equityHistory == old(risk.equityHistory)
    {
      ghost var prev := state;
      ghost var positions0, cooldown0 := risk.positions, risk.cooldownUntil;
      ghost var v := Max(risk.CooldownOf(s), now + 1800.0);
      ManageSymbol(s, quote, now, closed);
      TrackStep(s0, prev, state, p0, positions0, risk.positions, c0, cooldown0, risk.cooldownUntil, closed, s, v);
      closed' := if prev[s].pos != 0.0 && state[s].pos == 0.0 then closed + {s} else closed;
    }

    /** Line 281 without an exit: the slot keeps its position and entry and takes the new stop. */
    method MoveStop(s: string, sl: real, now: real, ghost closed: set<string>)
      requires Valid() && s in state && s !in closed && CooledDown(closed, now)
      modifies this
      ensures Valid() && CooledDown(closed, now)
      ensures state == old(state)[s := old(state)[s].(sl := Some(sl))]
      ensures openPositions == old(openPositions) && realizedPnl == old(realizedPnl)
    {
      state := state[s := state[s].(sl := Some(sl))];
    }

    /**
     * Lines 290-306, the exit of one symbol: realise and register the P&L, drop the position
     * from the governor, flatten the slot, take the symbol off the open list and start its
     * 1800-second cooldown.
     */
    method CloseSlot(s: string, pnl: real, now: real, ghost closed: set<string>)
      requires Valid() && s in state && CooledDown(closed, now)
      modifies this, risk
      ensures Valid() && CooledDown(closed + {s}, now)
      ensures state == old(state)[s := FlatSlot] && openPositions == RemoveFirst(old(openPositions), s)
      ensures realizedPnl == old(realizedPnl) + pnl && risk.dailyPnl == old(risk.dailyPnl) + pnl
      ensures risk.positions == old(risk.positions) - {s}
      ensures risk.grossExposure == if s in old(risk.positions)
        then Max(0.0, old(risk.grossExposure) - Abs(old(risk.positions)[s].notional))
        else old(risk.grossExposure)
      ensures risk.grossExposure <= old(risk.grossExposure)
      ensures old(risk.LedgerExact()) ==> risk.LedgerExact()
      ensures risk.cooldownUntil == old(risk.cooldownUntil)[s := Max(old(risk.CooldownOf(s)), now + 1800.0)]
      ensures risk.currentDay == old(risk.currentDay) && risk.equityHistory == old(risk.equityHistory)
    {
      ghost var state0, cooldown0, positions0 := state, risk.cooldownUntil, risk.positions;
      realizedPnl := realizedPnl + pnl;
      state := state[s := FlatSlot];
      openPositions := RemoveFirst(openPositions, s);
      CloseInGovernor(s, pnl, now);
      forall t | t in closed + {s}
        ensures t in state && state[t].pos == 0.0 && t !in risk.positions &&
                t in risk.cooldownUntil && risk.cooldownUntil[t] >= now + 1800.0
      {
        if t != s {
          assert t in state0 && state0[t].pos == 0.0 && t !in positions0 && t in cooldown0;
        }
      }
    }

    /** Lines 297-306 on the governor's side: register the P&L, `on_close`, then the 1800-second cooldown. */
    method CloseInGovernor(s: string, pnl: real, now: real)
      requires risk.Valid()
      modifies risk
      ensures risk.Valid()
      ensures risk.dailyPnl == old(risk.dailyPnl) + pnl
      ensures risk.positions == old(risk.positions) - {s}
      ensures risk.grossExposure == if s in old(risk.positions)
        then Max(0.0, old(risk.grossExposure) - Abs(old(risk.positions)[s].notional))
        else old(risk.grossExposure)
      ensures risk.grossExposure <= old(risk.grossExposure)
      ensures old(risk.LedgerExact()) ==> risk.LedgerExact()
      ensures risk.cooldownUntil == old(risk.cooldownUntil)[s := Max(old(risk.CooldownOf(s)), now + 1800.0)]
      ensures risk.currentDay == old(risk.currentDay) && risk.equityHistory == old(risk.equityHistory)
    {
      var _ := risk.RegisterPnl(pnl);
      risk.OnClose(s);
      risk.SetCooldown(s, 1800, now);
    }

    /**
     * Lines 258-306: the management loop over a snapshot of the open list. The book becomes
     * ManageAll of the old book; every P&L realised is also registered with the governor; a
     * symbol that exits leaves the governor's positions and stays in cooldown (refused by
     * `is_cooldown`) for the next 1800 seconds.
     */
    method ManagePositions(quotes: map<string, Quote>, now: real)
      requires Valid()
      requires forall s :: s in openPositions ==> s in quotes
      modifies this, risk
      ensures Valid()
      ensures BookOf() == ManageAll(old(BookOf()), old(openPositions), quotes)
      ensures risk.dailyPnl == old(risk.dailyPnl) + (realizedPnl - old(realizedPnl))
      ensures forall s :: s in old(state) && old(state)[s].pos != 0.0 && state[s].pos == 0.0 ==>
        s !in risk.positions && forall t :: now <= t < now + 1800.0 ==> risk.IsCooldown(s, t)
      ensures risk.positions.Keys <= old(risk.positions).Keys
      ensures risk.positions == old(risk.positions) - Exited(old(state), state)
      ensures risk.cooldownUntil - Exited(old(state), state) == old(risk.cooldownUntil) - Exited(old(state), state)
      ensures risk.grossExposure <= old(risk.grossExposure)
      ensures old(risk.LedgerExact()) ==> risk.LedgerExact()
      ensures risk.currentDay == old(risk.currentDay) && risk.equityHistory == old(risk.equityHistory)
    {
      ghost var b0 := BookOf();
      ghost var s0, p0, c0 := state, risk.positions, risk.cooldownUntil;
      ghost var g0, exact0 := risk.grossExposure, risk.LedgerExact();
      ghost var closed: set<string> := {};
      assert Exited(s0, state) == {};
      var todo := openPositions;
      var i := 0;
      while i < |todo|
        invariant 0 <= i <= |todo|
        invariant Valid()
        invariant Covered(b0, todo, quotes)
        invariant BookOf() == ManageAll(b0, todo[..i], quotes)
        invariant risk.dailyPnl == old(risk.dailyPnl) + (realizedPnl - old(realizedPnl))
        invariant Tracked(closed, now, s0, p0, c0, g0, exact0)
        invariant risk.currentDay == old(risk.currentDay) && risk.equityHistory == old(risk.equityHistory)
      {
        ManageAllSnoc(b0, todo, i, quotes);
        ghost var prev := BookOf();
        var s := todo[i];
        closed := ManageTracked(s, quotes[s], now, closed, s0, p0, c0, g0, exact0);
        ManageOneQuotes(prev, s, quotes);
        i := i + 1;
      }
      assert todo[..i] == todo;
      forall t | t in old(state) && old(state)[t].pos != 0.0 && state[t].pos == 0.0
        ensures t !in risk.positions && forall u :: now <= u < now + 1800.0 ==> risk.IsCooldown(t, u)
      {
        assert t in closed;
      }
    }
  }
}
