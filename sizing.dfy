/** Stop/target placement and risk-based quantity of utils_sizing.py. */
module Sizing {
  import opened Common

  /** Stop, first target and second target of one entry. */
  datatype Levels = Levels(sl: real, tp1: real, tp2: real)

  /**
   * `compute_sl_tp`: the stop sits k_atr ATRs against the side, and each target rr times the
   * stop distance in favour of it.
   */
  function ComputeSlTp(price: real, atr: real, kAtr: real, rr1: real, rr2: real, side: int): (lv: Levels)
    ensures price - lv.sl == (side as real) * kAtr * atr
    ensures side == 1 || side == -1 ==> Abs(price - lv.sl) == Abs(kAtr * atr)
    ensures lv.tp1 - price == (side as real) * rr1 * Abs(kAtr * atr * (side as real))
    ensures lv.tp2 - price == (side as real) * rr2 * Abs(kAtr * atr * (side as real))
  {
    var sl := price - (side as real) * kAtr * atr;
    var rrDist := Abs(price - sl);
    Levels(sl, price + (side as real) * rr1 * rrDist, price + (side as real) * rr2 * rrDist)
  }

  /** A long's stop lies below the price and its targets above, in order; a short mirrors it. */
  lemma LevelsOrdered(price: real, atr: real, kAtr: real, rr1: real, rr2: real)
    requires atr >= 0.0 && kAtr >= 0.0 && 0.0 <= rr1 <= rr2
    ensures var lv := ComputeSlTp(price, atr, kAtr, rr1, rr2, 1);
      lv.sl <= price <= lv.tp1 <= lv.tp2
    ensures var lv := ComputeSlTp(price, atr, kAtr, rr1, rr2, -1);
      lv.tp2 <= lv.tp1 <= price <= lv.sl
  {
    var d := kAtr * atr;
    MulNonNegative(kAtr, atr);
    var long := ComputeSlTp(price, atr, kAtr, rr1, rr2, 1);
    assert long.sl == price - d;
    assert Abs(price - long.sl) == d;
    var short := ComputeSlTp(price, atr, kAtr, rr1, rr2, -1);
    assert short.sl == price + d;
    assert Abs(price - short.sl) == d;
    MulNonNegative(rr1, d);
    MulMonotone(rr1, rr2, d);
  }

  /** compute_sl_tp(100, 2) with the defaults k_atr = 2, rr1 = 1.5, rr2 = 2.5 and side = 1 is (96, 106, 110). */
  lemma LevelsExample()
    ensures ComputeSlTp(100.0, 2.0, 2.0, 1.5, 2.5, 1) == Levels(96.0, 106.0, 110.0)
  {
  }

  const MinStopDistance: real := 0.000000000001

  /**
   * `position_size_by_risk`: the quantity whose stop-out loses equity * risk_per_trade, and 0
   * when the stop sits within 1e-12 of the price. `None` stands for the ZeroDivisionError
   * Python raises for a zero contract multiplier.
   */
  function PositionSizeByRisk(equity: real, riskPerTrade: real, price: real, sl: real, multiplier: real): (q: Option<real>)
    ensures Abs(price - sl) <= MinStopDistance ==> q == Some(0.0)
    ensures Abs(price - sl) > MinStopDistance && multiplier == 0.0 ==> q == None
    ensures Abs(price - sl) > MinStopDistance && multiplier != 0.0 ==>
      q.Some? && q.value * Abs(price - sl) * multiplier == equity * riskPerTrade
  {
    var usdRisk := equity * riskPerTrade;
    var slDist := Abs(price - sl);
    if slDist <= MinStopDistance then Some(0.0)
    else if slDist * multiplier == 0.0 then None
    else Some(usdRisk / (slDist * multiplier))
  }

  /** The quantity is never negative for non-negative equity and risk and a positive multiplier. */
  lemma SizeNonNegative(equity: real, riskPerTrade: real, price: real, sl: real, multiplier: real)
    requires equity >= 0.0 && riskPerTrade >= 0.0 && multiplier > 0.0
    ensures PositionSizeByRisk(equity, riskPerTrade, price, sl, multiplier).Some?
    ensures PositionSizeByRisk(equity, riskPerTrade, price, sl, multiplier).value >= 0.0
  {
    var slDist := Abs(price - sl);
    if slDist > MinStopDistance {
      MulNonNegative(equity, riskPerTrade);
      assert slDist * multiplier > 0.0;
      QuotientVersusOne(equity * riskPerTrade, slDist * multiplier);
    }
  }

  /** A stop at the price gives no position; (10000, 0.01, 100, 98) gives 50. */
  lemma SizeExamples(equity: real, riskPerTrade: real, price: real)
    ensures PositionSizeByRisk(equity, riskPerTrade, price, price, 1.0) == Some(0.0)
    ensures PositionSizeByRisk(10000.0, 0.01, 100.0, 98.0, 1.0) == Some(50.0)
  {
  }
}
