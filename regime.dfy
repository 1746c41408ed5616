/**
 * The per-bar regime weights of `RegimeDetector.detect` (regime.py), with the indicator values
 * of the bar (ADX14, EMA50, EMA200, ATR20 / SMA20(ATR20)) given as inputs.
 */
module Regime {
  import opened Common

  /** The thresholds of the regime section of the configuration. */
  datatype RegimeConfig = RegimeConfig(adxTrendOn: real, adxRangeOff: real, atrExpansionRatio: real)

  /** The shipped defaults: 25 / 18 / 1.2. */
  const DefaultConfig := RegimeConfig(25.0, 18.0, 1.2)

  /** Thresholds for which the weight formulas involve no division by zero. */
  predicate ValidConfig(cfg: RegimeConfig) {
    cfg.adxTrendOn >= 0.0 && cfg.adxRangeOff > 0.0 && cfg.atrExpansionRatio >= 0.0
  }

  /** The per-bar indicator values the formulas read. */
  datatype Features = Features(adx14: real, ema50: real, ema200: real, atrRatio: real)

  datatype RegimeWeights = RegimeWeights(trend: real, range: real, breakout: real)

  const Eps: real := 0.000000001

  function Indicator(b: bool): real {
    if b then 1.0 else 0.0
  }

  predicate IsTrend(cfg: RegimeConfig, f: Features) {
    f.adx14 > cfg.adxTrendOn && f.ema50 > f.ema200
  }

  predicate IsRange(cfg: RegimeConfig, f: Features) {
    f.adx14 < cfg.adxRangeOff
  }

  predicate IsBreakout(cfg: RegimeConfig, f: Features) {
    f.atrRatio > cfg.atrExpansionRatio
  }

  /** w_trend = clip(is_trend * adx / (adx_trend_on + 1e-9), 0, 1). */
  function WTrend(cfg: RegimeConfig, f: Features): real
    requires ValidConfig(cfg)
  {
    Clip(Indicator(IsTrend(cfg, f)) * (f.adx14 / (cfg.adxTrendOn + Eps)), 0.0, 1.0)
  }

  /** w_range = clip(is_range * |adx_range_off - adx| / adx_range_off, 0, 1). */
  function WRange(cfg: RegimeConfig, f: Features): real
    requires ValidConfig(cfg)
  {
    Clip(Indicator(IsRange(cfg, f)) * (Abs(cfg.adxRangeOff - f.adx14) / cfg.adxRangeOff), 0.0, 1.0)
  }

  /** w_breakout = clip(is_breakout * atr_ratio / (atr_expansion_ratio + 1e-9), 0, 1). */
  function WBreakout(cfg: RegimeConfig, f: Features): real
    requires ValidConfig(cfg)
  {
    Clip(Indicator(IsBreakout(cfg, f)) * f.atrRatio / (cfg.atrExpansionRatio + Eps), 0.0, 1.0)
  }

  /** The three weights `detect` writes for one bar. */
  function Detect(cfg: RegimeConfig, f: Features): (w: RegimeWeights)
    requires ValidConfig(cfg)
    ensures 0.0 <= w.trend <= 1.0 && 0.0 <= w.range <= 1.0 && 0.0 <= w.breakout <= 1.0
    ensures !IsTrend(cfg, f) ==> w.trend == 0.0
    ensures !IsRange(cfg, f) ==> w.range == 0.0
    ensures !IsBreakout(cfg, f) ==> w.breakout == 0.0
  {
    RegimeWeights(WTrend(cfg, f), WRange(cfg, f), WBreakout(cfg, f))
  }

  /** In a trend the weight is positive and saturates at 1 well above the threshold. */
  lemma TrendWeightWhenOn(cfg: RegimeConfig, f: Features)
    requires ValidConfig(cfg) && IsTrend(cfg, f)
    ensures 0.0 < Detect(cfg, f).trend <= 1.0
    ensures f.adx14 >= cfg.adxTrendOn + Eps ==> Detect(cfg, f).trend == 1.0
  {
    QuotientVersusOne(f.adx14, cfg.adxTrendOn + Eps);
  }

  /** For 0 <= adx < off the range weight is exactly (off - adx) / off. */
  lemma RangeWeightValue(cfg: RegimeConfig, f: Features)
    requires ValidConfig(cfg) && 0.0 <= f.adx14 < cfg.adxRangeOff
    ensures Detect(cfg, f).range == (cfg.adxRangeOff - f.adx14) / cfg.adxRangeOff
    ensures Detect(cfg, f).range > 0.0
  {
    QuotientVersusOne(cfg.adxRangeOff - f.adx14, cfg.adxRangeOff);
  }

  /**
   * Whenever the trend threshold is at least the range threshold (25 > 18 by default) the
   * trend and range weights are never positive together.
   */
  lemma TrendAndRangeExclusive(cfg: RegimeConfig, f: Features)
    requires ValidConfig(cfg) && cfg.adxTrendOn >= cfg.adxRangeOff
    ensures !(Detect(cfg, f).trend > 0.0 && Detect(cfg, f).range > 0.0)
  {
  }

  lemma DefaultsExclusive(f: Features)
    ensures ValidConfig(DefaultConfig)
    ensures !(Detect(DefaultConfig, f).trend > 0.0 && Detect(DefaultConfig, f).range > 0.0)
  {
    TrendAndRangeExclusive(DefaultConfig, f);
  }
}
