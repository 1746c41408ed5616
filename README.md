# OverHuman-Commander portfolio logic in Dafny

This project models the decision and risk core of OverHuman-Commander, a multi-symbol crypto
trading bot. Each cycle of the bot does the following:

- Five experts read the bars of every symbol on three timeframes.
- Their signals are netted into a long, short or flat decision through a ±0.05 band.
- The decision is filtered on trend, volatility and momentum.
- Each position is sized from an ATR stop and a risk fraction capped by the tier of an
  equity-driven auto-scaler, then scaled by a Kelly multiplier.
- The risk governor admits or refuses the position.
- Open positions are then managed: break-even at one R, trailing from 1.5 R, exit at the stop or
  at the second target.

The back-test weights the same experts by regime and by a meta-learner, applies an
open/close/reversal rule per symbol and compounds its equity. The paper broker rounds order
amounts to the exchange's lot rules and reports the P&L of paired trades.

One Dafny module per source file:

| module | file | form |
|---|---|---|
| `Common`, `Market` | shared | helpers (Option, Abs/Min/Max/Clip, sums over sequences and maps); bars, signals, window statistics, the ±0.05 decision band |
| `Indicators` | utils.py | true range, Donchian channels, the `adjust=False` EMA recurrence |
| `Regime` | regime.py | per-bar regime flags and weights |
| `TrendFollower`, `MeanRevert`, `Breakout`, `TrendPullback`, `VolSqueezeBreakout` | experts/*.py | the five experts as total functions of a bar window |
| `IndicatorExperts` | pullback.py | the EMA/RSI pullback and the ATR-expansion experts, with their indicator values as inputs |
| `Sizing` | utils_sizing.py | stop/target levels and the risk-based quantity |
| `Meta` | meta.py | class `MetaLearner` over a functional specification of `update` |
| `Risk` | risk.py | class `RiskGovernor` (day P&L, cooldowns, exposure ledger, equity history, admission) |
| `Scaling` | autoscaler.py | class `AutoScaler` (tier lookup loop, cooldown-gated apply, sorting of tiers) |
| `Registry` | position_registry.py | class `PositionRegistry` |
| `TradeLog`, `Broker`, `Summary` | broker.py, summary_report.py | the shared pair-P&L report; lot rounding; class `PaperBroker`; `generate_summary` |
| `Runner` | runner.py | probability, EU, Kelly and filters; the candidate loop; class `Commander` with the capacity loop and the management loop |
| `Backtest` | backtest_portfolio.py | regime normalisation, expert weighting, the per-symbol bar rule, the tradables loop, equity compounding |

Prices, money and indicator values are `real`. The wall clock is an explicit `now` parameter.
Indicators whose computation is floating-point numerics are inputs: RSI, ADX, ATR, the ATR ratio,
the 20-bar standard deviation and the realised volatility `rv`.

## Model

| member | source | states |
|---|---|---|
| Market.Decide | runner.py:180-181 | direction is 1 iff net > 0.05, -1 iff net < -0.05, 0 iff net lies in the band; strength is min(1, \|net\|) |
| Market.DecideStrength | backtest_portfolio.py:89-91 | the reported strength lies in [0, 1], and in (0.05, 1] for a non-flat decision; the direction is in {-1, 0, 1} |
| Market.MaxOf | experts/breakout.py:12 | the rolling max bounds every entry of the window and is one of them |
| Market.MinOf | experts/breakout.py:13 | the rolling min is below every entry of the window and is one of them |
| Market.MeanBounds | experts/trend.py:12 | MA20, the mean of the window, lies between its min and its max |
| Indicators.TrueRange | utils.py:16-19 | one entry per bar; row 0 has no true range (NaN) |
| Indicators.TrueRangeRow | utils.py:16-19 | every later row has the true range of its bar against the previous close |
| Indicators.TrueRangeDominates | utils.py:18-19 | from row 1 on, the true range is at least high - low, \|high - prev close\|, \|low - prev close\| and 0 |
| Indicators.TrueRangeIsCoveringRange | utils.py:18-19 | for low <= high the true range is max(high, prev close) - min(low, prev close) |
| Indicators.DonchianChannels | utils.py:59-62 | the first period - 1 rows are NaN; every other row holds the max of the last `period` highs and the min of the last `period` lows |
| Indicators.DonchianOrdered | utils.py:60-62 | upper is at least every high of the window, lower at most every low, and upper >= lower for well-formed bars |
| Indicators.SpanAlpha | utils.py:42 | alpha = 2 / (span + 1) lies in (0, 1] for span >= 1 |
| Indicators.EmaSteps | utils.py:41-42 | out[0] = x[0] and out[t] = a x[t] + (1 - a) out[t-1] |
| Indicators.EmaPrefix | utils.py:41-42 | the EMA of a prefix is the prefix of the EMA (the recurrence is causal) |
| Indicators.EmaOfConstant | utils.py:41-42 | a constant input gives a constant output |
| Indicators.EmaWithinRange | utils.py:41-42 | for 0 <= a <= 1 every output lies within the bounds of the inputs |
| Indicators.EmaBoundedByPrefix | utils.py:41-42 | the EMA at bar t lies between the min and max of the inputs up to t |
| Regime.Detect | regime.py:19-25 | the three weights lie in [0, 1], and each is 0 when its regime flag is off |
| Regime.TrendWeightWhenOn | regime.py:19-23 | in a trend the trend weight is positive, and it is 1 once adx reaches the threshold plus 1e-9 |
| Regime.RangeWeightValue | regime.py:20-24 | for 0 <= adx < off the range weight is (off - adx) / off and is positive |
| Regime.TrendAndRangeExclusive | regime.py:19-24 | when adx_trend_on >= adx_range_off the trend and range weights are never both positive |
| Regime.DefaultsExclusive | regime.py:19-24 | the default thresholds 25 / 18 / 1.2 are valid and make trend and range exclusive |
| TrendFollower.SignalOf | experts/trend.py:4-23 | fewer than 20 bars is neutral; long iff close > MA20, short iff close < MA20; strength 0.8 exactly when not neutral |
| TrendFollower.FlatWindowIsNeutral | experts/trend.py:12-20 | 20 equal closes give MA20 = price and a neutral signal |
| TrendFollower.NewHighIsLong | experts/trend.py:12-16 | a last close above every other close of the window gives a long |
| MeanRevert.SignalOf | experts/mean_revert.py:4-23 | fewer than 20 bars is neutral; short iff the deviation from MA20 exceeds +5%, long iff it is below -5%; strength 0.6 exactly when not neutral |
| MeanRevert.OppositeToDeviation | experts/mean_revert.py:15-19 | for MA20 > 0: short iff price > 1.05 MA20, long iff price < 0.95 MA20, and the direction never has the sign of price - MA20 |
| Breakout.SignalOf | experts/breakout.py:4-23 | fewer than 20 bars is neutral; long iff close > 20-bar high; short iff otherwise close < 20-bar low; strength 1.0 exactly when not neutral |
| Breakout.WellFormedLastBarIsNeutral | experts/breakout.py:12-21 | since the window includes the last bar, a close within its own bar's range is always neutral |
| TrendPullback.SignalOf | experts/pullback.py:4-22 | fewer than 20 bars is neutral; long with 0.7 iff MA20 < price <= 1.02 MA20; never short |
| TrendPullback.OutsideBandIsNeutral | experts/pullback.py:15-20 | a price at or below MA20 or above 1.02 MA20 is neutral |
| VolSqueezeBreakout.SignalOf | experts/vol_squeeze.py:4-31 | fewer than 20 bars is neutral; no squeeze is neutral; in a squeeze long iff close > upper band, short iff close < lower band; strength 1.0 exactly when not neutral |
| VolSqueezeBreakout.SqueezeWidth | experts/vol_squeeze.py:16-21 | for MA20 > 0 the squeeze test is 4 std20 / MA20 < 0.05, i.e. 80 std20 < MA20 |
| IndicatorExperts.TrendPullbackSignal | pullback.py:8-22 | fewer than 210 bars is neutral; long iff EMA50 > EMA200 and RSI < 40, short iff EMA50 < EMA200 and RSI > 60; strengths min(1, (40 - rsi)/20) and min(1, (rsi - 60)/20), in (0, 1] |
| IndicatorExperts.TrendPullbackMidRsiIsNeutral | pullback.py:16-22 | an RSI within [40, 60] is never a setup |
| IndicatorExperts.TrendPullbackFollowsTrend | pullback.py:16-21 | a long only in an EMA uptrend, a short only in a downtrend |
| IndicatorExperts.AtrSqueezeSignal | pullback.py:33-48 | fewer than 100 bars is neutral; ratio > 1.2 gives the sign of close - EMA20; strength min(1, ratio/2), in [0.6, 1] |
| IndicatorExperts.AtrSqueezeNeedsExpansion | pullback.py:44-48 | no expansion, or a close exactly on EMA20, is neutral |
| Sizing.ComputeSlTp | utils_sizing.py:4-15 | price - sl = side k atr; tp1 and tp2 lie rr1 and rr2 stop distances from the price on the side of the trade |
| Sizing.LevelsOrdered | utils_sizing.py:11-14 | a long has sl <= price <= tp1 <= tp2, a short the mirror order |
| Sizing.LevelsExample | utils_sizing.py:4-15 | compute_sl_tp(100, 2) with the defaults is (96, 106, 110) |
| Sizing.PositionSizeByRisk | utils_sizing.py:17-31 | 0 when the stop distance is at most 1e-12; otherwise qty times distance times multiplier equals equity times risk (no result for a zero multiplier) |
| Sizing.SizeNonNegative | utils_sizing.py:25-29 | the quantity is defined and non-negative for non-negative equity and risk and a positive multiplier |
| Sizing.SizeExamples | utils_sizing.py:25-31 | a stop at the price gives 0; (10000, 0.01, 100, 98) gives 50 |
| Meta.Step | meta.py:18-32 | an unknown expert changes nothing; a known one gets first score contrib * pnl, later decay * last + (1 - decay) * contrib * pnl, and weight clip(1 + score, 0, 2); every other expert's score stays as it was |
| Meta.ApplyKeepsWeights | meta.py:17-32 | `update` adds or removes no expert and keeps every weight in [0, 2] |
| Meta.ApplyOthersUnchanged | meta.py:18-20 | an expert without a signal keeps its weight and its score (or keeps having none) |
| Meta.ApplyUnknownOnly | meta.py:19-20 | signals from unknown experts only leave the state unchanged |
| Meta.WeightOfModerateScore | meta.py:30-32 | a score within [-1, 1] becomes the weight 1 + score unclamped |
| Meta.NormalizedSumsToOne | meta.py:34-37 | weights with a nonzero sum sum to 1 after normalisation |
| Meta.NormalizeAllZero | meta.py:35-37 | all-zero weights stay as they are |
| Meta.NormalizeKeepsRange | meta.py:34-37 | non-negative weights normalise into [0, 1] |
| Meta.MetaLearner.constructor | meta.py:4-11 | every configured expert starts at 1.0, no scores, decay from the configuration or 0.9 |
| Meta.MetaLearner.GetWeight | meta.py:14-15 | the stored weight, or 1.0 for an unknown expert; always in [0, 2] |
| Meta.MetaLearner.Update | meta.py:17-32 | the new state is `Apply` of the old one over the signals in order |
| Meta.MetaLearner.NormalizeWeights | meta.py:34-37 | the weights become the normalised old weights; nothing else changes |
| Meta.MetaLearner.SumWeights | meta.py:35 | the loop returns the sum of the weights |
| Risk.VolScale | risk.py:104 | 0.02 / max(0.005, rv) lies in (0, 4] |
| Risk.VolScaleAntitone | risk.py:104 | a higher realised volatility never raises the scale |
| Risk.RiskGovernor.constructor | risk.py:17-25 | zero day P&L, no day, no cooldowns, no positions, zero exposure, empty history |
| Risk.RiskGovernor.ResetDay | risk.py:28-31 | a new day key zeroes the day P&L; the same key changes nothing (idempotent); nothing else changes |
| Risk.RiskGovernor.RegisterPnl | risk.py:33-39 | only the day P&L changes, by exactly +pnl; the limit flag reports the breach without halting anything |
| Risk.RiskGovernor.OnEquity | risk.py:41-45 | the new equity is last; the history grows by one below 1000 samples and drops its oldest at 1000, so it never exceeds 1000 |
| Risk.RiskGovernor.SetCooldown | risk.py:48-49 | the cooldown end becomes max(old end, now + secs): never lowered |
| Risk.RiskGovernor.IsCooldown | risk.py:51-52 | true iff now is before the stored end (before 0 for a symbol without one) |
| Risk.RiskGovernor.CurrentOpenCount | risk.py:54-55 | the number of positions with a non-zero size, at most the number of positions |
| Risk.OpenCount | risk.py:54-55 | the count of non-zero positions is at most the number of positions |
| Risk.OpenCountAdd | risk.py:54-55 | storing a symbol not yet in the ledger raises the count by one iff its size is non-zero |
| Risk.OpenCountRemove | risk.py:54-55 | deleting a symbol lowers the count by one iff it was there with a non-zero size; an unknown symbol leaves it |
| Risk.LedgerAfterClose | risk.py:88-92 | deleting a position takes exactly its \|notional\| out of the ledger sum, which stays non-negative |
| Risk.RiskGovernor.CanOpenAt | risk.py:61-82 | allowed iff the day is tradable, the count is below max_positions, (exposure + \|notional\|) / max(1, equity) is within the cap, the bucket has room and the symbol is not cooling down, for a given exposure |
| Risk.RiskGovernor.CanTradeToday | risk.py:61-66 | true without max_risk_per_day; with it, a non-negative day P&L passes whenever the limit is positive; a loss passes iff -pnl / max(1, equity) < limit |
| Risk.RiskGovernor.CanOpen | risk.py:68-82 | each reason (day-paused, too-many-positions, gross-exposure, corr-bucket, cooldown) is returned iff its test fails and all earlier tests pass; allowed iff all pass |
| Risk.RiskGovernor.OnOpen | risk.py:84-86 | exposure grows by \|notional\|, the record is stored, and for a symbol not already open the ledger stays exact and the open count rises by one iff the size is non-zero |
| Risk.RiskGovernor.OnClose | risk.py:88-92 | the symbol is gone; an unknown symbol leaves the exposure as is; otherwise max(0, exposure - \|notional\|); the ledger stays exact |
| Risk.RiskGovernor.DynamicBudget | risk.py:95-105 | base unit with a short history; otherwise at least the minimum, at most the maximum when min <= max, and base unit times the scale when that lies between them |
| Risk.RiskGovernor.DynamicBudgetAntitone | risk.py:104-105 | for a non-negative base unit, a higher realised volatility never raises the budget |
| Risk.RiskGovernor.NeverAboveMaxPositions | risk.py:71-72 | at or above max_positions `can_open` never allows |
| Scaling.ScanIsLastQualifying | autoscaler.py:27-31 | the tier loop returns the last tier whose bound equity reaches, or its start value when none does |
| Scaling.GreatestLowerBound | autoscaler.py:25-31 | on a sorted table the chosen tier is the one whose bound is reached and whose successor's is not |
| Scaling.NegativeEquityIsBottomTier | autoscaler.py:26-27 | negative equity counts as 0 and selects the bottom tier |
| Scaling.DefaultTierExamples | autoscaler.py:15-20 | 4000 and -50 select (0.008, 3, 0.30); 25000 selects (0.015, 6, 0.45) |
| Scaling.InsertKeepsElements | autoscaler.py:50 | inserting a tier adds exactly that tier |
| Scaling.InsertSorted | autoscaler.py:50 | inserting into a sorted table keeps it sorted |
| Scaling.SortTiersCorrect | autoscaler.py:50 | the sorted table is sorted by bound and a permutation of the input |
| Scaling.SortedFirstIsLowest | autoscaler.py:50-51 | the first tier of a sorted table has the lowest bound |
| Scaling.AutoScaler.constructor | autoscaler.py:12-23 | the default table, tier 0 applied, last apply time 0 |
| Scaling.AutoScaler.GetTierFor | autoscaler.py:25-31 | the loop returns the scan result, the last qualifying tier |
| Scaling.AutoScaler.GetSettings | autoscaler.py:33-44 | the desired tier is applied at `now` iff forced, or iff it differs and the cooldown has elapsed; otherwise nothing changes; the result is the settings in force |
| Scaling.AutoScaler.SetTiers | autoscaler.py:46-51 | the table becomes the sorted permutation of the input, and its lowest tier is applied |
| Scaling.CooldownScenario | autoscaler.py:33-44 | with a one-hour cooldown: forced at 25000 gives tier 2, a drop to 4000 inside the hour keeps tier 2, after it tier 0 |
| Registry.RemoveKey | position_registry.py:36-37 | the key order without the key, otherwise unchanged |
| Registry.PositionRegistry.constructor | position_registry.py:6-11 | no open positions and no cooldowns |
| Registry.PositionRegistry.ListOpen | position_registry.py:13-14 | one stored info per open symbol, in insertion order, covering every open symbol |
| Registry.PositionRegistry.SymbolExposure | position_registry.py:16-18 | the stored notional, or 0.0 when the symbol is not open or has none |
| Registry.PositionRegistry.CanOpen | position_registry.py:20-26 | true iff the symbol is not open and now is not before its cooldown end |
| Registry.PositionRegistry.Open | position_registry.py:28-33 | stores info stamped with entry_time = last_update = now; other symbols and cooldowns are untouched |
| Registry.PositionRegistry.Close | position_registry.py:35-39 | the symbol is gone (no error if absent); the cooldown is set to now + secs only for secs > 0, possibly shortening an earlier one |
| Registry.CloseThenReopen | position_registry.py:20-39 | after a close with a 60-second cooldown the symbol cannot reopen 59 s later and can 60 s later |
| Registry.PositionRegistry.ClearAll | position_registry.py:46-48 | no open positions and no cooldowns |
| TradeLog.Lower | summary_report.py:24 | `lower()` on ASCII: same length, upper-case letters shifted, everything else kept |
| TradeLog.Pnls | summary_report.py:17-27 | one pnl per row; row 0 is 0; row i is the pair P&L with row i-1 when the symbols match, else 0 |
| TradeLog.Curve | summary_report.py:18-28 | the equity curve starts at 0.0 |
| TradeLog.CurveEndsAtTotal | summary_report.py:28-31 | the last curve point is the total of the pnl column |
| TradeLog.CountsPartition | summary_report.py:32-34 | wins, losses and zero rows partition the rows |
| TradeLog.GrossLossSign | summary_report.py:40-41 | the summed losses are non-positive, and negative iff some row lost |
| TradeLog.GrossProfitSign | summary_report.py:39 | the gross profit is non-negative, and positive iff some row won |
| TradeLog.TotalIsProfitMinusLoss | summary_report.py:31-40 | the total P&L is gross profit minus gross loss |
| TradeLog.PerSymbolKeys | summary_report.py:37 | the groups are exactly the symbols of the log |
| TradeLog.PerSymbolTotal | summary_report.py:37 | the per-symbol sums add up to the total P&L |
| TradeLog.MaxDrawdown | summary_report.py:43-46 | the drawdown is non-negative and at least the fall from the curve's max to its last point |
| TradeLog.MaxDrawdownBoundsFalls | summary_report.py:43-46 | it bounds every fall from an earlier point to a later one |
| TradeLog.MaxDrawdownAttained | summary_report.py:43-46 | and equals one such fall |
| TradeLog.ReportCounts | summary_report.py:32-35 | trades = wins + losses, trades plus zero rows is the row count, win rate in [0, 100] |
| TradeLog.ReportRisk | summary_report.py:41-46 | the profit factor is infinite iff no row lost, otherwise non-negative; the drawdown is non-negative |
| TradeLog.ReportTotals | summary_report.py:31-37 | the total P&L is the last curve point and the sum of the per-symbol groups; the groups are the log's symbols |
| TradeLog.FillPnl | summary_report.py:17-28 | the loop fills the pnl column and the curve exactly as `Pnls` and `Curve` define them |
| TradeLog.ComputeReport | broker.py:165-203 | the computed report is `ReportOf` of the rows |
| Broker.NoLotSizeFilter | broker.py:107-111 | without a LOT_SIZE filter, step and min_qty stay 0 |
| Broker.LastLotSizeWins | broker.py:108-111 | the last LOT_SIZE filter sets step and min_qty, whatever precedes it |
| Broker.SteppedBounds | broker.py:112-113 | flooring to the step never increases the amount and loses less than one step |
| Broker.ToPrecisionNotAbove | broker.py:116-119 | precision flooring, for a whole number of decimal places (negative included), never increases the amount |
| Broker.RoundedAmountStages | broker.py:104-120 | step flooring, then the raise to min_qty when below it, then precision flooring at a whole number of decimal places (negative included), each as written |
| Broker.RoundedAmountIdentity | broker.py:104-120 | with no LOT_SIZE filter and no precision the amount is unchanged |
| Broker.ScanFilters | broker.py:107-111 | the filter loop yields the values of the last LOT_SIZE filter |
| Broker.RoundAmount | broker.py:104-120 | `_round_amount` computes `RoundedAmount`, with the precision a whole number of decimal places (negative included) |
| Broker.PaperBroker.constructor | broker.py:50-79 | no session fills; paper mode without a log creates an empty one |
| Broker.PaperBroker.PlaceOrder | broker.py:122-155 | size <= 0 or a rounded amount <= 0 is refused and records nothing; a paper fill at the given or ticker price is appended to fills and log; a live order sends the rounded amount with LONG/SHORT in hedge mode and records nothing |
| Broker.PaperBroker.GetPaperReport | broker.py:157-163 | the report of this broker's log, or its error |
| Broker.PaperReport | broker.py:157-203 | no log and fewer than two rows give their error messages; otherwise the report of the rows |
| Broker.OneWinReport | broker.py:178-181 | an opening row and a profitable closing row make one trade, won, none lost |
| Broker.PaperRoundTrip | broker.py:122-203 | a paper buy and a higher paper sell of the same amount give a report of one winning trade |
| Summary.CurveLength | summary_report.py:18-28 | the curve has one point more than there are paired rows |
| Summary.CurveSteps | summary_report.py:19-28 | each point after the first adds one paired row's P&L to the previous point |
| Summary.GenerateSummary | summary_report.py:6-14 | nothing without a log or with fewer than two rows, otherwise the report |
| Summary.SummaryFacts | summary_report.py:31-46 | in any summary trades = wins + losses, the curve ends at the total, the drawdown is non-negative, and the profit factor is infinite iff nothing lost |
| Backtest.RegimeDivisor | backtest_portfolio.py:79 | `sum or 1.0` is never 0 |
| Backtest.NormalizeRegimeSpec | backtest_portfolio.py:79-80 | a nonzero sum normalises to 1 with the proportions kept; a zero sum leaves the weights as they are (no uniform fallback) |
| Backtest.NormalizedShares | backtest_portfolio.py:79-80 | non-negative weights with a nonzero sum normalise to shares in [0, 1] that add up to exactly 1 |
| Backtest.NormalizeDetected | backtest_portfolio.py:73-80 | detected weights normalise into [0, 1] with a sum of at most 1 |
| Backtest.OnlyRegimeExpertsWeighted | backtest_portfolio.py:86 | only 'trend', 'mean_revert' and 'breakout' can carry a nonzero weight |
| Backtest.ExpertWeightWithin | backtest_portfolio.py:86 | an expert's weight lies between 0 and twice its regime weight |
| Backtest.WeightedStrengthBounds | backtest_portfolio.py:87 | the weighted strength clip(strength, 0, 1) * w lies in [0, w] |
| Backtest.NetBounded | backtest_portfolio.py:89 | \|net\| is at most the total weight |
| Backtest.TotalWeightAtMostTwice | backtest_portfolio.py:86 | meta weights in [0, 2] at most double the total regime weight |
| Backtest.PanelRegimeTotal | backtest_portfolio.py:74-86 | the panel's regime weights are the three normalised weights |
| Backtest.PanelNetBounded | backtest_portfolio.py:74-89 | for the five experts the net lies in [-2, 2] |
| Backtest.SymbolStepKeepsOk | backtest_portfolio.py:112-114 | entries stay positive prices |
| Backtest.SymbolStepRules | backtest_portfolio.py:106-114 | no decision flattens an open holding; an opposing decision closes and reopens on the decided side; an agreeing one keeps it; from flat a decision opens at price(1 ± SLIPPAGE) |
| Backtest.MarkToMarketSign | backtest_portfolio.py:101-104 | a long earns its return net of fee and slippage times \|pos\|, a short the opposite; a long at or below entry loses |
| Backtest.BarFold | backtest_portfolio.py:71-115 | the book keeps its symbols and its invariant |
| Backtest.BarFoldOthers | backtest_portfolio.py:71-115 | a symbol outside the bar's tradables keeps its holding |
| Backtest.ProcessBar | backtest_portfolio.py:68-115 | the loop computes `BarFold`: the bar's pnl_step and the new book |
| Backtest.EquityCurve | backtest_portfolio.py:118-119 | one equity point per bar |
| Backtest.EquityCurveStep | backtest_portfolio.py:118 | each point is the previous one (or the start) times 1 + that bar's step |
| Backtest.EquityCurveSign | backtest_portfolio.py:118 | equity stays non-negative while no step is below -1, and positive while every step is above -1 |
| Backtest.Compound | backtest_portfolio.py:117-119 | the loop records `EquityCurve` and ends at its last point |
| Runner.StrengthToProb | runner.py:42-44 | p lies in [0.45, 0.66]; 0.46 + 0.2 s for s in [0, 1]; the clamps at both ends |
| Runner.StrengthToProbMonotone | runner.py:42-44 | p is non-decreasing in the strength |
| Runner.EuFilterNeverRejects | runner.py:187-191 | EU lies in [0.125, 0.65], so the `eu <= 0` filter never rejects |
| Runner.KellyFraction | runner.py:221-223 | kelly_f lies in [0, 0.5] |
| Runner.KellyIsEdgeOverOdds | runner.py:221-223 | neither clamp is active: kelly_f = EU / 1.5, in (0.08, 0.44) |
| Runner.KellyMonotone | runner.py:223 | kelly_f is non-decreasing in the strength |
| Runner.SizeMultiplier | runner.py:224 | 0.5 + kelly_f lies in [0.5, 1] |
| Runner.PassFilters | runner.py:46-68 | passing requires a frame of 50+ bars, a non-zero direction, EMAs and RSI on its side and ATR within 1%-6% of the close; a NaN RSI never passes |
| Runner.PassFiltersComplete | runner.py:46-68 | a frame meeting every layer passes |
| Runner.TfNetBounded | runner.py:178 | \|net\| of a timeframe is at most its signal count |
| Runner.TfNetNeutral | runner.py:178 | all-neutral directions give a zero net |
| Runner.CombinedBounded | runner.py:179 | \|combined\| is at most 0.3, 0.3 and 0.4 times the signal counts |
| Runner.AllNeutralIsFlat | runner.py:178-182 | all-neutral experts give a flat decision |
| Runner.CandidateOf | runner.py:178-192 | no candidate iff the decision is flat or the filters fail; otherwise the symbol with its decision and a positive EU |
| Runner.CandidatesShape | runner.py:160-192 | every candidate has direction ±1, strength in (0.05, 1] and a positive EU |
| Runner.CollectCandidates | runner.py:160-192 | the loop collects `CandidatesOf`, at most one per symbol |
| Runner.SlotsRemaining | runner.py:216 | max(1, cap - open) |
| Runner.RiskFraction | runner.py:216-217 | the fraction is at most the tier's risk and the day budget per remaining slot, and is one of them |
| Runner.RiskQuantityStopLoss | runner.py:219-224 | the Kelly-scaled quantity is non-negative; its stop-out loss is at most equity * fraction and at least half of it |
| Runner.SizingRiskBound | runner.py:215-224 | before rounding the stop-out loss is within equity * risk per trade, and over every remaining slot within equity * max risk per day |
| Runner.Breakeven | runner.py:267-271 | the stop moves to the entry iff one R is positive and the move in favour reaches it, otherwise stays |
| Runner.Trail | runner.py:273-280 | below 1.5 R nothing changes; a long's stop never goes down and a short's never up; the new stop is the old one or price ∓ 1.2 ATR |
| Runner.ManageStep | runner.py:261-296 | a long exits iff price <= new stop or >= tp2, a short mirrors it |
| Runner.StopTightensFromLossSide | runner.py:267-280 | while the stop is on the loss side of the entry one step never loosens it |
| Runner.StopCanLoosenAcrossCycles | runner.py:268-271 | counterexample: a long at 100 trailed to 105 sees 106 and its stop goes back to 100 without exiting |
| Runner.ClosePnlSign | runner.py:296 | the realised P&L is positive iff the price moved in the position's favour |
| Runner.OpenSymbols | runner.py:199 | the open list holds exactly the symbols with a non-zero position |
| Runner.OpenSymbolsDistinct | runner.py:199 | distinct symbols give an open list without repeats |
| Runner.RemoveFirst | runner.py:302-305 | `remove` takes one occurrence if any, ignoring its absence |
| Runner.RemoveFirstGone | runner.py:302-305 | without repeats the symbol is gone from the list |
| Runner.ManageOne | runner.py:259-306 | management of one symbol changes only that symbol's slot and keeps every slot well-formed |
| Runner.ManageOneExit | runner.py:292-305 | an exit realises the step's P&L, flattens the slot and takes the symbol off the open list |
| Runner.ManageOneQuotes | runner.py:261-274 | only the managed symbol's quote matters |
| Runner.ManageAll | runner.py:258-306 | the loop over the snapshot keeps the slots' keys and well-formedness |
| Runner.ManageAllFrame | runner.py:258-306 | symbols outside the snapshot keep their slots; the open list only loses entries |
| Runner.RunnerRiskConfig | runner.py:91-100 | no buckets map; the daily loss limit is the fraction times the capital; the day budget and cap as given |
| Runner.NoBucketRejection | risk.py:76-79 | with no buckets map no symbol is refused for its correlation bucket |
| Runner.Commander.constructor | runner.py:102-114 | every symbol starts flat, with no open list and no realised P&L |
| Runner.CollectOpen | runner.py:199 | the loop over the symbols collects exactly `OpenSymbols` of the state |
| Runner.Commander.RefreshOpen | runner.py:199 | the open list is rebuilt from the state, without repeats for distinct symbols |
| Runner.Commander.TryOpen | runner.py:206-255 | placed iff tradable, rounded quantity positive, `can_open` allows and (dry run or filled); then slot, open list and ledger are set from the plan; otherwise nothing changes |
| Runner.OpenFoldStopped | runner.py:204-205 | once the open list reaches the cap the remaining candidates change nothing (the `break`) |
| Runner.OpenFoldGrows | runner.py:203-256 | the open list keeps its old entries as a prefix and grows only up to the cap; the exposure never falls |
| Runner.OpenStepEntry | runner.py:206-255 | one candidate either changes nothing or appends its tradable symbol with a non-zero position registered with the governor, other slots untouched |
| Runner.OpenFoldEntries | runner.py:203-256 | every appended symbol is tradable, holds a non-zero position and is in the governor's ledger |
| Runner.OpenFoldOthers | runner.py:203-256 | a symbol not appended keeps its slot |
| Runner.OpenFoldKeys | runner.py:203-256 | with every candidate already a slot, the set of slots is unchanged |
| Runner.OpenFoldNoFills | runner.py:238-245 | a live run in which no order fills opens nothing |
| Runner.Commander.OpenTurn | runner.py:204-255 | one turn below the cap moves slots, open list, ledger and exposure to `OpenStep` of the old ones; day P&L and cooldowns stay |
| Runner.Commander.OpenNext | runner.py:203-256 | one loop turn takes the state from the fold over k candidates to the fold over k + 1 |
| Runner.Commander.OpenCandidates | runner.py:203-256 | slots, open list, governor positions and exposure become `OpenFold` of the old ones over the candidates in order, stopping at the cap; slot keys, realised P&L, day P&L and cooldowns stay |
| Runner.Commander.ManageSymbol | runner.py:259-306 | the book becomes `ManageOne` of the old book; the position is kept or flattened; the day P&L moves with the realised P&L; on an exit the governor drops the position, its exposure falls as `on_close` says and only this symbol's cooldown becomes max(old, now + 1800); without one positions, exposure and cooldowns stay; exposure never rises and an exact ledger stays exact |
| Runner.Commander.ManageOpenSlot | runner.py:261-306 | the same for an open slot: flat afterwards means closed as above, otherwise the governor is untouched |
| Runner.Commander.MoveStop | runner.py:265-280 | only the symbol's stop changes; open list and realised P&L stay, cooldowns are kept |
| Runner.Commander.CloseSlot | runner.py:292-306 | the slot goes flat, the symbol leaves the open list and the governor, the P&L is realised and registered, the exposure becomes max(0, exposure - \|notional\|) for a known symbol and stays otherwise (so never rises, and an exact ledger stays exact), and only this symbol's cooldown becomes max(old, now + 1800) |
| Runner.Commander.CloseInGovernor | runner.py:297-306 | the governor side of a close: the P&L is registered, the symbol leaves the positions, the exposure becomes max(0, exposure - \|notional\|) for a known symbol, only this symbol's cooldown becomes max(old, now + 1800), and the day and equity history stay |
| Runner.ExitedStep | runner.py:259-306 | a turn that changes one slot, flattening it or keeping its position, adds exactly that symbol to the exits when it flattens an open slot, and opens nothing |
| Runner.TrackStep | runner.py:258-306 | one turn keeps the exits, the ledger (start less exits) and the cooldowns off the exits in step |
| Runner.Commander.ManageTracked | runner.py:258-306 | one loop turn keeps `Tracked`: exits cooling down and out of the ledger, other cooldowns as at the start, nothing opened, exposure not above the start |
| Runner.Commander.ManagePositions | runner.py:258-306 | the book becomes `ManageAll` over the old open list; each exited symbol is flat, gone from the governor and cooling down for 1800 s; the governor keeps exactly the positions that did not exit and every other symbol's cooldown; exposure never rises and an exact ledger stays exact; the day P&L moves with the realised P&L |

## Left out

- Exchange, network, file and CSV access are not modelled:
  - the ccxt client, `_check_hedge_mode`, `fetch_ohlcv`, `get_price` and `create_order` in broker.py;
  - `load_ccxt` and the data fetch in runner.py;
  - the log file writes;
  - `pd.read_csv`.
  Instead, the markets, the ticker price, the log rows and the live fill outcome are parameters.
- Sleeping, retrying forever, printing and the logger are left out. So are plot_equity.py,
  base.py and config.py; the config values are used as parameters.
- Floating-point numerics are not modelled: Wilder `rma`, ATR, ADX, RSI, z-score, the pandas
  `ewm` in `pass_filters`, the rolling standard deviation, `np.log`/`np.std` for `rv` and the
  back-test metrics (CAGR, Sharpe, drawdown). Their values are inputs. Numbers are exact reals,
  not IEEE doubles.
- Runner.Commander.OpenCandidates: the sort by EU at runner.py:195 is not modelled; candidates
  are taken in the order given. The capacity bound is stated for the case where the open list
  starts within the cap.
- Runner.Commander.TryOpen: in live mode the outcome of the opening order is the `liveFills`
  parameter.
- Runner.Commander.CloseSlot, Runner.Commander.ManagePositions: the reduce-only closing order
  that live mode sends at runner.py:293-295 is not modelled; the close is booked as if it filled.
- Broker.RoundedAmountStages, Broker.RoundAmount, Broker.ToPrecisionNotAbove: `precision.amount`
  is modelled as a whole number of decimal places, negative ones included. A fractional
  precision, such as the step 0.001 that ccxt reports in its TICK_SIZE mode, makes
  `10 ** precision` a non-integer power (about 1.0023) that the model cannot express; with it,
  broker.py:117-119 floors every amount below about 1 to 0.
- Runner.SizingRiskBound: the bound is stated before rounding. Raising the amount to `min_qty`
  at broker.py:114-115 can exceed the risk budget.
- The runner's auto-scaler refresh (runner.py:146-151) and the candidate ranking are left out.
  The tier values arrive as parameters, and `rank_by_momentum`/`pick_diversified` are not part
  of this model (the tradables are a parameter).
- `per_slot_budget` at runner.py:215 is computed but never used, so it is not modelled in the
  loop.
- The exception paths that abort a cycle are left out.
- Meta.MetaLearner.Update: the model follows the per-expert recurrence. It does not reproduce
  the NaN cells that the DataFrame row appends at meta.py:24-29 leave in the other experts'
  columns. The global `len(history) == 0` test is kept as the `started` flag.
- Backtest: `risk.decide`, `open_position` and `close_position` (backtest_portfolio.py:95, 109,
  115) do not exist in risk.py.
  - The decision is an input `Option<OrderDecision>`.
  - The opening and closing calls to the governor are not modelled.
- Invalid Python: backtest_portfolio.py:99 and 140 and pullback.py:24 are not valid Python; only
  the rules they state are modelled.
- Registry: `enforce_ttl` is a no-op and is not modelled.
- VolSqueezeBreakout.SignalOf: the 20-bar standard deviation is an input.
- Risk.RiskGovernor.DynamicBudget: the realised volatility `rv` is an input.
- TradeLog.ComputeReport, Broker.PaperReport and Summary.GenerateSummary: the report holds exact
  values. The rounding of `total_pnl` and `avg_pnl` to 4 places and of `profit_factor` and
  `max_drawdown` to 2 (broker.py:193-203, summary_report.py:48-58) is not modelled. The win rate
  is a number, not the "x.xx%" string.
- Scaling.AutoScaler.SetTiers: an empty table is not modelled. On `[]` the code at
  autoscaler.py:50-51 sets `tiers` to `[]` and then raises IndexError, and every later
  `get_tier_for` would fail too; the model requires a non-empty table.
- Backtest: the per-bar governor calls `risk.reset_day`, `register_pnl` and `on_equity`
  (backtest_portfolio.py:61, 120-121) are not modelled; the back-test model carries no governor.

## Where the code and its description differ

The model follows the code in each case below.

- **The stop can move back across cycles.** At runner.py:268 one R is recomputed from the
  current stop, so a stop that has trailed past the entry can be reset to the entry on a later
  cycle. Runner.StopCanLoosenAcrossCycles exhibits this. Only the trailing assignment itself
  is monotone (Runner.Trail, Runner.StopTightensFromLossSide).
- **No uniform fallback.** Regime weights that sum to 0 stay all zero
  (backtest_portfolio.py:79-80), and so do all-zero meta weights (meta.py:35-37).
- **A loss-limit breach does not halt trading.** `register_pnl` only prints. `can_trade_today`
  compares the day's loss fraction with `max_risk_per_day`, not with `daily_loss_limit`.
- **An open symbol can be opened again.** The capacity loop at runner.py:203-256 does not skip
  symbols that are already open. Such a symbol is appended to `open_positions` again, and its
  notional is added to the exposure ledger a second time. The ledger stays exact only for
  symbols not already open (Risk.RiskGovernor.OnOpen).
