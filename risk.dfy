/**
 * `RiskGovernor` (risk.py): the day-scoped P&L, the admission gate, the exposure ledger, the
 * per-symbol cooldowns, the bounded equity history and the volatility-scaled budget.
 *
 * The clock (`time.time()`) is the `now` parameter. The realised volatility of the last
 * `lookback` equity values (a log/std computation) is the `rv` parameter of DynamicBudget.
 * Attributes that the code reads with `hasattr`/`getattr` are `Option`s whose `None` selects
 * the code's default.
 */
module Risk {
  import opened Common

  datatype RiskConfig = RiskConfig(
    maxRiskPerDay: Option<real>,
    dailyLossLimit: Option<real>,
    maxPositions: int,
    maxGrossExposure: real,
    bucketsMap: map<string, string>,
    maxPerBucket: int,
    portfolioRiskUnit: Option<real>,
    dynBudgetLookback: Option<int>,
    dynBudgetMin: Option<real>,
    dynBudgetMax: Option<real>)

  /** The record `on_open` stores for a symbol. */
  datatype PositionRecord = PositionRecord(size: real, entry: real, sl: real, tp: Option<real>, notional: real)

  /** The reasons `can_open` can refuse with, in the order it checks them. */
  datatype RejectReason = DayPaused | TooManyPositions | GrossExposureCap | CorrBucket | Cooldown

  datatype Admission = Allowed | Rejected(reason: RejectReason)

  /** The reason string `can_open` returns alongside its verdict. */
  function ReasonText(a: Admission): string {
    match a
    case Allowed => ""
    case Rejected(DayPaused) => "day-paused"
    case Rejected(TooManyPositions) => "too-many-positions"
    case Rejected(GrossExposureCap) => "gross-exposure"
    case Rejected(CorrBucket) => "corr-bucket"
    case Rejected(Cooldown) => "cooldown"
  }

  const HistoryCap := 1000

  /** The absolute notional of every open position, the terms of the exposure ledger. */
  function Notionals(ps: map<string, PositionRecord>): map<string, real> {
    map s | s in ps :: Abs(ps[s].notional)
  }

  lemma NotionalsAdd(ps: map<string, PositionRecord>, s: string, r: PositionRecord)
    ensures Notionals(ps[s := r]) == Notionals(ps)[s := Abs(r.notional)]
  {
  }

  lemma NotionalsRemove(ps: map<string, PositionRecord>, s: string)
    ensures Notionals(ps - {s}) == Notionals(ps) - {s}
  {
  }

  /** The symbols whose recorded size is non-zero: what `current_open_count` counts. */
  function OpenKeys(ps: map<string, PositionRecord>): set<string> {
    set s | s in ps && Abs(ps[s].size) > 0.0
  }

  function OpenCount(ps: map<string, PositionRecord>): (n: nat)
    ensures n <= |ps|
  {
    SubsetCard(OpenKeys(ps), ps.Keys);
    |OpenKeys(ps)|
  }

  /** Recording a new symbol adds one to the count exactly when its size is non-zero. */
  lemma OpenCountAdd(ps: map<string, PositionRecord>, s: string, r: PositionRecord)
    requires s !in ps
    ensures OpenCount(ps[s := r]) == OpenCount(ps) + (if Abs(r.size) > 0.0 then 1 else 0)
  {
    if Abs(r.size) > 0.0 {
      assert OpenKeys(ps[s := r]) == OpenKeys(ps) + {s};
    } else {
      assert OpenKeys(ps[s := r]) == OpenKeys(ps);
    }
  }

  /** Forgetting a symbol takes one off the count exactly when it was recorded with a non-zero size. */
  lemma OpenCountRemove(ps: map<string, PositionRecord>, s: string)
    ensures OpenCount(ps - {s}) == OpenCount(ps) - (if s in ps && Abs(ps[s].size) > 0.0 then 1 else 0)
  {
    if s in ps && Abs(ps[s].size) > 0.0 {
      assert OpenKeys(ps - {s}) == OpenKeys(ps) - {s};
    } else {
      assert OpenKeys(ps - {s}) == OpenKeys(ps);
    }
  }

  /** Forgetting a recorded position takes its |notional| off an exact ledger, and the clamp never binds. */
  lemma LedgerAfterClose(ps: map<string, PositionRecord>, s: string)
    requires s in ps
    ensures SumValues(Notionals(ps - {s})) == SumValues(Notionals(ps)) - Abs(ps[s].notional)
    ensures SumValues(Notionals(ps - {s})) >= 0.0
  {
    var before := Notionals(ps);
    NotionalsRemove(ps, s);
    assert before[s] == Abs(ps[s].notional);
    SumValuesRemove(before, s);
    SumValuesNonNegative(before - {s});
  }

  /** The ratio `can_open` compares with the gross exposure cap, for a ledger at `exposure`. */
  function ExposureRatio(exposure: real, equity: real, symbolNotional: real): real {
    (exposure + Abs(symbolNotional)) / Max(1.0, equity)
  }

  /** `max(0.005, rv)` in the denominator of the budget, so the scale 0.02 / it is at most 4. */
  function VolScale(rv: real): (k: real)
    ensures 0.0 < k <= 4.0
  {
    var d := Max(0.005, rv);
    QuotientVersusOne(0.02, d);
    assert 0.02 / d <= 4.0 by {
      QuotientCompare(0.02, d, 4.0);
    }
    0.02 / d
  }

  lemma VolScaleAntitone(rv1: real, rv2: real)
    requires rv1 <= rv2
    ensures VolScale(rv2) <= VolScale(rv1)
  {
    var d1, d2 := Max(0.005, rv1), Max(0.005, rv2);
    var q1 := 0.02 / d1;
    assert q1 * d1 == 0.02;
    QuotientVersusOne(0.02, d1);
    MulNonNegative(q1, d2 - d1);
    assert q1 * d2 >= 0.02;
    QuotientCompare(0.02, d2, q1);
  }

  class RiskGovernor {
    const cfg: RiskConfig
    var dailyPnl: real
    var currentDay: Option<int>
    var cooldownUntil: map<string, real>
    var positions: map<string, PositionRecord>
    var grossExposure: real
    var equityHistory: seq<real>

    /** The invariants every method keeps: a non-negative exposure and at most 1000 samples. */
    ghost predicate Valid()
      reads this
    {
      grossExposure >= 0.0 && |equityHistory| <= HistoryCap
    }

    /** The exposure ledger equals the sum of the open notionals' absolute values. */
    ghost predicate LedgerExact()
      reads this
    {
      grossExposure == SumValues(Notionals(positions))
    }

    constructor (config: RiskConfig)
      ensures Valid() && LedgerExact()
      ensures cfg == config
      ensures dailyPnl == 0.0 && currentDay == None
      ensures cooldownUntil == map[] && positions == map[]
      ensures grossExposure == 0.0 && equityHistory == []
    {
      cfg := config;
      dailyPnl := 0.0;
      currentDay := None;
      cooldownUntil := map[];
      positions := map[];
      grossExposure := 0.0;
      equityHistory := [];
      new;
      assert Notionals(positions) == map[];
    }

    /** `reset_day`: a new day key zeroes the day's P&L; the same key changes nothing. */
    method ResetDay(dayKey: int)
      requires Valid()
      modifies this
      ensures Valid()
      ensures old(currentDay) != Some(dayKey) ==> currentDay == Some(dayKey) && dailyPnl == 0.0
      ensures old(currentDay) == Some(dayKey) ==> currentDay == old(currentDay) && dailyPnl == old(dailyPnl)
      ensures cooldownUntil == old(cooldownUntil) && positions == old(positions)
      ensures grossExposure == old(grossExposure) && equityHistory == old(equityHistory)
    {
      if currentDay != Some(dayKey) {
        currentDay := Some(dayKey);
        dailyPnl := 0.0;
      }
    }

    /**
     * `register_pnl`: adds the P&L to the day's total and nothing else. `limitHit` reports
     * whether the daily loss limit message is printed; no halt state is set.
     */
    method RegisterPnl(pnlUsd: real) returns (limitHit: bool)
      requires Valid()
      modifies this
      ensures Valid()
      ensures dailyPnl == old(dailyPnl) + pnlUsd
      ensures limitHit <==> cfg.dailyLossLimit.Some? && dailyPnl <= -Abs(cfg.dailyLossLimit.value)
      ensures currentDay == old(currentDay) && cooldownUntil == old(cooldownUntil) && positions == old(positions)
      ensures grossExposure == old(grossExposure) && equityHistory == old(equityHistory)
    {
      dailyPnl := dailyPnl + pnlUsd;
      limitHit := cfg.dailyLossLimit.Some? && dailyPnl <= -Abs(cfg.dailyLossLimit.value);
    }

    /** `on_equity`: append, then drop the oldest sample once there are more than 1000. */
    method OnEquity(equity: real)
      requires Valid()
      modifies this
      ensures Valid()
      ensures |equityHistory| > 0 && equityHistory[|equityHistory| - 1] == equity
      ensures |old(equityHistory)| < HistoryCap ==> equityHistory == old(equityHistory) + [equity]
      ensures |old(equityHistory)| == HistoryCap ==> equityHistory == old(equityHistory)[1..] + [equity]
      ensures dailyPnl == old(dailyPnl) && currentDay == old(currentDay)
      ensures cooldownUntil == old(cooldownUntil) && positions == old(positions)
      ensures grossExposure == old(grossExposure)
    {
      equityHistory := equityHistory + [equity];
      if |equityHistory| > HistoryCap {
        equityHistory := equityHistory[1..];
      }
    }

    /** The stored cooldown end of a symbol; the defaultdict reads 0.0 for a missing one. */
    function CooldownOf(symbol: string): real
      reads this`cooldownUntil
    {
      if symbol in cooldownUntil then cooldownUntil[symbol] else 0.0
    }

    /** `set_cooldown`: the cooldown end becomes the later of the stored one and now + secs. */
    method SetCooldown(symbol: string, secs: int, now: real)
      requires Valid()
      modifies this
      ensures Valid()
      ensures cooldownUntil == old(cooldownUntil)[symbol := Max(old(CooldownOf(symbol)), now + secs as real)]
      ensures CooldownOf(symbol) >= old(CooldownOf(symbol)) && CooldownOf(symbol) >= now + secs as real
      ensures dailyPnl == old(dailyPnl) && currentDay == old(currentDay) && positions == old(positions)
      ensures grossExposure == old(grossExposure) && equityHistory == old(equityHistory)
    {
      var current := CooldownOf(symbol);
      cooldownUntil := cooldownUntil[symbol := Max(current, now + secs as real)];
    }

    /** `is_cooldown`: the symbol's cooldown end lies in the future. */
    function IsCooldown(symbol: string, now: real): (b: bool)
      reads this`cooldownUntil
      ensures b <==> (symbol in cooldownUntil && now < cooldownUntil[symbol]) || (symbol !in cooldownUntil && now < 0.0)
    {
      now < CooldownOf(symbol)
    }

    /** `current_open_count`: the positions with a non-zero size. */
    function CurrentOpenCount(): (n: nat)
      reads this
      ensures n == |set s | s in positions && Abs(positions[s].size) > 0.0|
      ensures n <= |positions|
    {
      OpenCount(positions)
    }

    /** `can_trade_today`: the day's drawdown fraction stays below max_risk_per_day. */
    function CanTradeToday(equity: real): (b: bool)
      ensures cfg.maxRiskPerDay.None? ==> b
      ensures cfg.maxRiskPerDay.Some? && dailyPnl >= 0.0 ==> (b <==> 0.0 < cfg.maxRiskPerDay.value)
      ensures cfg.maxRiskPerDay.Some? && dailyPnl < 0.0 ==>
        (b <==> -dailyPnl < cfg.maxRiskPerDay.value * Max(1.0, equity))
      reads this`dailyPnl
    {
      if cfg.maxRiskPerDay.None? then true
      else
        var capital := Max(1.0, equity);
        var ddFrac := if dailyPnl < 0.0 then -dailyPnl / capital else 0.0;
        QuotientCompare(-dailyPnl, capital, cfg.maxRiskPerDay.value);
        ddFrac < cfg.maxRiskPerDay.value
    }

    /** The symbol's correlation bucket, when `buckets_map` gives it a non-empty one. */
    function BucketOf(symbol: string): Option<string> {
      if symbol in cfg.bucketsMap && cfg.bucketsMap[symbol] != "" then Some(cfg.bucketsMap[symbol]) else None
    }

    function ExposureAfter(equity: real, symbolNotional: real): real
      reads this
    {
      ExposureRatio(grossExposure, equity, symbolNotional)
    }

    predicate BucketFull(symbol: string, corrBucketCount: map<string, int>) {
      BucketOf(symbol).Some? &&
      (if BucketOf(symbol).value in corrBucketCount then corrBucketCount[BucketOf(symbol).value] else 0) >= cfg.maxPerBucket
    }

    /**
     * `can_open`: the first failing check, in the order day-paused, too-many-positions,
     * gross-exposure, corr-bucket (only for a bucketed symbol), cooldown.
     */
    function CanOpen(equity: real, symbol: string, symbolNotional: real,
                     corrBucketCount: map<string, int>, openPositionsCount: int, now: real): (a: Admission)
      reads this
      ensures a == Rejected(DayPaused) <==> !CanTradeToday(equity)
      ensures a == Rejected(TooManyPositions) <==>
        CanTradeToday(equity) && openPositionsCount >= cfg.maxPositions
      ensures a == Rejected(GrossExposureCap) <==>
        CanTradeToday(equity) && openPositionsCount < cfg.maxPositions &&
        ExposureAfter(equity, symbolNotional) > cfg.maxGrossExposure
      ensures a == Rejected(CorrBucket) <==>
        CanTradeToday(equity) && openPositionsCount < cfg.maxPositions &&
        ExposureAfter(equity, symbolNotional) <= cfg.maxGrossExposure &&
        BucketFull(symbol, corrBucketCount)
      ensures a == Rejected(Cooldown) <==>
        CanTradeToday(equity) && openPositionsCount < cfg.maxPositions &&
        ExposureAfter(equity, symbolNotional) <= cfg.maxGrossExposure &&
        !BucketFull(symbol, corrBucketCount) && IsCooldown(symbol, now)
      ensures a == Allowed <==>
        CanTradeToday(equity) && openPositionsCount < cfg.maxPositions &&
        ExposureAfter(equity, symbolNotional) <= cfg.maxGrossExposure &&
        !BucketFull(symbol, corrBucketCount) && !IsCooldown(symbol, now)
    {
      CanOpenAt(grossExposure, equity, symbol, symbolNotional, corrBucketCount, openPositionsCount, now)
    }

    /**
     * The checks of `can_open` against a ledger standing at `exposure`; they read the day's
     * P&L and the cooldowns but not the ledger itself.
     */
    function CanOpenAt(exposure: real, equity: real, symbol: string, symbolNotional: real,
                       corrBucketCount: map<string, int>, openPositionsCount: int, now: real): (a: Admission)
      reads this`dailyPnl, this`cooldownUntil
      ensures a == Allowed <==>
        CanTradeToday(equity) && openPositionsCount < cfg.maxPositions &&
        ExposureRatio(exposure, equity, symbolNotional) <= cfg.maxGrossExposure &&
        !BucketFull(symbol, corrBucketCount) && !IsCooldown(symbol, now)
    {
      if !CanTradeToday(equity) then Rejected(DayPaused)
      else if openPositionsCount >= cfg.maxPositions then Rejected(TooManyPositions)
      else if ExposureRatio(exposure, equity, symbolNotional) > cfg.maxGrossExposure then Rejected(GrossExposureCap)
      else if BucketFull(symbol, corrBucketCount) then Rejected(CorrBucket)
      else if IsCooldown(symbol, now) then Rejected(Cooldown)
      else Allowed
    }

    /** `on_open`: adds |notional| to the ledger and records the position. */
    method OnOpen(symbol: string, notional: real, size: real, entry: real, sl: real, tp: Option<real>)
      requires Valid()
      modifies this
      ensures Valid()
      ensures grossExposure == old(grossExposure) + Abs(notional)
      ensures positions == old(positions)[symbol := PositionRecord(size, entry, sl, tp, notional)]
      ensures symbol !in old(positions) && old(LedgerExact()) ==> LedgerExact()
      ensures symbol !in old(positions) ==>
        OpenCount(positions) == OpenCount(old(positions)) + (if Abs(size) > 0.0 then 1 else 0)
      ensures dailyPnl == old(dailyPnl) && currentDay == old(currentDay)
      ensures cooldownUntil == old(cooldownUntil) && equityHistory == old(equityHistory)
    {
      if symbol !in positions {
        OpenCountAdd(positions, symbol, PositionRecord(size, entry, sl, tp, notional));
      }
      ghost var before := Notionals(positions);
      grossExposure := grossExposure + Abs(notional);
      positions := positions[symbol := PositionRecord(size, entry, sl, tp, notional)];
      if symbol !in old(positions) {
        NotionalsAdd(old(positions), symbol, PositionRecord(size, entry, sl, tp, notional));
        SumValuesAdd(before, symbol, Abs(notional));
      }
    }

    /** `on_close`: forgets the position and takes its |notional| off the ledger, clamped at 0. */
    method OnClose(symbol: string)
      requires Valid()
      modifies this
      ensures Valid()
      ensures symbol !in positions
      ensures positions == old(positions) - {symbol}
      ensures symbol !in old(positions) ==> grossExposure == old(grossExposure)
      ensures symbol in old(positions) ==>
        grossExposure == Max(0.0, old(grossExposure) - Abs(old(positions)[symbol].notional))
      ensures old(LedgerExact()) ==> LedgerExact()
      ensures dailyPnl == old(dailyPnl) && currentDay == old(currentDay)
      ensures cooldownUntil == old(cooldownUntil) && equityHistory == old(equityHistory)
    {
      if symbol in positions {
        LedgerAfterClose(positions, symbol);
        var notional := positions[symbol].notional;
        grossExposure := Max(0.0, grossExposure - Abs(notional));
        positions := positions - {symbol};
      } else {
        assert positions - {symbol} == positions;
      }
    }

    function BaseUnit(): real {
      cfg.portfolioRiskUnit.GetOr(100.0)
    }

    function Lookback(): int {
      cfg.dynBudgetLookback.GetOr(20)
    }

    function BudgetMin(): real {
      cfg.dynBudgetMin.GetOr(BaseUnit() * 0.5)
    }

    function BudgetMax(): real {
      cfg.dynBudgetMax.GetOr(BaseUnit() * 5.0)
    }

    /**
     * `dynamic_budget` given the realised volatility rv: the base unit until `lookback`
     * samples exist, then base * 0.02 / max(0.005, rv) clamped to [min, max] (the lower
     * bound winning when min > max).
     */
    function DynamicBudget(rv: real): (b: real)
      reads this
      ensures |equityHistory| < Lookback() ==> b == BaseUnit()
      ensures |equityHistory| >= Lookback() ==> b >= BudgetMin()
      ensures |equityHistory| >= Lookback() && BudgetMin() <= BudgetMax() ==> b <= BudgetMax()
      ensures |equityHistory| >= Lookback() && BudgetMin() <= BaseUnit() * VolScale(rv) <= BudgetMax() ==>
        b == BaseUnit() * VolScale(rv)
    {
      if |equityHistory| < Lookback() then BaseUnit()
      else Max(BudgetMin(), Min(BudgetMax(), BaseUnit() * VolScale(rv)))
    }

    /** For a non-negative base unit, a higher realised volatility never raises the budget. */
    lemma DynamicBudgetAntitone(rv1: real, rv2: real)
      requires BaseUnit() >= 0.0 && rv1 <= rv2
      ensures DynamicBudget(rv2) <= DynamicBudget(rv1)
    {
      VolScaleAntitone(rv1, rv2);
      var bu := BaseUnit();
      MulMonotone(VolScale(rv2), VolScale(rv1), bu);
      assert bu * VolScale(rv2) <= bu * VolScale(rv1);
    }

    /** `can_open` changes nothing and refuses whenever the position count is at the cap. */
    lemma NeverAboveMaxPositions(equity: real, symbol: string, symbolNotional: real,
                                 corrBucketCount: map<string, int>, openPositionsCount: int, now: real)
      requires openPositionsCount >= cfg.maxPositions
      ensures CanOpen(equity, symbol, symbolNotional, corrBucketCount, openPositionsCount, now) != Allowed
    {
    }
  }

  lemma SubsetCard<T>(a: set<T>, b: set<T>)
    requires a <= b
    ensures |a| <= |b|
  {
    if a != {} {
      var x :| x in a;
      SubsetCard(a - {x}, b - {x});
    }
  }
}
