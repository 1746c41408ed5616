/**
 * The broker's own logic in broker.py: lot-size rounding of an order amount, the size guard and
 * paper fill of `place_order`, and the error cases of `get_paper_report` around the report
 * computation of the trade-log module. Exchange calls are parameters: the market filters are
 * given, the ticker price is a `marketPrice` argument and the wall clock a `now` timestamp.
 */
module Broker {
  import opened Common
  import opened TradeLog

  /** One entry of a market's `info.filters`; a missing `stepSize`/`minQty` reads as 0. */
  datatype Filter = Filter(filterType: string, stepSize: Option<real>, minQty: Option<real>)

  /** What `_round_amount` reads from a market: its filters and its amount precision (decimals). */
  datatype MarketInfo = MarketInfo(filters: seq<Filter>, amountPrecision: Option<int>)

  /** A symbol the exchange does not list behaves as a market with no filters and no precision. */
  function MarketOf(markets: map<string, MarketInfo>, symbol: string): MarketInfo {
    if symbol in markets then markets[symbol] else MarketInfo([], None)
  }

  /** (step, min_qty) after the filter loop: the values of the last LOT_SIZE filter, else (0, 0). */
  function LotSize(filters: seq<Filter>): (real, real)
    decreases |filters|
  {
    if |filters| == 0 then (0.0, 0.0)
    else
      var f := filters[|filters| - 1];
      if f.filterType == "LOT_SIZE" then (f.stepSize.GetOr(0.0), f.minQty.GetOr(0.0))
      else LotSize(filters[..|filters| - 1])
  }

  /** Filters none of which is LOT_SIZE leave step and min_qty at 0. */
  lemma {:induction false} NoLotSizeFilter(filters: seq<Filter>)
    requires forall i :: 0 <= i < |filters| ==> filters[i].filterType != "LOT_SIZE"
    ensures LotSize(filters) == (0.0, 0.0)
    decreases |filters|
  {
    if |filters| > 0 {
      NoLotSizeFilter(filters[..|filters| - 1]);
    }
  }

  /** The last LOT_SIZE filter wins, whatever precedes it. */
  lemma LastLotSizeWins(filters: seq<Filter>, f: Filter, rest: seq<Filter>)
    requires f.filterType == "LOT_SIZE"
    requires forall i :: 0 <= i < |rest| ==> rest[i].filterType != "LOT_SIZE"
    ensures LotSize(filters + [f] + rest) == (f.stepSize.GetOr(0.0), f.minQty.GetOr(0.0))
  {
    LastLotSizeWinsFrom(filters + [f], rest);
    assert (filters + [f])[..|filters + [f]| - 1] == filters;
  }

  lemma {:induction false} LastLotSizeWinsFrom(prefix: seq<Filter>, rest: seq<Filter>)
    requires forall i :: 0 <= i < |rest| ==> rest[i].filterType != "LOT_SIZE"
    ensures LotSize(prefix + rest) == LotSize(prefix)
    decreases |rest|
  {
    if |rest| > 0 {
      var init := rest[..|rest| - 1];
      assert (prefix + rest)[..|prefix + rest| - 1] == prefix + init;
      assert (prefix + rest)[|prefix + rest| - 1] == rest[|rest| - 1];
      assert rest[|rest| - 1].filterType != "LOT_SIZE";
      LastLotSizeWinsFrom(prefix, init);
      assert LotSize(prefix + rest) == LotSize(prefix + init);
    } else {
      assert prefix + rest == prefix;
    }
  }

  /** floor(amount / step) * step. */
  function Stepped(amount: real, step: real): real
    requires step > 0.0
  {
    (amount / step).Floor as real * step
  }

  /** Flooring to the step never increases the amount and loses less than one step. */
  lemma SteppedBounds(amount: real, step: real)
    requires step > 0.0
    ensures amount - step < Stepped(amount, step) <= amount
  {
    var q := amount / step;
    var f := q.Floor as real;
    assert Stepped(amount, step) == f * step;
    assert q * step == amount;
    FloorTimesStep(amount, q, f, step);
  }

  /** For amount = q * step and a whole part f of q, f * step lies within one step below amount. */
  lemma FloorTimesStep(amount: real, q: real, f: real, step: real)
    requires step > 0.0 && q * step == amount && f <= q < f + 1.0
    ensures amount - step < f * step <= amount
  {
    FloorTimesStepBelow(amount, q, f, step);
    FloorTimesStepAbove(amount, q, f, step);
  }

  lemma FloorTimesStepBelow(amount: real, q: real, f: real, step: real)
    requires step > 0.0 && q * step == amount && f <= q
    ensures f * step <= amount
  {
    MulMonotone(f, q, step);
  }

  lemma FloorTimesStepAbove(amount: real, q: real, f: real, step: real)
    requires step > 0.0 && q * step == amount && q < f + 1.0
    ensures amount - step < f * step
  {
    MulStrictMonotone(q, f + 1.0, step);
    assert (f + 1.0) * step == f * step + step;
  }

  /** 10 ** precision, for a whole number of digits (a negative one gives 0.1, 0.01, ...). */
  function Pow10(p: int): (r: real)
    ensures r > 0.0
    ensures p >= 0 ==> r >= 1.0
    decreases if p < 0 then -p else p
  {
    if p == 0 then 1.0
    else if p > 0 then 10.0 * Pow10(p - 1)
    else Pow10(p + 1) / 10.0
  }

  /** floor(amount * 10**p) / 10**p. */
  function ToPrecision(amount: real, p: int): real {
    (amount * Pow10(p)).Floor as real / Pow10(p)
  }

  /** Flooring to a number of decimals never increases the amount. */
  lemma ToPrecisionNotAbove(amount: real, p: int)
    ensures ToPrecision(amount, p) <= amount
  {
    var s := Pow10(p);
    QuotientCompare((amount * s).Floor as real, s, amount);
  }

  /** The amount `_round_amount` returns for a symbol. */
  function RoundedAmount(markets: map<string, MarketInfo>, symbol: string, amount: real): real {
    var m := MarketOf(markets, symbol);
    var (step, minQty) := LotSize(m.filters);
    var a1 := if step > 0.0 then Stepped(amount, step) else amount;
    var a2 := if minQty > 0.0 && a1 < minQty then minQty else a1;
    match m.amountPrecision
    case Some(p) => ToPrecision(a2, p)
    case None => a2
  }

  /** What each stage of the rounding does. */
  lemma RoundedAmountStages(markets: map<string, MarketInfo>, symbol: string, amount: real)
    ensures var m := MarketOf(markets, symbol);
      var (step, minQty) := LotSize(m.filters);
      var a1 := if step > 0.0 then Stepped(amount, step) else amount;
      // the lot step floors: never above the amount, less than one step below it
      (step > 0.0 ==> amount - step < a1 <= amount) &&
      // dust below min_qty is raised to min_qty, not dropped
      (minQty > 0.0 && a1 < minQty && m.amountPrecision.None? ==> RoundedAmount(markets, symbol, amount) == minQty) &&
      // the precision stage never increases what the lot stages produced
      (m.amountPrecision.Some? ==> RoundedAmount(markets, symbol, amount) <= (if minQty > 0.0 && a1 < minQty then minQty else a1))
  {
    var m := MarketOf(markets, symbol);
    var (step, minQty) := LotSize(m.filters);
    if step > 0.0 {
      SteppedBounds(amount, step);
    }
    var a1 := if step > 0.0 then Stepped(amount, step) else amount;
    var a2 := if minQty > 0.0 && a1 < minQty then minQty else a1;
    if m.amountPrecision.Some? {
      ToPrecisionNotAbove(a2, m.amountPrecision.value);
    }
  }

  /** With no LOT_SIZE filter and no precision the amount is returned unchanged. */
  lemma RoundedAmountIdentity(markets: map<string, MarketInfo>, symbol: string, amount: real)
    requires forall i :: 0 <= i < |MarketOf(markets, symbol).filters| ==> MarketOf(markets, symbol).filters[i].filterType != "LOT_SIZE"
    requires MarketOf(markets, symbol).amountPrecision.None?
    ensures RoundedAmount(markets, symbol, amount) == amount
  {
    NoLotSizeFilter(MarketOf(markets, symbol).filters);
  }

  /** The filter loop of `_round_amount`. */
  method ScanFilters(filters: seq<Filter>) returns (step: real, minQty: real)
    ensures (step, minQty) == LotSize(filters)
  {
    step, minQty := 0.0, 0.0;
    var i := 0;
    while i < |filters|
      invariant 0 <= i <= |filters|
      invariant (step, minQty) == LotSize(filters[..i])
    {
      assert filters[..i + 1][..i] == filters[..i];
      var f := filters[i];
      if f.filterType == "LOT_SIZE" {
        step := f.stepSize.GetOr(0.0);
        minQty := f.minQty.GetOr(0.0);
      }
      i := i + 1;
    }
    assert filters[..i] == filters;
  }

  /** `_round_amount`: the last LOT_SIZE values, then step, min_qty and precision in that order. */
  method RoundAmount(markets: map<string, MarketInfo>, symbol: string, amount: real) returns (r: real)
    ensures r == RoundedAmount(markets, symbol, amount)
  {
    var m := MarketOf(markets, symbol);
    var step, minQty := ScanFilters(m.filters);
    assert step == LotSize(m.filters).0 && minQty == LotSize(m.filters).1;
    r := amount;
    if step > 0.0 {
      r := (r / step).Floor as real * step;
    }
    assert r == if step > 0.0 then Stepped(amount, step) else amount;
    if minQty > 0.0 && r < minQty {
      r := minQty;
    }
    if m.amountPrecision.Some? {
      r := ToPrecision(r, m.amountPrecision.value);
    }
  }

  /** What `place_order` hands back: nothing, a paper fill, or the amount sent to the exchange. */
  datatype OrderResult = Rejected | Paper(record: TradeRecord) | Live(amount: real, positionSide: Option<string>)

  /** `price if price else get_price(symbol)`: a missing or zero price falls back to the ticker. */
  function TradePrice(price: Option<real>, marketPrice: real): real {
    if price.Some? && price.value != 0.0 then price.value else marketPrice
  }

  /** The broker in the state `place_order` and `get_paper_report` touch. */
  class PaperBroker {
    const markets: map<string, MarketInfo>
    const paperMode: bool
    const hedgeMode: bool
    /** `self.paper_trades`, the fills of this session. */
    var paperTrades: seq<TradeRecord>
    /** The rows of the paper log file; `None` while no such file exists. */
    var paperLog: Option<seq<TradeRecord>>

    /** The constructor creates an empty (header-only) log when paper trading and none exists. */
    constructor(markets: map<string, MarketInfo>, paperMode: bool, hedgeMode: bool, existingLog: Option<seq<TradeRecord>>)
      ensures this.markets == markets && this.paperMode == paperMode && this.hedgeMode == hedgeMode
      ensures paperTrades == []
      ensures paperLog == if paperMode && existingLog.None? then Some([]) else existingLog
    {
      this.markets := markets;
      this.paperMode := paperMode;
      this.hedgeMode := hedgeMode;
      paperTrades := [];
      paperLog := if paperMode && existingLog.None? then Some([]) else existingLog;
    }

    /**
     * `place_order`: a non-positive size or a rounded amount of 0 or less is refused before
     * anything is recorded; a paper fill is appended to the session list and to the log.
     */
    method PlaceOrder(symbol: string, side: string, size: real, price: Option<real>, marketPrice: real, now: string)
      returns (r: OrderResult)
      modifies this
      ensures size <= 0.0 ==> r == Rejected
      ensures size > 0.0 && RoundedAmount(markets, symbol, size) <= 0.0 ==> r == Rejected
      ensures r == Rejected ==> unchanged(this)
      ensures size > 0.0 && RoundedAmount(markets, symbol, size) > 0.0 && paperMode ==>
        r == Paper(TradeRecord(now, symbol, side, RoundedAmount(markets, symbol, size), TradePrice(price, marketPrice), "FILLED")) &&
        paperTrades == old(paperTrades) + [r.record] &&
        paperLog == Some(old(paperLog).GetOr([]) + [r.record])
      ensures size > 0.0 && RoundedAmount(markets, symbol, size) > 0.0 && !paperMode ==>
        r == Live(RoundedAmount(markets, symbol, size),
                  if hedgeMode then Some(if Lower(side) == "buy" then "LONG" else "SHORT") else None) &&
        unchanged(this)
    {
      if size <= 0.0 {
        return Rejected;
      }
      var amt := RoundAmount(markets, symbol, size);
      if amt <= 0.0 {
        return Rejected;
      }
      if paperMode {
        var record := TradeRecord(now, symbol, side, amt, TradePrice(price, marketPrice), "FILLED");
        paperTrades := paperTrades + [record];
        paperLog := Some(paperLog.GetOr([]) + [record]);
        return Paper(record);
      }
      var positionSide: Option<string> := None;
      if hedgeMode {
        positionSide := Some(if Lower(side) == "buy" then "LONG" else "SHORT");
      }
      return Live(amt, positionSide);
    }

    /** `get_paper_report` on this broker's log. */
    method GetPaperReport() returns (r: ReportResult)
      ensures r == ReportOfLog(paperLog)
    {
      r := PaperReport(paperLog);
    }
  }

  /** The dictionary `get_paper_report` returns: an error message or the report. */
  datatype ReportResult = Error(message: string) | Ok(report: Report)

  function ReportOfLog(log: Option<seq<TradeRecord>>): ReportResult {
    if log.None? then Error("No paper log found")
    else if |log.value| < 2 then Error("Not enough trades to calculate report")
    else Ok(ReportOf(log.value))
  }

  /** The report of a paper log, or why there is none. */
  method PaperReport(log: Option<seq<TradeRecord>>) returns (r: ReportResult)
    ensures log.None? ==> r == Error("No paper log found")
    ensures log.Some? && |log.value| < 2 ==> r == Error("Not enough trades to calculate report")
    ensures log.Some? && |log.value| >= 2 ==> r == Ok(ReportOf(log.value))
    ensures r == ReportOfLog(log)
  {
    if log.None? {
      return Error("No paper log found");
    }
    var rows := log.value;
    if |rows| < 2 {
      return Error("Not enough trades to calculate report");
    }
    var report := ComputeReport(rows);
    return Ok(report);
  }

  /** Opening and closing one long position in paper mode yields a one-trade winning report. */
  method PaperRoundTrip() returns (rep: ReportResult)
    ensures rep.Ok? && rep.report.trades == 1 && rep.report.wins == 1 && rep.report.losses == 0
  {
    var markets := map["BTC/USDT" := MarketInfo([Filter("LOT_SIZE", Some(0.001), Some(0.001))], None)];
    var b := new PaperBroker(markets, true, true, None);
    assert b.paperLog == Some([]);
    var r1 := b.PlaceOrder("BTC/USDT", "buy", 0.5, Some(100.0), 0.0, "t0");
    assert 0.5 / 0.001 == 500.0;
    assert Stepped(0.5, 0.001) == 0.5;
    assert RoundedAmount(markets, "BTC/USDT", 0.5) == 0.5;
    assert b.markets == markets && b.paperMode;
    assert r1.Paper?;
    assert b.paperLog == Some([] + [r1.record]);
    assert [] + [r1.record] == [r1.record];
    var r2 := b.PlaceOrder("BTC/USDT", "sell", 0.5, Some(110.0), 0.0, "t1");
    assert r2.Paper? && b.paperLog == Some([r1.record] + [r2.record]);
    assert [r1.record] + [r2.record] == [r1.record, r2.record];
    rep := b.GetPaperReport();
    assert Pnls([r1.record, r2.record]) == [0.0, 5.0];
    OneWinReport([r1.record, r2.record], 5.0);
  }

  /** An opening row followed by a profitable close reports one trade, won. */
  lemma OneWinReport(rows: seq<TradeRecord>, pnl: real)
    requires |rows| == 2 && pnl > 0.0 && Pnls(rows) == [0.0, pnl]
    ensures ReportOf(rows).trades == 1 && ReportOf(rows).wins == 1 && ReportOf(rows).losses == 0
  {
    var p := Pnls(rows);
    assert p[..1] == [0.0] && [0.0][..0] == [];
    assert CountPos(p) == 1 && CountNeg(p) == 0;
  }
}
