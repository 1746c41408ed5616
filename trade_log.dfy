/**
 * The paper-trade report shared by `CCXTBroker.get_paper_report` (broker.py) and
 * `generate_summary` (summary_report.py): consecutive rows of the same symbol are paired into
 * a P&L, which feeds an equity curve and the win/loss and drawdown figures.
 * The CSV file is a sequence of records; rounding and string formatting of the figures are
 * presentation and are not modelled.
 */
module TradeLog {
  import opened Common
  import opened Market

  /** One row of the paper-trade log. */
  datatype TradeRecord = TradeRecord(timestamp: string, symbol: string, side: string, size: real, price: real, status: string)

  /** `str.lower()` restricted to ASCII letters. */
  function Lower(s: string): (r: string)
    ensures |r| == |s|
    ensures forall i :: 0 <= i < |s| ==> ('A' <= s[i] <= 'Z' ==> r[i] as int == s[i] as int + 32) && (!('A' <= s[i] <= 'Z') ==> r[i] == s[i])
  {
    seq(|s|, i requires 0 <= i < |s| => if 'A' <= s[i] <= 'Z' then (s[i] as int + 32) as char else s[i])
  }

  /** P&L of closing `entry` with `exit`: long for a buy, short for a sell, 0 for any other side. */
  function PairPnl(entry: TradeRecord, exit: TradeRecord): real {
    var side := Lower(entry.side);
    if side == "buy" then (exit.price - entry.price) * entry.size
    else if side == "sell" then (entry.price - exit.price) * entry.size
    else 0.0
  }

  predicate Paired(rows: seq<TradeRecord>, i: int)
    requires 0 <= i < |rows|
  {
    i > 0 && rows[i - 1].symbol == rows[i].symbol
  }

  /** The pnl column at row i: the pair P&L with row i-1 when the symbols match, else 0. */
  function RowPnl(rows: seq<TradeRecord>, i: int): real
    requires 0 <= i < |rows|
  {
    if Paired(rows, i) then PairPnl(rows[i - 1], rows[i]) else 0.0
  }

  function Pnls(rows: seq<TradeRecord>): (p: seq<real>)
    ensures |p| == |rows|
    ensures forall i :: 0 <= i < |rows| ==> p[i] == RowPnl(rows, i)
    ensures |rows| > 0 ==> p[0] == 0.0
  {
    seq(|rows|, i requires 0 <= i < |rows| => RowPnl(rows, i))
  }

  /** The equity curve: 0.0, then one point per paired row, each adding that row's P&L. */
  function Curve(rows: seq<TradeRecord>): (c: seq<real>)
    ensures |c| > 0 && c[0] == 0.0
    decreases |rows|
  {
    if |rows| <= 1 then [0.0]
    else
      var c := Curve(rows[..|rows| - 1]);
      var n := |rows| - 1;
      if Paired(rows, n) then c + [c[|c| - 1] + RowPnl(rows, n)] else c
  }

  lemma PnlsPrefix(rows: seq<TradeRecord>)
    requires |rows| > 0
    ensures Pnls(rows)[..|rows| - 1] == Pnls(rows[..|rows| - 1])
  {
    var pre := rows[..|rows| - 1];
    forall i | 0 <= i < |pre| ensures RowPnl(pre, i) == RowPnl(rows, i) {
    }
  }

  /** The last point of the equity curve is the total of the pnl column. */
  lemma {:induction false} CurveEndsAtTotal(rows: seq<TradeRecord>)
    ensures Curve(rows)[|Curve(rows)| - 1] == Sum(Pnls(rows))
    decreases |rows|
  {
    if |rows| == 1 {
      assert Pnls(rows) == [0.0];
      assert Pnls(rows)[..0] == [];
    } else if |rows| > 1 {
      var pre := rows[..|rows| - 1];
      CurveEndsAtTotal(pre);
      PnlsPrefix(rows);
    }
  }

  function CountPos(xs: seq<real>): nat
    decreases |xs|
  {
    if |xs| == 0 then 0 else CountPos(xs[..|xs| - 1]) + (if xs[|xs| - 1] > 0.0 then 1 else 0)
  }

  function CountNeg(xs: seq<real>): nat
    decreases |xs|
  {
    if |xs| == 0 then 0 else CountNeg(xs[..|xs| - 1]) + (if xs[|xs| - 1] < 0.0 then 1 else 0)
  }

  function CountZero(xs: seq<real>): nat
    decreases |xs|
  {
    if |xs| == 0 then 0 else CountZero(xs[..|xs| - 1]) + (if xs[|xs| - 1] == 0.0 then 1 else 0)
  }

  /** Every row is a win, a loss or neither: wins + losses + zero rows == rows. */
  lemma {:induction false} CountsPartition(xs: seq<real>)
    ensures CountPos(xs) + CountNeg(xs) + CountZero(xs) == |xs|
    decreases |xs|
  {
    if |xs| > 0 {
      CountsPartition(xs[..|xs| - 1]);
    }
  }

  function SumPos(xs: seq<real>): real
    decreases |xs|
  {
    if |xs| == 0 then 0.0 else SumPos(xs[..|xs| - 1]) + (if xs[|xs| - 1] > 0.0 then xs[|xs| - 1] else 0.0)
  }

  function SumNeg(xs: seq<real>): real
    decreases |xs|
  {
    if |xs| == 0 then 0.0 else SumNeg(xs[..|xs| - 1]) + (if xs[|xs| - 1] < 0.0 then xs[|xs| - 1] else 0.0)
  }

  /** The gross loss -sum(pnl < 0) is positive exactly when some row lost. */
  lemma {:induction false} GrossLossSign(xs: seq<real>)
    ensures SumNeg(xs) <= 0.0
    ensures SumNeg(xs) < 0.0 <==> CountNeg(xs) > 0
    decreases |xs|
  {
    if |xs| > 0 {
      GrossLossSign(xs[..|xs| - 1]);
    }
  }

  /** Gross profit, non-negative, positive exactly when some row won. */
  lemma {:induction false} GrossProfitSign(xs: seq<real>)
    ensures SumPos(xs) >= 0.0
    ensures SumPos(xs) > 0.0 <==> CountPos(xs) > 0
    decreases |xs|
  {
    if |xs| > 0 {
      GrossProfitSign(xs[..|xs| - 1]);
    }
  }

  /** The total splits into gross profit minus gross loss. */
  lemma {:induction false} TotalIsProfitMinusLoss(xs: seq<real>)
    ensures Sum(xs) == SumPos(xs) + SumNeg(xs)
    decreases |xs|
  {
    if |xs| > 0 {
      TotalIsProfitMinusLoss(xs[..|xs| - 1]);
    }
  }

  /** `groupby("symbol")["pnl"].sum()`. */
  function PerSymbol(rows: seq<TradeRecord>, pnl: seq<real>): map<string, real>
    requires |pnl| == |rows|
    decreases |rows|
  {
    if |rows| == 0 then map[]
    else
      var m := PerSymbol(rows[..|rows| - 1], pnl[..|pnl| - 1]);
      var s := rows[|rows| - 1].symbol;
      m[s := (if s in m then m[s] else 0.0) + pnl[|pnl| - 1]]
  }

  function Symbols(rows: seq<TradeRecord>): set<string> {
    set i | 0 <= i < |rows| :: rows[i].symbol
  }

  lemma SymbolsPrefix(rows: seq<TradeRecord>)
    requires |rows| > 0
    ensures Symbols(rows) == Symbols(rows[..|rows| - 1]) + {rows[|rows| - 1].symbol}
  {
    var pre := rows[..|rows| - 1];
    forall x | x in Symbols(rows) ensures x in Symbols(pre) + {rows[|rows| - 1].symbol} {
      var i :| 0 <= i < |rows| && rows[i].symbol == x;
      if i < |pre| { assert pre[i].symbol == x; }
    }
  }

  /** Every symbol of the log gets a group, and no other key appears. */
  lemma {:induction false} PerSymbolKeys(rows: seq<TradeRecord>, pnl: seq<real>)
    requires |pnl| == |rows|
    ensures PerSymbol(rows, pnl).Keys == Symbols(rows)
    decreases |rows|
  {
    if |rows| == 0 {
      assert Symbols(rows) == {};
    } else {
      PerSymbolKeys(rows[..|rows| - 1], pnl[..|pnl| - 1]);
      SymbolsPrefix(rows);
    }
  }

  /** The per-symbol groups add up to the total P&L. */
  lemma {:induction false} PerSymbolTotal(rows: seq<TradeRecord>, pnl: seq<real>)
    requires |pnl| == |rows|
    ensures SumValues(PerSymbol(rows, pnl)) == Sum(pnl)
    decreases |rows|
  {
    if |rows| > 0 {
      var pre, ppre := rows[..|rows| - 1], pnl[..|pnl| - 1];
      PerSymbolTotal(pre, ppre);
      var m := PerSymbol(pre, ppre);
      var s := rows[|rows| - 1].symbol;
      SumValuesUpdate(m, s, (if s in m then m[s] else 0.0) + pnl[|pnl| - 1]);
    }
  }

  /** `(cummax(curve) - curve).max()`: the largest fall from a running peak. */
  function MaxDrawdown(c: seq<real>): (d: real)
    requires |c| > 0
    ensures d >= 0.0
    ensures d >= MaxOf(c) - c[|c| - 1]
    decreases |c|
  {
    if |c| == 1 then 0.0 else Max(MaxDrawdown(c[..|c| - 1]), MaxOf(c) - c[|c| - 1])
  }

  /** The drawdown covers every fall from an earlier point of the curve to a later one. */
  lemma {:induction false} MaxDrawdownBoundsFalls(c: seq<real>)
    requires |c| > 0
    ensures forall j, i :: 0 <= j <= i < |c| ==> c[j] - c[i] <= MaxDrawdown(c)
    decreases |c|
  {
    if |c| > 1 {
      var pre := c[..|c| - 1];
      MaxDrawdownBoundsFalls(pre);
      forall j, i | 0 <= j <= i < |c| ensures c[j] - c[i] <= MaxDrawdown(c) {
        if i < |pre| {
          assert pre[j] - pre[i] == c[j] - c[i];
        } else {
          assert c[j] <= MaxOf(c);
        }
      }
    }
  }

  /** ... and it is itself one of those falls. */
  lemma {:induction false} MaxDrawdownAttained(c: seq<real>) returns (j: int, i: int)
    requires |c| > 0
    ensures 0 <= j <= i < |c| && c[j] - c[i] == MaxDrawdown(c)
    decreases |c|
  {
    if |c| == 1 {
      j, i := 0, 0;
    } else {
      var pre := c[..|c| - 1];
      if MaxDrawdown(c) == MaxDrawdown(pre) {
        j, i := MaxDrawdownAttained(pre);
        assert pre[j] == c[j] && pre[i] == c[i];
      } else {
        var k :| 0 <= k < |c| && c[k] == MaxOf(c);
        j, i := k, |c| - 1;
      }
    }
  }

  /** The figures of the report (the dictionary both functions return). */
  datatype Report = Report(
    trades: nat, wins: nat, losses: nat, winrate: real,
    totalPnl: real, avgPnl: real, perSymbol: map<string, real>,
    profitFactor: Option<real>, maxDrawdown: real)

  /** The aggregates over a filled pnl column and equity curve; `None` is an infinite profit factor. */
  function Aggregate(rows: seq<TradeRecord>, pnl: seq<real>, curve: seq<real>): Report
    requires |pnl| == |rows| && |rows| > 0 && |curve| > 0
  {
    var wins := CountPos(pnl);
    var losses := CountNeg(pnl);
    var trades := wins + losses;
    var grossProfit := SumPos(pnl);
    var grossLoss := -SumNeg(pnl);
    Report(
      trades, wins, losses,
      if trades > 0 then (wins as real) / (trades as real) * 100.0 else 0.0,
      Sum(pnl), Mean(pnl), PerSymbol(rows, pnl),
      if grossLoss > 0.0 then Some(grossProfit / grossLoss) else None,
      MaxDrawdown(curve))
  }

  /** The report of a log with at least two rows. */
  function ReportOf(rows: seq<TradeRecord>): Report
    requires |rows| >= 2
  {
    Aggregate(rows, Pnls(rows), Curve(rows))
  }

  /** The counts of the report: wins and losses make the trades, the other rows are zero-P&L. */
  lemma ReportCounts(rows: seq<TradeRecord>)
    requires |rows| >= 2
    ensures ReportOf(rows).trades == ReportOf(rows).wins + ReportOf(rows).losses
    ensures ReportOf(rows).trades + CountZero(Pnls(rows)) == |rows|
    ensures 0.0 <= ReportOf(rows).winrate <= 100.0
  {
    var p := Pnls(rows);
    CountsPartition(p);
    var w, t := CountPos(p), CountPos(p) + CountNeg(p);
    if t > 0 {
      QuotientVersusOne(w as real, t as real);
    }
  }

  /** The profit factor is infinite exactly when no row lost; the drawdown is never negative. */
  lemma ReportRisk(rows: seq<TradeRecord>)
    requires |rows| >= 2
    ensures ReportOf(rows).profitFactor.None? <==> ReportOf(rows).losses == 0
    ensures ReportOf(rows).profitFactor.Some? ==> ReportOf(rows).profitFactor.value >= 0.0
    ensures ReportOf(rows).maxDrawdown >= 0.0
  {
    var p := Pnls(rows);
    GrossLossSign(p);
    GrossProfitSign(p);
    if SumNeg(p) < 0.0 {
      QuotientVersusOne(SumPos(p), -SumNeg(p));
    }
  }

  /** The total P&L is where the equity curve ends and what the per-symbol groups add up to. */
  lemma ReportTotals(rows: seq<TradeRecord>)
    requires |rows| >= 2
    ensures ReportOf(rows).totalPnl == Curve(rows)[|Curve(rows)| - 1]
    ensures SumValues(ReportOf(rows).perSymbol) == ReportOf(rows).totalPnl
    ensures ReportOf(rows).perSymbol.Keys == Symbols(rows)
  {
    CurveEndsAtTotal(rows);
    PerSymbolTotal(rows, Pnls(rows));
    PerSymbolKeys(rows, Pnls(rows));
  }

  /** One more row extends the curve by its P&L exactly when it pairs with the row before. */
  lemma CurveSnoc(rows: seq<TradeRecord>, i: int)
    requires 1 <= i < |rows|
    ensures var c := Curve(rows[..i]);
      Curve(rows[..i + 1]) == if Paired(rows, i) then c + [c[|c| - 1] + RowPnl(rows, i)] else c
  {
    var pre := rows[..i + 1];
    assert pre[..i] == rows[..i];
    assert pre[i - 1] == rows[i - 1] && pre[i] == rows[i];
  }

  /** The pnl loop of the report: fill the pnl column in place and extend the equity curve. */
  method FillPnl(rows: seq<TradeRecord>) returns (pnl: seq<real>, curve: seq<real>)
    ensures pnl == Pnls(rows) && curve == Curve(rows)
  {
    if |rows| == 0 {
      return [], [0.0];
    }
    var column := new real[|rows|](_ => 0.0);
    curve := [0.0];
    var i := 1;
    while i < |rows|
      invariant 1 <= i <= |rows|
      invariant forall j :: 0 <= j < i ==> column[j] == RowPnl(rows, j)
      invariant forall j :: i <= j < |rows| ==> column[j] == 0.0
      invariant curve == Curve(rows[..i])
    {
      var entry, exitTrade := rows[i - 1], rows[i];
      CurveSnoc(rows, i);
      if entry.symbol == exitTrade.symbol {
        column[i] := PairPnl(entry, exitTrade);
        curve := curve + [curve[|curve| - 1] + column[i]];
      }
      i := i + 1;
    }
    assert rows[..i] == rows;
    pnl := column[..];
    assert forall j :: 0 <= j < |rows| ==> pnl[j] == Pnls(rows)[j];
  }

  /** The whole report computation over a log of at least two rows. */
  method ComputeReport(rows: seq<TradeRecord>) returns (r: Report)
    requires |rows| >= 2
    ensures r == ReportOf(rows)
  {
    var pnl, curve := FillPnl(rows);
    r := Aggregate(rows, pnl, curve);
  }
}
