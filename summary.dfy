/**
 * `generate_summary` (summary_report.py): the performance summary of a paper-trade log. The
 * report itself is the pairing computation of the trade-log module; this module adds the
 * missing-file and short-log cases and the shape of the equity curve.
 * Printing the summary is not modelled.
 */
module Summary {
  import opened Common
  import opened Market
  import opened TradeLog

  /** The number of rows that pair with the row before them. */
  function PairedCount(rows: seq<TradeRecord>): nat
    decreases |rows|
  {
    if |rows| <= 1 then 0
    else PairedCount(rows[..|rows| - 1]) + (if Paired(rows, |rows| - 1) then 1 else 0)
  }

  /**
   * The equity curve holds its starting 0.0 and one point per paired row: a row whose symbol
   * differs from the previous row's adds no point.
   */
  lemma {:induction false} CurveLength(rows: seq<TradeRecord>)
    ensures |Curve(rows)| == 1 + PairedCount(rows)
    decreases |rows|
  {
    if |rows| > 1 {
      CurveLength(rows[..|rows| - 1]);
    }
  }

  /** Each point of the curve past the first adds the P&L of one paired row to the point before. */
  lemma {:induction false} CurveSteps(rows: seq<TradeRecord>, k: int)
    requires 0 < k < |Curve(rows)|
    ensures exists i :: 0 < i < |rows| && Paired(rows, i) && Curve(rows)[k] == Curve(rows)[k - 1] + RowPnl(rows, i)
    decreases |rows|
  {
    var pre := rows[..|rows| - 1];
    var n := |rows| - 1;
    var c := Curve(pre);
    if k < |c| {
      CurveSteps(pre, k);
      var i :| 0 < i < |pre| && Paired(pre, i) && c[k] == c[k - 1] + RowPnl(pre, i);
      assert pre[i] == rows[i] && pre[i - 1] == rows[i - 1];
      assert Paired(rows, i) && RowPnl(pre, i) == RowPnl(rows, i);
      assert Curve(rows)[k] == c[k] && Curve(rows)[k - 1] == c[k - 1];
    } else {
      assert Paired(rows, n) && Curve(rows) == c + [c[|c| - 1] + RowPnl(rows, n)];
      assert Curve(rows)[k] == Curve(rows)[k - 1] + RowPnl(rows, n);
    }
  }

  /** What `generate_summary` returns: nothing without a log or with fewer than two rows. */
  function SummaryOf(log: Option<seq<TradeRecord>>): Option<Report> {
    if log.None? || |log.value| < 2 then None else Some(ReportOf(log.value))
  }

  /** `generate_summary` over the log file's rows (`None` when the file does not exist). */
  method GenerateSummary(log: Option<seq<TradeRecord>>) returns (r: Option<Report>)
    ensures r.None? <==> log.None? || |log.value| < 2
    ensures r == SummaryOf(log)
  {
    if log.None? {
      return None;
    }
    var rows := log.value;
    if |rows| < 2 {
      return None;
    }
    var report := ComputeReport(rows);
    return Some(report);
  }

  /**
   * The figures of any summary: trades are the wins plus the losses, the last equity point is
   * the total P&L, the drawdown is non-negative and the profit factor is infinite exactly when
   * no row lost.
   */
  lemma SummaryFacts(log: Option<seq<TradeRecord>>)
    requires SummaryOf(log).Some?
    ensures var rep := SummaryOf(log).value;
      rep.trades == rep.wins + rep.losses &&
      rep.totalPnl == Curve(log.value)[|Curve(log.value)| - 1] &&
      rep.maxDrawdown >= 0.0 &&
      (rep.profitFactor.None? <==> rep.losses == 0)
  {
    ReportCounts(log.value);
    ReportRisk(log.value);
    ReportTotals(log.value);
  }
}
