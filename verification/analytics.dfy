/**
 * The analysis built on the replay: daily portfolio and benchmark valuations, profit-% series,
 * the drawdown series and its minimum, the headline metrics, and the orchestration that filters
 * the log, restricts the calendar, replays, values and assembles the result.
 *
 * Where the source's floating-point arithmetic would divide a non-zero amount by zero (and so put
 * an infinity or NaN into the result), the model reports `Failed(NonFinite)` instead.
 */
module Analytics {
  import opened Results
  import opened Ledger
  import opened Reconstruction
  import opened ReconstructionFacts
  import Sums
  import opened Drawdown

  // ---------------------------------------------------------------------------------------
  // Valuation

  predicate UnitsFit(h: Panel, units: seq<seq<real>>)
  {
    |units| == |h.columns| && forall c :: 0 <= c < |units| ==> |units[c]| == |h.dates|
  }

  /** Value on day `i` of the first `cs` columns, the benchmark column excluded: units times that day's price. */
  function ValueOver(h: Panel, units: seq<seq<real>>, i: nat, cs: nat): real
    requires Rectangular(h) && UnitsFit(h, units) && i < |h.dates| && cs <= |h.columns|
  {
    if cs == 0 then 0.0
    else
      var own := if h.columns[cs - 1] == Benchmark then 0.0 else units[cs - 1][i] * h.close[cs - 1][i];
      ValueOver(h, units, i, cs - 1) + own
  }

  function PortfolioValues(h: Panel, units: seq<seq<real>>): (v: seq<real>)
    requires Rectangular(h) && UnitsFit(h, units)
    ensures |v| == |h.dates|
  {
    seq(|h.dates|, i requires 0 <= i < |h.dates| => ValueOver(h, units, i, |h.columns|))
  }

  /** Phantom benchmark units times that day's benchmark price. */
  function BenchmarkValues(h: Panel, b: nat, phantom: seq<real>): (v: seq<real>)
    requires Rectangular(h) && b < |h.columns| && |phantom| == |h.dates|
    ensures |v| == |h.dates|
  {
    seq(|h.dates|, i requires 0 <= i < |h.dates| => phantom[i] * h.close[b][i])
  }

  /** Value of the first `cs` columns on day `i` computed from the log: each column's traded quantity up to that day times the day's price. */
  function HeldValue(h: Panel, log: seq<Transaction>, i: nat, cs: nat): real
    requires Rectangular(h) && i < |h.dates| && cs <= |h.columns|
  {
    if cs == 0 then 0.0
    else
      var own := if h.columns[cs - 1] == Benchmark then 0.0
        else TotalIn(log, h.dates[..i + 1], Units(h.columns[cs - 1])) * h.close[cs - 1][i];
      HeldValue(h, log, i, cs - 1) + own
  }

  /** Benchmark value on day `i` computed from the log: the phantom units bought up to that day times the day's benchmark price. */
  function BenchmarkHeld(h: Panel, b: nat, log: seq<Transaction>, i: nat): real
    requires Rectangular(h) && b < |h.columns| && Priced(h, b, log) && i < |h.dates|
  {
    CumPhantom(h, b, log, i + 1) * h.close[b][i]
  }

  /** Units that agree with the log's traded quantities on day `i` value the portfolio as the log does. */
  lemma {:induction false} ValueOverHeld(h: Panel, units: seq<seq<real>>, log: seq<Transaction>, i: nat, cs: nat)
    requires Rectangular(h) && UnitsFit(h, units) && i < |h.dates| && cs <= |h.columns|
    requires forall c :: 0 <= c < cs ==> units[c][i] == TotalIn(log, h.dates[..i + 1], Units(h.columns[c]))
    ensures ValueOver(h, units, i, cs) == HeldValue(h, log, i, cs)
  {
    if cs > 0 {
      ValueOverHeld(h, units, log, i, cs - 1);
    }
  }

  lemma ValueOverFromLog(h: Panel, b: nat, log: seq<Transaction>, i: nat)
    requires WellFormed(h) && b < |h.columns| && Priced(h, b, log) && i < |h.dates|
    ensures ValueOver(h, Replay(h, b, log).units, i, |h.columns|) == HeldValue(h, log, i, |h.columns|)
  {
    var units := Replay(h, b, log).units;
    forall c | 0 <= c < |h.columns|
      ensures units[c][i] == TotalIn(log, h.dates[..i + 1], Units(h.columns[c]))
    {
      ForwardFill(h, b, log, c, i);
    }
    ValueOverHeld(h, units, log, i, |h.columns|);
  }

  /**
   * The portfolio value on day i is, over every column but the benchmark, the quantity of that
   * symbol traded on calendar days up to i times the day's price; the benchmark value is the phantom
   * units bought up to day i times the day's benchmark price.
   */
  lemma ValuationFromLog(h: Panel, b: nat, log: seq<Transaction>, i: nat)
    requires WellFormed(h) && b < |h.columns| && Priced(h, b, log) && i < |h.dates|
    ensures PortfolioValues(h, Replay(h, b, log).units)[i] == HeldValue(h, log, i, |h.columns|)
    ensures BenchmarkValues(h, b, Replay(h, b, log).phantom)[i] == BenchmarkHeld(h, b, log, i)
  {
    var s := Replay(h, b, log);
    assert PortfolioValues(h, s.units)[i] == ValueOver(h, s.units, i, |h.columns|);
    ValueOverFromLog(h, b, log, i);
    assert BenchmarkValues(h, b, s.phantom)[i] == s.phantom[i] * h.close[b][i];
    ReplayMatches(h, b, log);
    assert Upto(i, |h.dates|) == i + 1;
    assert s.phantom[i] == CumPhantom(h, b, log, i + 1);
  }

  // ---------------------------------------------------------------------------------------
  // Profit percentages

  /** The percentage is finite: a zero cost basis is only allowed with a zero value (0/0, filled with 0). */
  predicate PctDefined(value: real, invested: real)
  {
    invested != 0.0 || value == 0.0
  }

  /** `(value - invested) / invested * 100`, with the 0/0 case filled with 0. */
  function ProfitPct(value: real, invested: real): (r: real)
    requires PctDefined(value, invested)
    ensures invested != 0.0 ==> value == Sums.Level(invested, r)
    ensures invested == 0.0 ==> r == 0.0
    ensures invested > 0.0 ==> (r >= 0.0 <==> value >= invested)
    ensures invested < 0.0 ==> (r >= 0.0 <==> value <= invested)
  {
    if invested == 0.0 then 0.0 else Sums.Change(invested, value)
  }

  function ProfitSeries(values: seq<real>, invested: seq<real>): (r: seq<real>)
    requires |values| == |invested|
    requires forall i :: 0 <= i < |values| ==> PctDefined(values[i], invested[i])
    ensures |r| == |values|
    ensures forall i :: 0 <= i < |values| && invested[i] != 0.0 ==> values[i] == Sums.Level(invested[i], r[i])
    ensures forall i :: 0 <= i < |values| && invested[i] == 0.0 ==> r[i] == 0.0
  {
    seq(|values|, i requires 0 <= i < |values| => ProfitPct(values[i], invested[i]))
  }

  /** Headline return: `(value - invested) / invested * 100` when invested is positive, else 0. */
  function ReturnPct(current: real, invested: real): (r: real)
    ensures invested <= 0.0 ==> r == 0.0
    ensures invested > 0.0 ==> current == Sums.Level(invested, r)
    ensures invested > 0.0 ==> (r >= 0.0 <==> current >= invested)
  {
    if invested > 0.0 then Sums.Change(invested, current) else 0.0
  }

  // ---------------------------------------------------------------------------------------
  // The analysis result

  datatype Metrics = Metrics(
    currentValue: real,
    totalInvested: real,
    absoluteProfit: real,
    absoluteReturnPct: real,
    maxDrawdown: real)

  /** Everything the engine returns, one entry per calendar day in each series. */
  datatype Analysis = Analysis(
    dates: seq<int>,
    invested: seq<real>,
    portfolioValue: seq<real>,
    benchmarkValue: seq<real>,
    portfolioProfitPct: seq<real>,
    benchmarkProfitPct: seq<real>,
    drawdown: seq<real>,
    cashFlows: seq<Flow>,
    metrics: Metrics)

  /** Every series of an analysis has one entry per calendar day, and there is at least one day. */
  ghost predicate Aligned(a: Analysis)
  {
    var n := |a.dates|;
    n > 0 &&
    |a.invested| == n && |a.portfolioValue| == n && |a.benchmarkValue| == n &&
    |a.portfolioProfitPct| == n && |a.benchmarkProfitPct| == n && |a.drawdown| == n
  }

  /** Each profit-% entry measures that day's value against that day's invested capital (0 when nothing is invested). */
  ghost predicate ProfitsMeasured(a: Analysis)
    requires Aligned(a)
  {
    forall i :: 0 <= i < |a.dates| ==>
      (a.invested[i] != 0.0 ==>
         a.portfolioValue[i] == Sums.Level(a.invested[i], a.portfolioProfitPct[i]) &&
         a.benchmarkValue[i] == Sums.Level(a.invested[i], a.benchmarkProfitPct[i])) &&
      (a.invested[i] == 0.0 ==> a.portfolioProfitPct[i] == 0.0 && a.benchmarkProfitPct[i] == 0.0)
  }

  /** The headline metrics are the last day's figures, and the maximum drawdown is the lowest drawdown entry. */
  ghost predicate HeadlineFromLastDay(a: Analysis)
    requires Aligned(a)
  {
    var n := |a.dates|;
    a.metrics.currentValue == a.portfolioValue[n - 1] &&
    a.metrics.totalInvested == a.invested[n - 1] &&
    a.metrics.absoluteProfit == a.metrics.currentValue - a.metrics.totalInvested &&
    a.metrics.absoluteReturnPct == ReturnPct(a.metrics.currentValue, a.metrics.totalInvested) &&
    a.metrics.maxDrawdown in a.drawdown &&
    (forall i :: 0 <= i < n ==> a.metrics.maxDrawdown <= a.drawdown[i])
  }

  /**
   * Each drawdown entry measures that day's portfolio value against the running peak of the
   * portfolio value, which is never 0.
   */
  ghost predicate DrawdownFromPeaks(a: Analysis)
    requires Aligned(a)
  {
    var peaks := Sums.RunningMax(a.portfolioValue);
    forall i :: 0 <= i < |a.dates| ==>
      peaks[i] != 0.0 && a.portfolioValue[i] == Sums.Level(peaks[i], a.drawdown[i])
  }

  ghost predicate Coherent(a: Analysis)
  {
    Aligned(a) && ProfitsMeasured(a) && HeadlineFromLastDay(a) && DrawdownFromPeaks(a)
  }

  datatype EngineError =
    | EmptyLog          // the portfolio has no transactions at all: the log has no `date` column
    | MissingBenchmark  // the price panel has no NIFTY_50 column
    | EmptyCalendar     // no trading day on or after the first selected transaction
    | NonFinite         // a division by zero would put an infinity or NaN into the result

  datatype Outcome = NoData | Failed(error: EngineError) | Done(analysis: Analysis)

  /** Earliest date in a non-empty log. */
  function MinDate(txs: seq<Transaction>): (d: int)
    requires |txs| > 0
    ensures exists k :: 0 <= k < |txs| && txs[k].date == d
    ensures forall k :: 0 <= k < |txs| ==> d <= txs[k].date
  {
    if |txs| == 1 then txs[0].date
    else
      var rest := MinDate(txs[1..]);
      assert forall k :: 1 <= k < |txs| ==> txs[k] == txs[1..][k - 1];
      if txs[0].date <= rest then txs[0].date else rest
  }

  /** Every day's values are finite: profit percentages and drawdown divide by non-zero amounts. */
  predicate Finite(invested: seq<real>, pv: seq<real>, bv: seq<real>)
    requires |pv| == |invested| && |bv| == |invested|
  {
    DrawdownDefined(pv) &&
    forall i :: 0 <= i < |invested| ==> PctDefined(pv[i], invested[i]) && PctDefined(bv[i], invested[i])
  }

  /** Assemble the analysis from the daily invested, portfolio-value and benchmark-value series. */
  function Assemble(dates: seq<int>, invested: seq<real>, pv: seq<real>, bv: seq<real>, flows: seq<Flow>): (a: Analysis)
    requires |dates| > 0 && |invested| == |dates| && |pv| == |dates| && |bv| == |dates|
    requires Finite(invested, pv, bv)
    ensures Coherent(a)
    ensures a.dates == dates && a.invested == invested && a.portfolioValue == pv
    ensures a.benchmarkValue == bv && a.cashFlows == flows
    ensures a.drawdown == MaxDrawdown(pv).series && a.metrics.maxDrawdown == MaxDrawdown(pv).worst
  {
    var n := |dates|;
    var dd := MaxDrawdown(pv);
    var current := pv[n - 1];
    var total := invested[n - 1];
    var metrics := Metrics(current, total, current - total, ReturnPct(current, total), dd.worst);
    var pp := ProfitSeries(pv, invested);
    var bp := ProfitSeries(bv, invested);
    var a := Analysis(dates, invested, pv, bv, pp, bp, dd.series, flows, metrics);
    assert Aligned(a);
    assert ProfitsMeasured(a);
    assert HeadlineFromLastDay(a) by {
      assert |pv| > 0;
      assert dd.worst in dd.series;
      assert forall i :: 0 <= i < n ==> dd.worst <= dd.series[i];
    }
    assert DrawdownFromPeaks(a) by {
      assert DrawdownDefined(pv);
    }
    a
  }

  /**
   * The analysis of `txs` over `h` is defined: every buy day has a non-zero benchmark price, and the
   * replayed series give finite profit percentages and drawdowns.
   */
  predicate Analysable(h: Panel, b: nat, txs: seq<Transaction>)
    requires WellFormed(h) && b < |h.columns|
  {
    Priced(h, b, txs) &&
    var s := Replay(h, b, txs);
    Finite(s.invested, PortfolioValues(h, s.units), BenchmarkValues(h, b, s.phantom))
  }

  /**
   * Replay a selected log over a non-empty calendar that holds the benchmark in column `b`, value
   * every day, and assemble the series and headline metrics.
   */
  function Analyse(h: Panel, b: nat, txs: seq<Transaction>): (r: Result<Analysis, EngineError>)
    requires WellFormed(h) && b < |h.columns| && |h.dates| > 0
    ensures r.Failure? ==> r.error == NonFinite
    ensures r.Success? <==> Analysable(h, b, txs)
    ensures r.Success? ==> Coherent(r.value) && r.value.dates == h.dates
  {
    if !Priced(h, b, txs) then Failure(NonFinite)
    else
      var s := Replay(h, b, txs);
      var pv := PortfolioValues(h, s.units);
      var bv := BenchmarkValues(h, b, s.phantom);
      if !Finite(s.invested, pv, bv) then Failure(NonFinite)
      else Success(Assemble(h.dates, s.invested, pv, bv, s.flows))
  }

  /**
   * The engine: an empty log fails, a selection that keeps no transaction gives no data, the
   * benchmark column must exist, the calendar starts at the first selected transaction and must
   * not be empty, and the analysis of the selected transactions over that calendar is returned.
   */
  function Process(log: seq<Transaction>, panel: Panel, sel: Selection): (r: Outcome)
    requires WellFormed(panel)
    ensures r == Failed(EmptyLog) <==> |log| == 0
    ensures r == NoData <==> |log| > 0 && |FilterLog(log, sel)| == 0
    ensures r == Failed(MissingBenchmark) <==>
      |FilterLog(log, sel)| > 0 && Benchmark !in panel.columns
    ensures r == Failed(EmptyCalendar) <==>
      |FilterLog(log, sel)| > 0 && Benchmark in panel.columns &&
      forall d :: d in panel.dates ==> d < MinDate(FilterLog(log, sel))
    ensures r.Done? <==>
      |FilterLog(log, sel)| > 0 && Benchmark in panel.columns &&
      var h := From(panel, MinDate(FilterLog(log, sel)));
      |h.dates| > 0 && Analysable(h, IndexOf(panel.columns, Benchmark), FilterLog(log, sel))
    ensures r.Done? ==> Coherent(r.analysis)
    ensures r.Done? ==>
      forall d :: d in r.analysis.dates <==> d in panel.dates && d >= MinDate(FilterLog(log, sel))
  {
    if |log| == 0 then Failed(EmptyLog)
    else
      var txs := FilterLog(log, sel);
      if |txs| == 0 then NoData
      else if Benchmark !in panel.columns then Failed(MissingBenchmark)
      else
        var start := MinDate(txs);
        var h := From(panel, start);
        FromKeepsLaterDates(panel, start);
        if |h.dates| == 0 then
          assert forall d :: d in panel.dates ==> d < start;
          Failed(EmptyCalendar)
        else
          assert h.dates[0] in panel.dates && h.dates[0] >= start;
          match Analyse(h, IndexOf(panel.columns, Benchmark), txs)
          case Failure(e) => Failed(e)
          case Success(a) => Done(a)
  }

  /** The daily series of a completed analysis, in closed form over the log it replays. */
  lemma AnalyseDaily(h: Panel, b: nat, txs: seq<Transaction>)
    requires WellFormed(h) && b < |h.columns| && |h.dates| > 0 && Analyse(h, b, txs).Success?
    ensures Priced(h, b, txs)
    ensures var a := Analyse(h, b, txs).value;
      (forall i :: 0 <= i < |h.dates| ==> a.invested[i] == TotalIn(txs, h.dates[..i + 1], Capital)) &&
      (forall i :: 0 <= i < |h.dates| ==> a.portfolioValue[i] == HeldValue(h, txs, i, |h.columns|)) &&
      (forall i :: 0 <= i < |h.dates| ==> a.benchmarkValue[i] == BenchmarkHeld(h, b, txs, i))
  {
    var s := Replay(h, b, txs);
    var a := Analyse(h, b, txs).value;
    assert a.invested == s.invested;
    assert a.portfolioValue == PortfolioValues(h, s.units);
    assert a.benchmarkValue == BenchmarkValues(h, b, s.phantom);
    forall i | 0 <= i < |h.dates|
      ensures a.invested[i] == TotalIn(txs, h.dates[..i + 1], Capital)
      ensures a.portfolioValue[i] == HeldValue(h, txs, i, |h.columns|)
      ensures a.benchmarkValue[i] == BenchmarkHeld(h, b, txs, i)
    {
      InvestedRunningSum(h, b, txs, i);
      ValuationFromLog(h, b, txs, i);
    }
  }

  /** The totals of a completed analysis: capital invested over the whole calendar, and one cash flow per trade. */
  lemma AnalyseTotals(h: Panel, b: nat, txs: seq<Transaction>)
    requires WellFormed(h) && b < |h.columns| && |h.dates| > 0 && Analyse(h, b, txs).Success?
    ensures var a := Analyse(h, b, txs).value;
      a.metrics.totalInvested == TotalIn(txs, h.dates, Capital) &&
      |a.cashFlows| as real == TotalIn(txs, h.dates, Trades) &&
      FlowSum(a.cashFlows) == -a.metrics.totalInvested
  {
    var s := Replay(h, b, txs);
    var a := Analyse(h, b, txs).value;
    var n := |h.dates|;
    assert a.cashFlows == s.flows && a.invested == s.invested;
    InvestedRunningSum(h, b, txs, n - 1);
    assert h.dates[..n] == h.dates;
    FlowsFollowCalendar(h, b, txs);
  }

  /**
   * A completed analysis in closed form over the selected log: each day's invested capital is the
   * net amount bought up to that day, each day's portfolio value prices the quantities traded up to
   * that day, each day's benchmark value prices the phantom units bought so far, and the cash flows
   * are one per buy or sell and sum to minus the capital invested.
   */
  lemma ProcessClosedForm(log: seq<Transaction>, panel: Panel, sel: Selection)
    requires WellFormed(panel) && Process(log, panel, sel).Done?
    ensures |FilterLog(log, sel)| > 0 && Benchmark in panel.columns
    ensures
      var txs := FilterLog(log, sel);
      var h := From(panel, MinDate(txs));
      var b := IndexOf(panel.columns, Benchmark);
      var a := Process(log, panel, sel).analysis;
      a.dates == h.dates && Priced(h, b, txs) &&
      (forall i :: 0 <= i < |h.dates| ==> a.invested[i] == TotalIn(txs, h.dates[..i + 1], Capital)) &&
      (forall i :: 0 <= i < |h.dates| ==> a.portfolioValue[i] == HeldValue(h, txs, i, |h.columns|)) &&
      (forall i :: 0 <= i < |h.dates| ==> a.benchmarkValue[i] == BenchmarkHeld(h, b, txs, i)) &&
      a.metrics.totalInvested == TotalIn(txs, h.dates, Capital) &&
      |a.cashFlows| as real == TotalIn(txs, h.dates, Trades) &&
      FlowSum(a.cashFlows) == -a.metrics.totalInvested
  {
    var txs := FilterLog(log, sel);
    var h := From(panel, MinDate(txs));
    var b := IndexOf(panel.columns, Benchmark);
    assert Process(log, panel, sel).analysis == Analyse(h, b, txs).value;
    AnalyseDaily(h, b, txs);
    AnalyseTotals(h, b, txs);
  }

  /** Selecting "ALL", or an empty selection, analyses exactly what no selection analyses. */
  lemma SelectAllIsNoFilter(log: seq<Transaction>, panel: Panel, sel: Selection)
    requires WellFormed(panel) && KeepsAll(sel)
    ensures Process(log, panel, sel) == Process(log, panel, None)
  {
    FilterKeepsAll(log, sel);
    FilterKeepsAll(log, None);
  }

  // ---------------------------------------------------------------------------------------
  // A completed run: one buy of one unit at 10 on a one-day calendar

  /** One buy of one unit of `A` at 10 on day 0. */
  const OneBuy: seq<Transaction> := [Transaction(0, "A", Buy, 1.0, 10.0, None)]
  /** A one-day calendar with `A` at 10 and the benchmark at 100. */
  const OneDay: Panel := Panel([0], ["A", Benchmark], [[10.0], [100.0]])

  /** The whole log is selected, the calendar starts on day 0, and the benchmark is column 1. */
  lemma OneDayCalendar()
    ensures WellFormed(OneDay)
    ensures FilterLog(OneBuy, None) == OneBuy && MinDate(OneBuy) == 0
    ensures From(OneDay, 0) == OneDay
    ensures IndexOf(OneDay.columns, Benchmark) == 1
  {
    FilterKeepsAll(OneBuy, None);
    var h := From(OneDay, 0);
    assert h.close == OneDay.close;
    assert |OneDay.columns[0]| != |Benchmark|;
  }

  /** Day 0 has 10 invested and a portfolio worth 10. */
  lemma OneDaySeries()
    requires WellFormed(OneDay)
    ensures Priced(OneDay, 1, OneBuy)
    ensures Replay(OneDay, 1, OneBuy).invested[0] == 10.0
    ensures PortfolioValues(OneDay, Replay(OneDay, 1, OneBuy).units)[0] == 10.0
  {
    var log := OneBuy;
    var h := OneDay;
    assert OnDate(log, 0) == log;
    assert Priced(h, 1, log);
    InvestedRunningSum(h, 1, log, 0);
    assert h.dates[..1] == [0];
    ValuationFromLog(h, 1, log, 0);
    assert |h.columns[0]| != |Benchmark|;
    assert TotalIn(log, [0], Units("A")) == 1.0 by {
      assert log[1..] == [];
    }
    assert HeldValue(h, log, 0, 1) == 10.0;
  }

  /** Every division of the analysis is by a non-zero amount. */
  lemma OneDayAnalysable()
    requires WellFormed(OneDay)
    ensures Analysable(OneDay, 1, OneBuy)
  {
    OneDaySeries();
    var s := Replay(OneDay, 1, OneBuy);
    var pv := PortfolioValues(OneDay, s.units);
    var bv := BenchmarkValues(OneDay, 1, s.phantom);
    assert Sums.RunningMax(pv) == [10.0];
    assert DrawdownDefined(pv);
    assert PctDefined(pv[0], s.invested[0]) && PctDefined(bv[0], s.invested[0]);
    assert Finite(s.invested, pv, bv);
  }

  /** The engine completes on this run, so the success path of `Process` is reachable. */
  lemma OneBuyCompletes()
    ensures Process(OneBuy, OneDay, None).Done?
  {
    OneDayCalendar();
    OneDayAnalysable();
    assert From(OneDay, MinDate(FilterLog(OneBuy, None))) == OneDay;
  }
}
