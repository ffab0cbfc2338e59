/**
 * What the replay computes, stated as sums over the transaction log: forward-filled unit
 * positions, the invested-capital running sum, the phantom benchmark units and the cash-flow list.
 */
module ReconstructionFacts {
  import opened Ledger
  import opened Reconstruction
  import Sums

  // ---------------------------------------------------------------------------------------
  // Reference definitions: day-by-day prefix sums

  /** Sum of a measure over the transactions of the first `upto` calendar days. */
  function Cum(h: Panel, log: seq<Transaction>, m: Measure, upto: nat): real
    requires upto <= |h.dates|
  {
    if upto == 0 then 0.0 else Cum(h, log, m, upto - 1) + Total(OnDate(log, h.dates[upto - 1]), m)
  }

  /** Benchmark units bought on the first `upto` calendar days, each day at that day's benchmark price. */
  function CumPhantom(h: Panel, b: nat, log: seq<Transaction>, upto: nat): real
    requires Rectangular(h) && b < |h.columns| && upto <= |h.dates| && Priced(h, b, log)
  {
    if upto == 0 then 0.0
    else CumPhantom(h, b, log, upto - 1) + DayPhantom(OnDate(log, h.dates[upto - 1]), h.close[b][upto - 1])
  }

  /** The flows of the first `upto` calendar days: calendar order, then log order within a day. */
  function CumFlows(h: Panel, log: seq<Transaction>, upto: nat): seq<Flow>
    requires upto <= |h.dates|
  {
    if upto == 0 then [] else CumFlows(h, log, upto - 1) + DayFlows(OnDate(log, h.dates[upto - 1]), h.dates[upto - 1])
  }

  /** How many of the first `D` days have been applied to day `i`'s entries. */
  function Upto(i: nat, D: nat): nat
  {
    if i + 1 < D then i + 1 else D
  }

  /** The replay's tables after the first `D` calendar days have been walked. */
  ghost predicate Matches(h: Panel, b: nat, log: seq<Transaction>, D: nat, s: Book)
    requires Rectangular(h) && b < |h.columns| && D <= |h.dates| && Priced(h, b, log) && Fits(h, s)
  {
    && (forall c, i :: 0 <= c < |h.columns| && 0 <= i < |h.dates| ==>
          s.units[c][i] == Cum(h, log, Units(h.columns[c]), Upto(i, D)))
    && (forall i :: 0 <= i < |h.dates| ==> s.phantom[i] == CumPhantom(h, b, log, Upto(i, D)))
    && s.running == Cum(h, log, Capital, D)
    && (forall i :: 0 <= i < |h.dates| ==> s.invested[i] == if i < D then Cum(h, log, Capital, i + 1) else 0.0)
    && s.flows == CumFlows(h, log, D)
  }

  // ---------------------------------------------------------------------------------------
  // Effects of one transaction and of one day

  lemma AddFromTwice(xs: seq<real>, d: nat, x: real, y: real)
    ensures AddFrom(AddFrom(xs, d, x), d, y) == AddFrom(xs, d, x + y)
  {
  }

  lemma AddFromZero(xs: seq<real>, d: nat)
    ensures AddFrom(xs, d, 0.0) == xs
  {
  }

  /** One transaction moves each column by its effect on that column's symbol, and nothing else. */
  lemma ApplyTxEffect(h: Panel, b: nat, d: nat, s: Book, t: Transaction)
    requires WellFormed(h) && Fits(h, s) && b < |h.columns| && d < |h.dates|
    requires t.kind.Buy? ==> h.close[b][d] != 0.0
    ensures var r := ApplyTx(h, b, d, s, t);
      && (forall c :: 0 <= c < |h.columns| ==> r.units[c] == AddFrom(s.units[c], d, Effect(Units(h.columns[c]), t)))
      && r.phantom == AddFrom(s.phantom, d, TxPhantom(t, h.close[b][d]))
      && r.running == s.running + Effect(Capital, t)
      && r.invested == s.invested
      && r.flows == s.flows + TxFlows(t, h.dates[d])
  {
    var r := ApplyTx(h, b, d, s, t);
    var k := IndexOf(h.columns, t.symbol);
    forall c | 0 <= c < |h.columns|
      ensures r.units[c] == AddFrom(s.units[c], d, Effect(Units(h.columns[c]), t))
    {
      if c != k {
        assert h.columns[c] != t.symbol;
        AddFromZero(s.units[c], d);
      } else if t.kind.Other? {
        AddFromZero(s.units[c], d);
      }
    }
    if !t.kind.Buy? {
      AddFromZero(s.phantom, d);
    }
  }

  /** A day's transactions move each column of the units table by the day's total for that column's symbol. */
  lemma {:induction false} ApplyDayUnits(h: Panel, b: nat, d: nat, s: Book, txs: seq<Transaction>)
    requires WellFormed(h) && Fits(h, s) && b < |h.columns| && d < |h.dates|
    requires HasBuy(txs) ==> h.close[b][d] != 0.0
    ensures forall c :: 0 <= c < |h.columns| ==>
      ApplyDay(h, b, d, s, txs).units[c] == AddFrom(s.units[c], d, Total(txs, Units(h.columns[c])))
    decreases |txs|
  {
    if |txs| == 0 {
      forall c | 0 <= c < |h.columns|
        ensures s.units[c] == AddFrom(s.units[c], d, 0.0)
      {
        AddFromZero(s.units[c], d);
      }
    } else {
      assert txs[0] in txs;
      var s1 := ApplyTx(h, b, d, s, txs[0]);
      ApplyTxEffect(h, b, d, s, txs[0]);
      ApplyDayUnits(h, b, d, s1, txs[1..]);
      forall c | 0 <= c < |h.columns|
        ensures ApplyDay(h, b, d, s, txs).units[c] == AddFrom(s.units[c], d, Total(txs, Units(h.columns[c])))
      {
        AddFromTwice(s.units[c], d, Effect(Units(h.columns[c]), txs[0]), Total(txs[1..], Units(h.columns[c])));
      }
    }
  }

  /** A day's buys add the day's phantom units from that day on. */
  lemma {:induction false} ApplyDayPhantom(h: Panel, b: nat, d: nat, s: Book, txs: seq<Transaction>)
    requires WellFormed(h) && Fits(h, s) && b < |h.columns| && d < |h.dates|
    requires HasBuy(txs) ==> h.close[b][d] != 0.0
    ensures ApplyDay(h, b, d, s, txs).phantom == AddFrom(s.phantom, d, DayPhantom(txs, h.close[b][d]))
    decreases |txs|
  {
    if |txs| == 0 {
      AddFromZero(s.phantom, d);
    } else {
      assert txs[0] in txs;
      var s1 := ApplyTx(h, b, d, s, txs[0]);
      ApplyTxEffect(h, b, d, s, txs[0]);
      ApplyDayPhantom(h, b, d, s1, txs[1..]);
      AddFromTwice(s.phantom, d, TxPhantom(txs[0], h.close[b][d]), DayPhantom(txs[1..], h.close[b][d]));
    }
  }

  /** A day's transactions move the running balance by the day's capital total and append the day's flows. */
  lemma {:induction false} ApplyDayLedger(h: Panel, b: nat, d: nat, s: Book, txs: seq<Transaction>)
    requires WellFormed(h) && Fits(h, s) && b < |h.columns| && d < |h.dates|
    requires HasBuy(txs) ==> h.close[b][d] != 0.0
    ensures ApplyDay(h, b, d, s, txs).running == s.running + Total(txs, Capital)
    ensures ApplyDay(h, b, d, s, txs).invested == s.invested
    ensures ApplyDay(h, b, d, s, txs).flows == s.flows + DayFlows(txs, h.dates[d])
    decreases |txs|
  {
    if |txs| > 0 {
      assert txs[0] in txs;
      var s1 := ApplyTx(h, b, d, s, txs[0]);
      ApplyTxEffect(h, b, d, s, txs[0]);
      ApplyDayLedger(h, b, d, s1, txs[1..]);
      assert s1.flows + DayFlows(txs[1..], h.dates[d]) == s.flows + DayFlows(txs, h.dates[d]);
    }
  }

  // ---------------------------------------------------------------------------------------
  // The calendar walk

  lemma OpeningMatches(h: Panel, b: nat, log: seq<Transaction>)
    requires Rectangular(h) && b < |h.columns| && Priced(h, b, log)
    ensures Matches(h, b, log, 0, Opening(h))
  {
  }

  /** Walking the remaining days from a state that matches the first `d` days matches all of them. */
  lemma {:induction false} RunDaysMatches(h: Panel, b: nat, log: seq<Transaction>, d: nat, s: Book)
    requires WellFormed(h) && Fits(h, s) && b < |h.columns| && d <= |h.dates| && Priced(h, b, log)
    requires Matches(h, b, log, d, s)
    ensures Matches(h, b, log, |h.dates|, RunDays(h, b, log, d, s))
    decreases |h.dates| - d
  {
    if d < |h.dates| {
      var txs := OnDate(log, h.dates[d]);
      var s1 := ApplyDay(h, b, d, s, txs);
      ApplyDayUnits(h, b, d, s, txs);
      ApplyDayPhantom(h, b, d, s, txs);
      ApplyDayLedger(h, b, d, s, txs);
      var s2 := s1.(invested := s1.invested[d := s1.running]);
      forall c, i | 0 <= c < |h.columns| && 0 <= i < |h.dates|
        ensures s2.units[c][i] == Cum(h, log, Units(h.columns[c]), Upto(i, d + 1))
      {
        if i >= d {
          assert Upto(i, d) == d && Upto(i, d + 1) == d + 1;
        } else {
          assert Upto(i, d) == i + 1 == Upto(i, d + 1);
        }
      }
      forall i | 0 <= i < |h.dates|
        ensures s2.phantom[i] == CumPhantom(h, b, log, Upto(i, d + 1))
      {
        if i >= d {
          assert Upto(i, d) == d && Upto(i, d + 1) == d + 1;
        } else {
          assert Upto(i, d) == i + 1 == Upto(i, d + 1);
        }
      }
      assert Matches(h, b, log, d + 1, s2);
      RunDaysMatches(h, b, log, d + 1, s2);
    }
  }

  /** After the whole walk every table equals its day-by-day prefix sum. */
  lemma ReplayMatches(h: Panel, b: nat, log: seq<Transaction>)
    requires WellFormed(h) && b < |h.columns| && Priced(h, b, log)
    ensures Matches(h, b, log, |h.dates|, Replay(h, b, log))
  {
    OpeningMatches(h, b, log);
    RunDaysMatches(h, b, log, 0, Opening(h));
  }

  // ---------------------------------------------------------------------------------------
  // From day-by-day sums to sums over the log

  lemma {:induction false} TotalOnDate(log: seq<Transaction>, x: int, m: Measure)
    ensures Total(OnDate(log, x), m) == TotalIn(log, [x], m)
  {
    if |log| > 0 {
      TotalOnDate(log[1..], x, m);
    }
  }

  /** Adding one more day to a set of days adds that day's transactions, when the day is new. */
  lemma {:induction false} TotalInSplit(log: seq<Transaction>, ds: seq<int>, x: int, m: Measure)
    requires x !in ds
    ensures TotalIn(log, ds + [x], m) == TotalIn(log, ds, m) + TotalIn(log, [x], m)
  {
    if |log| > 0 {
      TotalInSplit(log[1..], ds, x, m);
    }
  }

  /** Summing day by day over a calendar without repeated dates is summing over the log once. */
  lemma {:induction false} CumIsTotalIn(h: Panel, log: seq<Transaction>, m: Measure, upto: nat)
    requires Increasing(h.dates) && upto <= |h.dates|
    ensures Cum(h, log, m, upto) == TotalIn(log, h.dates[..upto], m)
  {
    if upto > 0 {
      var x := h.dates[upto - 1];
      var pre := h.dates[..upto - 1];
      CumIsTotalIn(h, log, m, upto - 1);
      TotalOnDate(log, x, m);
      assert h.dates[..upto] == pre + [x];
      assert x !in pre;
      TotalInSplit(log, pre, x, m);
      calc {
        Cum(h, log, m, upto);
        Cum(h, log, m, upto - 1) + Total(OnDate(log, x), m);
        TotalIn(log, pre, m) + TotalIn(log, [x], m);
        TotalIn(log, pre + [x], m);
      }
    } else {
      TotalInNoDays(log, m);
    }
  }

  lemma {:induction false} TotalInNoDays(log: seq<Transaction>, m: Measure)
    ensures TotalIn(log, [], m) == 0.0
  {
    if |log| > 0 {
      TotalInNoDays(log[1..], m);
    }
  }

  lemma {:induction false} TotalOfNoEffect(txs: seq<Transaction>, m: Measure)
    requires forall t :: t in txs ==> Effect(m, t) == 0.0
    ensures Total(txs, m) == 0.0
  {
    if |txs| > 0 {
      assert txs[0] in txs;
      TotalOfNoEffect(txs[1..], m);
    }
  }

  // ---------------------------------------------------------------------------------------
  // Properties of the replay

  /**
   * Forward fill: on calendar day i a column's units are the signed quantities (buys +, sells -)
   * of that symbol's transactions dated on calendar days up to i. Transactions on other symbols,
   * on dates outside the calendar, or of another type contribute nothing. A day without a trade
   * in the symbol repeats the previous day's position.
   */
  lemma ForwardFill(h: Panel, b: nat, log: seq<Transaction>, c: nat, i: nat)
    requires WellFormed(h) && b < |h.columns| && Priced(h, b, log)
    requires c < |h.columns| && i < |h.dates|
    ensures Replay(h, b, log).units[c][i] == TotalIn(log, h.dates[..i + 1], Units(h.columns[c]))
    ensures i > 0 ==>
      Replay(h, b, log).units[c][i] == Replay(h, b, log).units[c][i - 1] + Total(OnDate(log, h.dates[i]), Units(h.columns[c]))
    ensures i > 0 && (forall t :: t in log && t.date == h.dates[i] ==> t.symbol != h.columns[c]) ==>
      Replay(h, b, log).units[c][i] == Replay(h, b, log).units[c][i - 1]
  {
    var u := Replay(h, b, log).units;
    var m := Units(h.columns[c]);
    ReplayMatches(h, b, log);
    assert Upto(i, |h.dates|) == i + 1;
    assert u[c][i] == Cum(h, log, m, i + 1);
    CumIsTotalIn(h, log, m, i + 1);
    if i > 0 {
      assert Upto(i - 1, |h.dates|) == i;
      assert u[c][i - 1] == Cum(h, log, m, i);
      if forall t :: t in log && t.date == h.dates[i] ==> t.symbol != h.columns[c] {
        TotalOfNoEffect(OnDate(log, h.dates[i]), m);
      }
    }
  }

  /**
   * Invested capital on day i is the running sum over the transactions dated up to day i of
   * +(quantity * price + charges) for a buy and -(quantity * price + charges) for a sell; the
   * final balance is the last day's entry.
   */
  lemma InvestedRunningSum(h: Panel, b: nat, log: seq<Transaction>, i: nat)
    requires WellFormed(h) && b < |h.columns| && Priced(h, b, log)
    requires i < |h.dates|
    ensures Replay(h, b, log).invested[i] == TotalIn(log, h.dates[..i + 1], Capital)
    ensures i > 0 ==>
      Replay(h, b, log).invested[i] == Replay(h, b, log).invested[i - 1] + Total(OnDate(log, h.dates[i]), Capital)
    ensures i == |h.dates| - 1 ==> Replay(h, b, log).running == Replay(h, b, log).invested[i]
  {
    ReplayMatches(h, b, log);
    CumIsTotalIn(h, log, Capital, i + 1);
  }

  /**
   * Phantom benchmark units grow on day i by the day's buy amounts divided by that day's
   * benchmark price; a day without a buy (sells included) leaves them unchanged.
   */
  lemma PhantomBuysOnly(h: Panel, b: nat, log: seq<Transaction>, i: nat)
    requires WellFormed(h) && b < |h.columns| && Priced(h, b, log)
    requires i < |h.dates|
    ensures Replay(h, b, log).phantom[i] ==
      (if i == 0 then 0.0 else Replay(h, b, log).phantom[i - 1]) + DayPhantom(OnDate(log, h.dates[i]), h.close[b][i])
    ensures !HasBuy(OnDate(log, h.dates[i])) ==>
      Replay(h, b, log).phantom[i] == (if i == 0 then 0.0 else Replay(h, b, log).phantom[i - 1])
  {
    var ph := Replay(h, b, log).phantom;
    ReplayMatches(h, b, log);
    assert Upto(i, |h.dates|) == i + 1;
    assert ph[i] == CumPhantom(h, b, log, i + 1);
    assert CumPhantom(h, b, log, i + 1) == CumPhantom(h, b, log, i) + DayPhantom(OnDate(log, h.dates[i]), h.close[b][i]);
    if i > 0 {
      assert Upto(i - 1, |h.dates|) == i;
      assert ph[i - 1] == CumPhantom(h, b, log, i);
    }
    if !HasBuy(OnDate(log, h.dates[i])) {
      DayPhantomWithoutBuys(OnDate(log, h.dates[i]), h.close[b][i]);
    }
  }

  lemma {:induction false} DayPhantomWithoutBuys(txs: seq<Transaction>, p: real)
    requires !HasBuy(txs)
    ensures DayPhantom(txs, p) == 0.0
  {
    if |txs| > 0 {
      assert txs[0] in txs;
      DayPhantomWithoutBuys(txs[1..], p);
    }
  }

  lemma {:induction false} DayPhantomNonNegative(txs: seq<Transaction>, p: real)
    requires p > 0.0
    requires forall t :: t in txs && t.kind.Buy? ==> Amount(t) >= 0.0
    ensures DayPhantom(txs, p) >= 0.0
  {
    if |txs| > 0 {
      assert txs[0] in txs;
      DayPhantomNonNegative(txs[1..], p);
    }
  }

  /** With non-negative buy amounts and positive benchmark prices the phantom units never decrease. */
  lemma PhantomNonDecreasing(h: Panel, b: nat, log: seq<Transaction>)
    requires WellFormed(h) && b < |h.columns| && Priced(h, b, log)
    requires forall t :: t in log && t.kind.Buy? ==> Amount(t) >= 0.0
    requires forall k :: 0 <= k < |h.dates| ==> h.close[b][k] > 0.0
    ensures Sums.NonDecreasing(Replay(h, b, log).phantom)
  {
    var ph := Replay(h, b, log).phantom;
    forall k | 0 < k < |h.dates|
      ensures ph[k - 1] <= ph[k]
    {
      PhantomBuysOnly(h, b, log, k);
      DayPhantomNonNegative(OnDate(log, h.dates[k]), h.close[b][k]);
    }
    forall i, j | 0 <= i <= j < |ph|
      ensures ph[i] <= ph[j]
    {
      StepsUp(ph, i, j);
    }
  }

  lemma {:induction false} StepsUp(xs: seq<real>, i: nat, j: nat)
    requires i <= j < |xs|
    requires forall k :: 0 < k < |xs| ==> xs[k - 1] <= xs[k]
    ensures xs[i] <= xs[j]
    decreases j - i
  {
    if i < j {
      StepsUp(xs, i, j - 1);
    }
  }

  // ---------------------------------------------------------------------------------------
  // The cash-flow list

  lemma FlowSumAppend(a: seq<Flow>, b: seq<Flow>)
    ensures FlowSum(a + b) == FlowSum(a) + FlowSum(b)
  {
    if |a| > 0 {
      assert (a + b)[1..] == a[1..] + b;
      FlowSumAppend(a[1..], b);
    } else {
      assert a + b == b;
    }
  }

  lemma {:induction false} DayFlowsCount(txs: seq<Transaction>, x: int)
    ensures |DayFlows(txs, x)| as real == Total(txs, Trades)
  {
    if |txs| > 0 {
      DayFlowsCount(txs[1..], x);
    }
  }

  lemma {:induction false} DayFlowsSum(txs: seq<Transaction>, x: int)
    ensures FlowSum(DayFlows(txs, x)) == -Total(txs, Capital)
  {
    if |txs| > 0 {
      DayFlowsSum(txs[1..], x);
      FlowSumAppend(TxFlows(txs[0], x), DayFlows(txs[1..], x));
    }
  }

  lemma {:induction false} DayFlowsDated(txs: seq<Transaction>, x: int)
    ensures forall f :: f in DayFlows(txs, x) ==> f.date == x
  {
    if |txs| > 0 {
      DayFlowsDated(txs[1..], x);
    }
  }

  lemma {:induction false} CumFlowsCount(h: Panel, log: seq<Transaction>, upto: nat)
    requires upto <= |h.dates|
    ensures |CumFlows(h, log, upto)| as real == Cum(h, log, Trades, upto)
  {
    if upto > 0 {
      var x := h.dates[upto - 1];
      CumFlowsCount(h, log, upto - 1);
      DayFlowsCount(OnDate(log, x), x);
      assert |CumFlows(h, log, upto)| == |CumFlows(h, log, upto - 1)| + |DayFlows(OnDate(log, x), x)|;
    }
  }

  lemma {:induction false} CumFlowsSum(h: Panel, log: seq<Transaction>, upto: nat)
    requires upto <= |h.dates|
    ensures FlowSum(CumFlows(h, log, upto)) == -Cum(h, log, Capital, upto)
  {
    if upto > 0 {
      var x := h.dates[upto - 1];
      var prev := CumFlows(h, log, upto - 1);
      var day := DayFlows(OnDate(log, x), x);
      assert CumFlows(h, log, upto) == prev + day;
      calc {
        FlowSum(prev + day);
        { FlowSumAppend(prev, day); }
        FlowSum(prev) + FlowSum(day);
        { CumFlowsSum(h, log, upto - 1); DayFlowsSum(OnDate(log, x), x); }
        -Cum(h, log, Capital, upto - 1) - Total(OnDate(log, x), Capital);
      }
    }
  }

  lemma {:induction false} CumFlowsOnCalendar(h: Panel, log: seq<Transaction>, upto: nat)
    requires upto <= |h.dates|
    ensures forall f :: f in CumFlows(h, log, upto) ==> f.date in h.dates[..upto]
  {
    if upto > 0 {
      var x := h.dates[upto - 1];
      var prev := CumFlows(h, log, upto - 1);
      var day := DayFlows(OnDate(log, x), x);
      CumFlowsOnCalendar(h, log, upto - 1);
      DayFlowsDated(OnDate(log, x), x);
      var all := CumFlows(h, log, upto);
      assert all == prev + day;
      forall f | f in all
        ensures f.date in h.dates[..upto]
      {
        if f in prev {
          assert f.date in h.dates[..upto - 1];
          assert h.dates[..upto - 1] <= h.dates[..upto];
        } else {
          assert h.dates[upto - 1] == x;
        }
      }
    }
  }

  lemma {:induction false} CumFlowsDates(h: Panel, log: seq<Transaction>, upto: nat)
    requires Increasing(h.dates) && upto <= |h.dates|
    ensures forall f :: f in CumFlows(h, log, upto) ==> f.date in h.dates[..upto]
    ensures forall j, k :: 0 <= j <= k < |CumFlows(h, log, upto)| ==>
      CumFlows(h, log, upto)[j].date <= CumFlows(h, log, upto)[k].date
  {
    CumFlowsOnCalendar(h, log, upto);
    if upto > 0 {
      var x := h.dates[upto - 1];
      var prev := CumFlows(h, log, upto - 1);
      var day := DayFlows(OnDate(log, x), x);
      CumFlowsDates(h, log, upto - 1);
      DayFlowsDated(OnDate(log, x), x);
      var all := CumFlows(h, log, upto);
      assert all == prev + day;
      forall f | f in prev
        ensures f.date < x
      {
        assert f.date in h.dates[..upto - 1];
        var k :| 0 <= k < upto - 1 && h.dates[k] == f.date;
      }
      forall j, k | 0 <= j <= k < |all|
        ensures all[j].date <= all[k].date
      {
        if k >= |prev| {
          assert all[k] in day;
          if j >= |prev| {
            assert all[j] in day;
          } else {
            assert all[j] in prev;
          }
        } else {
          assert all[j] == prev[j] && all[k] == prev[k];
        }
      }
    }
  }

  /**
   * The cash-flow list has one entry per applied buy or sell (dated on a calendar day), in calendar
   * order then log order: -amount for a buy, +amount for a sell. Its entries therefore add up to the
   * negated final invested capital, and its dates never decrease.
   */
  lemma FlowsFollowCalendar(h: Panel, b: nat, log: seq<Transaction>)
    requires WellFormed(h) && b < |h.columns| && Priced(h, b, log)
    ensures Replay(h, b, log).flows == CumFlows(h, log, |h.dates|)
    ensures |Replay(h, b, log).flows| as real == TotalIn(log, h.dates, Trades)
    ensures FlowSum(Replay(h, b, log).flows) == -Replay(h, b, log).running
    ensures forall f :: f in Replay(h, b, log).flows ==> f.date in h.dates
    ensures forall j, k :: 0 <= j <= k < |Replay(h, b, log).flows| ==>
      Replay(h, b, log).flows[j].date <= Replay(h, b, log).flows[k].date
  {
    ReplayMatches(h, b, log);
    CumFlowsCount(h, log, |h.dates|);
    CumFlowsSum(h, log, |h.dates|);
    CumFlowsDates(h, log, |h.dates|);
    CumIsTotalIn(h, log, Trades, |h.dates|);
    assert h.dates[..|h.dates|] == h.dates;
  }
}
