/**
 * Replay of the transaction log against the calendar of the price panel: unit positions written
 * forward from each trade date, the running invested-capital balance, the "phantom" benchmark
 * units bought with every buy's cash, and the signed cash-flow list.
 *
 * The replay is modelled as the source performs it (a walk over the calendar, each day's
 * transactions in log order, each update added to every later day); the closed forms it is
 * proved against are sums over the log.
 */
module Reconstruction {
  import opened Results
  import opened Ledger

  /** The benchmark column of the price panel. */
  const Benchmark: string := "NIFTY_50"

  /**
   * The historical price panel: the calendar (row index), the column symbols, and closing prices
   * stored column by column, `close[c][d]` being column `c` on calendar day `d`.
   */
  datatype Panel = Panel(dates: seq<int>, columns: seq<string>, close: seq<seq<real>>)

  predicate Increasing(ds: seq<int>)
  {
    forall i, j :: 0 <= i < j < |ds| ==> ds[i] < ds[j]
  }

  predicate Distinct(xs: seq<string>)
  {
    forall i, j :: 0 <= i < j < |xs| ==> xs[i] != xs[j]
  }

  /** Every column has one price per calendar day. */
  predicate Rectangular(p: Panel)
  {
    |p.close| == |p.columns| && forall c :: 0 <= c < |p.close| ==> |p.close[c]| == |p.dates|
  }

  /** A sorted calendar without repeated dates, and no repeated column. */
  predicate WellFormed(p: Panel)
  {
    Rectangular(p) && Increasing(p.dates) && Distinct(p.columns)
  }

  /** Position of `x` in `xs`, or `|xs|` when it is not there. */
  function IndexOf(xs: seq<string>, x: string): (i: nat)
    ensures i <= |xs|
    ensures i < |xs| ==> xs[i] == x
    ensures forall j :: 0 <= j < i ==> xs[j] != x
  {
    if |xs| == 0 then 0
    else if xs[0] == x then 0
    else 1 + IndexOf(xs[1..], x)
  }

  // ---------------------------------------------------------------------------------------
  // Calendar restriction

  /** Number of leading calendar dates before `start`. */
  function FirstOnOrAfter(ds: seq<int>, start: int): (k: nat)
    ensures k <= |ds|
    ensures forall i :: 0 <= i < k ==> ds[i] < start
    ensures k < |ds| ==> ds[k] >= start
  {
    if |ds| == 0 || ds[0] >= start then 0 else 1 + FirstOnOrAfter(ds[1..], start)
  }

  /** The panel restricted to the dates on or after `start` (a suffix of the calendar). */
  function From(p: Panel, start: int): (h: Panel)
    requires WellFormed(p)
    ensures WellFormed(h) && h.columns == p.columns
    ensures |h.dates| <= |p.dates|
    ensures h.dates == p.dates[|p.dates| - |h.dates|..]
    ensures forall c, i :: 0 <= c < |h.columns| && 0 <= i < |h.dates| ==>
      h.close[c][i] == p.close[c][|p.dates| - |h.dates| + i]
  {
    var k := FirstOnOrAfter(p.dates, start);
    Panel(p.dates[k..], p.columns, seq(|p.close|, c requires 0 <= c < |p.close| => p.close[c][k..]))
  }

  lemma SuffixOnOrAfter(ds: seq<int>, start: int)
    requires Increasing(ds)
    ensures forall d :: d in ds[FirstOnOrAfter(ds, start)..] <==> d in ds && d >= start
  {
    var k := FirstOnOrAfter(ds, start);
    forall d | d in ds && d >= start
      ensures d in ds[k..]
    {
      var i :| 0 <= i < |ds| && ds[i] == d;
      assert ds[k..][i - k] == d;
    }
    forall d | d in ds[k..]
      ensures d >= start
    {
      var i :| k <= i < |ds| && ds[i] == d;
      if i > k {
        assert ds[k] < ds[i];
      }
    }
  }

  /** The restricted calendar holds exactly the panel's dates on or after `start`. */
  lemma FromKeepsLaterDates(p: Panel, start: int)
    requires WellFormed(p)
    ensures forall d :: d in From(p, start).dates <==> d in p.dates && d >= start
  {
    SuffixOnOrAfter(p.dates, start);
  }

  // ---------------------------------------------------------------------------------------
  // Per-transaction effects and their sums

  /** What a transaction changes: one symbol's units, the invested capital, or the trade count. */
  datatype Measure = Units(symbol: string) | Capital | Trades

  function Effect(m: Measure, t: Transaction): real
  {
    match m
    case Units(sym) =>
      if t.symbol != sym then 0.0
      else (match t.kind case Buy => t.quantity case Sell => -t.quantity case Other(_) => 0.0)
    case Capital =>
      (match t.kind case Buy => Amount(t) case Sell => -Amount(t) case Other(_) => 0.0)
    case Trades =>
      if t.kind.Other? then 0.0 else 1.0
  }

  /** Sum of a measure over a list of transactions. */
  function Total(txs: seq<Transaction>, m: Measure): real
  {
    if |txs| == 0 then 0.0 else Effect(m, txs[0]) + Total(txs[1..], m)
  }

  /** Sum of a measure over the transactions of the log dated on one of the days `ds`. */
  function TotalIn(log: seq<Transaction>, ds: seq<int>, m: Measure): real
  {
    if |log| == 0 then 0.0
    else (if log[0].date in ds then Effect(m, log[0]) else 0.0) + TotalIn(log[1..], ds, m)
  }

  /** The transactions of one date, in log order. */
  function OnDate(log: seq<Transaction>, date: int): (r: seq<Transaction>)
    ensures forall t :: t in r <==> t in log && t.date == date
  {
    if |log| == 0 then []
    else if log[0].date == date then [log[0]] + OnDate(log[1..], date)
    else OnDate(log[1..], date)
  }

  /**
   * A single transaction is kept exactly when it is dated `date`, and the transactions of a
   * concatenation dated `date` are those of each part, in order.
   */
  lemma {:induction false} OnDateAppend(a: seq<Transaction>, b: seq<Transaction>, date: int)
    ensures OnDate(a + b, date) == OnDate(a, date) + OnDate(b, date)
    ensures |a| == 1 ==> OnDate(a, date) == if a[0].date == date then a else []
  {
    if |a| > 0 {
      assert (a + b)[1..] == a[1..] + b;
      OnDateAppend(a[1..], b, date);
    } else {
      assert a + b == b;
    }
  }

  predicate HasBuy(txs: seq<Transaction>)
  {
    exists t :: t in txs && t.kind.Buy?
  }

  /** Benchmark units one transaction buys at benchmark price `p`: only buys buy any. */
  function TxPhantom(t: Transaction, p: real): real
    requires t.kind.Buy? ==> p != 0.0
  {
    if t.kind.Buy? then Amount(t) / p else 0.0
  }

  /** Benchmark units a day's transactions buy at that day's benchmark price `p`. */
  function DayPhantom(txs: seq<Transaction>, p: real): real
    requires HasBuy(txs) ==> p != 0.0
  {
    if |txs| == 0 then 0.0
    else
      assert txs[0] in txs;
      TxPhantom(txs[0], p) + DayPhantom(txs[1..], p)
  }

  /** A signed cash flow: negative money out for a buy, positive money in for a sell. */
  datatype Flow = Flow(date: int, amount: real)

  function TxFlows(t: Transaction, date: int): seq<Flow>
  {
    match t.kind
    case Buy => [Flow(date, -Amount(t))]
    case Sell => [Flow(date, Amount(t))]
    case Other(_) => []
  }

  function DayFlows(txs: seq<Transaction>, date: int): seq<Flow>
  {
    if |txs| == 0 then [] else TxFlows(txs[0], date) + DayFlows(txs[1..], date)
  }

  function FlowSum(fs: seq<Flow>): real
  {
    if |fs| == 0 then 0.0 else fs[0].amount + FlowSum(fs[1..])
  }

  /** Every buy day of the calendar has a non-zero benchmark price (the phantom purchase divides by it). */
  predicate Priced(h: Panel, b: nat, log: seq<Transaction>)
    requires Rectangular(h) && b < |h.columns|
  {
    forall k :: 0 <= k < |h.dates| && HasBuy(OnDate(log, h.dates[k])) ==> h.close[b][k] != 0.0
  }

  // ---------------------------------------------------------------------------------------
  // The replay as written

  /** The replay's tables: units per column and day, phantom units, invested capital, the running balance and the flows. */
  datatype Book = Book(
    units: seq<seq<real>>,
    phantom: seq<real>,
    invested: seq<real>,
    running: real,
    flows: seq<Flow>)

  predicate Fits(h: Panel, s: Book)
  {
    && |s.units| == |h.columns|
    && (forall c :: 0 <= c < |s.units| ==> |s.units[c]| == |h.dates|)
    && |s.phantom| == |h.dates|
    && |s.invested| == |h.dates|
  }

  function Zeros(n: nat): (z: seq<real>)
    ensures |z| == n && forall i :: 0 <= i < n ==> z[i] == 0.0
  {
    seq(n, _ => 0.0)
  }

  /** All tables zero, no flows. */
  function Opening(h: Panel): (s: Book)
    ensures Fits(h, s)
  {
    Book(seq(|h.columns|, _ => Zeros(|h.dates|)), Zeros(|h.dates|), Zeros(|h.dates|), 0.0, [])
  }

  /** `xs.loc[d:] += delta`: add `delta` to day `d` and every later day. */
  function AddFrom(xs: seq<real>, d: nat, delta: real): (r: seq<real>)
    ensures |r| == |xs|
    ensures forall i :: 0 <= i < |xs| ==> r[i] == if i >= d then xs[i] + delta else xs[i]
  {
    seq(|xs|, i requires 0 <= i < |xs| => if i >= d then xs[i] + delta else xs[i])
  }

  /** `units.loc[d:, sym] += delta` when the symbol is a column (`c < |units|`); otherwise nothing. */
  function Post(units: seq<seq<real>>, c: nat, d: nat, delta: real): seq<seq<real>>
  {
    if c < |units| then units[c := AddFrom(units[c], d, delta)] else units
  }

  /** One transaction on calendar day `d`; `b` is the benchmark column. */
  function ApplyTx(h: Panel, b: nat, d: nat, s: Book, t: Transaction): (r: Book)
    requires Rectangular(h) && Fits(h, s) && b < |h.columns| && d < |h.dates|
    requires t.kind.Buy? ==> h.close[b][d] != 0.0
    ensures Fits(h, r)
  {
    var amount := Amount(t);
    var c := IndexOf(h.columns, t.symbol);
    match t.kind
    case Buy =>
      Book(Post(s.units, c, d, t.quantity),
           AddFrom(s.phantom, d, amount / h.close[b][d]),
           s.invested, s.running + amount, s.flows + [Flow(h.dates[d], -amount)])
    case Sell =>
      Book(Post(s.units, c, d, -t.quantity),
           s.phantom, s.invested, s.running - amount, s.flows + [Flow(h.dates[d], amount)])
    case Other(_) => s
  }

  /** A day's transactions, applied in log order. */
  function ApplyDay(h: Panel, b: nat, d: nat, s: Book, txs: seq<Transaction>): (r: Book)
    requires Rectangular(h) && Fits(h, s) && b < |h.columns| && d < |h.dates|
    requires HasBuy(txs) ==> h.close[b][d] != 0.0
    ensures Fits(h, r)
    decreases |txs|
  {
    if |txs| == 0 then s
    else
      assert txs[0] in txs;
      ApplyDay(h, b, d, ApplyTx(h, b, d, s, txs[0]), txs[1..])
  }

  /** The calendar walk from day `d` on: apply the day's transactions, then record the day's invested capital. */
  function RunDays(h: Panel, b: nat, log: seq<Transaction>, d: nat, s: Book): (r: Book)
    requires Rectangular(h) && Fits(h, s) && b < |h.columns| && d <= |h.dates|
    requires Priced(h, b, log)
    ensures Fits(h, r)
    decreases |h.dates| - d
  {
    if d == |h.dates| then s
    else
      var s1 := ApplyDay(h, b, d, s, OnDate(log, h.dates[d]));
      RunDays(h, b, log, d + 1, s1.(invested := s1.invested[d := s1.running]))
  }

  /** The whole replay over the (already restricted) panel `h`. */
  function Replay(h: Panel, b: nat, log: seq<Transaction>): (r: Book)
    requires Rectangular(h) && b < |h.columns| && Priced(h, b, log)
    ensures Fits(h, r)
  {
    RunDays(h, b, log, 0, Opening(h))
  }
}
