/**
 * The portfolio ledger: the transaction log and the holdings records the engine reads,
 * and the symbol selection that narrows both before any computation.
 */
module Ledger {
  import opened Results

  /** A transaction type. Only "buy" and "sell" have an effect; any other type name is carried and ignored. */
  datatype Kind = Buy | Sell | Other(name: string)

  /**
   * One row of the transaction log. Dates are calendar day numbers. `charges` is absent when the
   * record has no charges field, in which case it reads as 0.
   */
  datatype Transaction = Transaction(
    date: int,
    symbol: string,
    kind: Kind,
    quantity: real,
    price: real,
    charges: Option<real>)

  /** The cash a transaction moves: quantity times price plus charges, for buys and sells alike. */
  function Amount(t: Transaction): real
  {
    t.quantity * t.price + t.charges.GetOr(0.0)
  }

  /**
   * One holdings record. Every field but the symbol may be missing from the record; each reader
   * decides its own default (or fails), so the defaults are not fixed here.
   */
  datatype Holding = Holding(
    symbol: string,
    assetType: Option<string>,
    sector: Option<string>,
    quantity: Option<real>,
    avgPrice: Option<real>,
    currentPrice: Option<real>,
    peRatio: Option<real>)

  /** The sentinel symbol that selects everything. */
  const AllSymbols: string := "ALL"

  /**
   * A symbol selection as the callers pass it: no list at all, or a list of symbols that may
   * contain the "ALL" sentinel.
   */
  type Selection = Option<seq<string>>

  /** No list, an empty list, or a list containing "ALL" keeps every symbol. */
  predicate KeepsAll(sel: Selection)
  {
    sel.None? || |sel.value| == 0 || AllSymbols in sel.value
  }

  predicate Selected(sel: Selection, symbol: string)
  {
    KeepsAll(sel) || (sel.Some? && symbol in sel.value)
  }

  /** The transactions whose symbol is selected, in log order. */
  function FilterLog(log: seq<Transaction>, sel: Selection): (r: seq<Transaction>)
    ensures |r| <= |log|
    ensures forall t :: t in r <==> t in log && Selected(sel, t.symbol)
  {
    if |log| == 0 then []
    else if Selected(sel, log[0].symbol) then [log[0]] + FilterLog(log[1..], sel)
    else FilterLog(log[1..], sel)
  }

  /** A selection that keeps everything returns the log unchanged. */
  lemma {:induction false} FilterKeepsAll(log: seq<Transaction>, sel: Selection)
    requires KeepsAll(sel)
    ensures FilterLog(log, sel) == log
  {
    if |log| > 0 {
      FilterKeepsAll(log[1..], sel);
      assert log == [log[0]] + log[1..];
    }
  }

  /** Filtering distributes over concatenation, so the survivors keep their relative log order. */
  lemma {:induction false} FilterAppend(a: seq<Transaction>, b: seq<Transaction>, sel: Selection)
    ensures FilterLog(a + b, sel) == FilterLog(a, sel) + FilterLog(b, sel)
  {
    if |a| > 0 {
      assert (a + b)[1..] == a[1..] + b;
      FilterAppend(a[1..], b, sel);
    } else {
      assert a + b == b;
    }
  }
}
