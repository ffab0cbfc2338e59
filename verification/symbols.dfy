/**
 * Stock symbols of the form `TICKER.EXCHANGE`: split on '.', exactly two pieces, and an exchange on
 * the supported list.
 */
module Symbols {
  import opened Results

  const Dot: char := '.'

  /** The exchanges a symbol may name, in the order the error message lists them. */
  const Exchanges: seq<string> := ["NSE", "BSE"]

  datatype Listing = Listing(ticker: string, exchange: string)

  datatype SymbolError =
    | NoDot(symbol: string)                  // no '.' at all
    | Malformed(symbol: string)              // more than one '.'
    | UnsupportedExchange(exchange: string)  // the piece after the '.' is not supported

  /** The pieces joined back with `sep` between neighbours. */
  function Join(parts: seq<string>, sep: char): string
    requires |parts| > 0
  {
    if |parts| == 1 then parts[0] else parts[0] + [sep] + Join(parts[1..], sep)
  }

  /** Position of the first `c` in `s`. */
  function IndexOf(s: string, c: char): (i: nat)
    requires c in s
    ensures i < |s| && s[i] == c
    ensures c !in s[..i]
  {
    if s[0] == c then 0
    else
      assert s[1..][IndexOf(s[1..], c)] == c;
      assert s[..1 + IndexOf(s[1..], c)] == [s[0]] + s[1..][..IndexOf(s[1..], c)];
      1 + IndexOf(s[1..], c)
  }

  /**
   * Python's `s.split(sep)`: the maximal runs between separators, including empty ones, so that
   * there is always one piece more than there are separators.
   */
  function Split(s: string, sep: char): (parts: seq<string>)
    ensures |parts| > 0
    decreases |s|
  {
    if sep !in s then [s]
    else
      var i := IndexOf(s, sep);
      [s[..i]] + Split(s[i + 1..], sep)
  }

  /** The pieces join back into the string. */
  lemma {:induction false} SplitJoin(s: string, sep: char)
    ensures Join(Split(s, sep), sep) == s
    decreases |s|
  {
    if sep in s {
      var i := IndexOf(s, sep);
      var tail := s[i + 1..];
      SplitJoin(tail, sep);
      assert Split(s, sep)[1..] == Split(tail, sep);
      assert s == s[..i] + [sep] + tail;
    }
  }

  /** No piece holds the separator. */
  lemma {:induction false} SplitPieces(s: string, sep: char)
    ensures forall k :: 0 <= k < |Split(s, sep)| ==> sep !in Split(s, sep)[k]
    decreases |s|
  {
    if sep in s {
      var i := IndexOf(s, sep);
      SplitPieces(s[i + 1..], sep);
    }
  }

  /** There is one piece per separator, plus one. */
  lemma {:induction false} SplitCount(s: string, sep: char)
    ensures |Split(s, sep)| == multiset(s)[sep] + 1
    decreases |s|
  {
    if sep !in s {
      assert multiset(s)[sep] == 0;
    } else {
      var i := IndexOf(s, sep);
      var tail := s[i + 1..];
      SplitCount(tail, sep);
      assert s == s[..i] + [sep] + tail;
      assert multiset(s) == multiset(s[..i]) + multiset([sep]) + multiset(tail);
      assert multiset(s[..i])[sep] == 0;
    }
  }

  /** The three facts together. */
  lemma SplitFacts(s: string, sep: char)
    ensures Join(Split(s, sep), sep) == s
    ensures forall k :: 0 <= k < |Split(s, sep)| ==> sep !in Split(s, sep)[k]
    ensures |Split(s, sep)| == multiset(s)[sep] + 1
  {
    SplitJoin(s, sep);
    SplitPieces(s, sep);
    SplitCount(s, sep);
  }

  /** The source's parse: the listing, or the first error it raises. */
  function Parse(symbol: string): (r: Result<Listing, SymbolError>)
    ensures r.Success? ==>
      r.value.ticker + [Dot] + r.value.exchange == symbol &&
      Dot !in r.value.ticker && Dot !in r.value.exchange &&
      r.value.exchange in Exchanges
  {
    if Dot !in symbol then Failure(NoDot(symbol))
    else
      var parts := Split(symbol, Dot);
      SplitFacts(symbol, Dot);
      if |parts| != 2 then Failure(Malformed(symbol))
      else if parts[1] !in Exchanges then Failure(UnsupportedExchange(parts[1]))
      else
        assert parts[1..] == [parts[1]];
        Success(Listing(parts[0], parts[1]))
  }

  /** Splitting a piece free of the separator gives the piece itself. */
  lemma SplitWhole(e: string, sep: char)
    requires sep !in e
    ensures Split(e, sep) == [e]
  {
  }

  /** Splitting `t + sep + e`, with neither piece holding the separator, gives back the two pieces. */
  lemma SplitPair(t: string, e: string, sep: char)
    requires sep !in t && sep !in e
    ensures Split(t + [sep] + e, sep) == [t, e]
  {
    var s := t + [sep] + e;
    assert s[|t|] == sep;
    assert s[..|t|] == t;
    assert s[|t| + 1..] == e;
    assert IndexOf(s, sep) == |t|;
    SplitWhole(e, sep);
  }

  /**
   * Each error occurs exactly under its condition: no '.', more than one '.', or a single '.'
   * followed by something other than a supported exchange.
   */
  lemma ParseErrors(symbol: string)
    ensures Parse(symbol) == Failure(NoDot(symbol)) <==> Dot !in symbol
    ensures Parse(symbol) == Failure(Malformed(symbol)) <==> multiset(symbol)[Dot] >= 2
    ensures Parse(symbol).Failure? && Parse(symbol).error.UnsupportedExchange? <==>
      multiset(symbol)[Dot] == 1 && symbol[IndexOf(symbol, Dot) + 1..] !in Exchanges
    ensures Parse(symbol).Failure? && Parse(symbol).error.UnsupportedExchange? ==>
      Parse(symbol).error == UnsupportedExchange(symbol[IndexOf(symbol, Dot) + 1..])
  {
    SplitFacts(symbol, Dot);
    if Dot in symbol {
      var i := IndexOf(symbol, Dot);
      var tail := symbol[i + 1..];
      SplitFacts(tail, Dot);
      if multiset(symbol)[Dot] == 1 {
        assert Split(symbol, Dot) == [symbol[..i]] + Split(tail, Dot);
        assert Split(tail, Dot) == [tail];
      }
    }
  }

  /** Every supported listing survives formatting and parsing unchanged. */
  lemma ParseFormat(ticker: string, exchange: string)
    requires Dot !in ticker && exchange in Exchanges
    ensures Parse(ticker + [Dot] + exchange) == Success(Listing(ticker, exchange))
  {
    assert Dot !in exchange;
    SplitPair(ticker, exchange, Dot);
    assert Dot in ticker + [Dot] + exchange;
  }
}
