/**
 * The financial calculator behind the portfolio-metrics tool: profit and loss over holdings,
 * sector and asset-class exposure, rolling returns, the P/E comparison with the market, the
 * argument checks of the XIRR and CAGR calculations, and the cash flows the tool hands to XIRR.
 *
 * Every holdings field the calculator reads has its own default when the record lacks it; the
 * defaults differ between operations (a missing current price is the average cost in profit and
 * loss but 0 in exposure) and are spelled out per operation.
 */
module Calculator {
  import opened Results
  import opened Ledger
  import Sums
  import Reconstruction

  // ---------------------------------------------------------------------------------------
  // Profit and loss

  datatype Pnl = Pnl(unrealized: real, totalInvested: real, currentValue: real, unrealizedPct: real)

  function Quantity(h: Holding): real
  {
    h.quantity.GetOr(0.0)
  }

  /** What a holding cost: quantity times average cost, each 0 when missing. */
  function CostBasis(h: Holding): real
  {
    Quantity(h) * h.avgPrice.GetOr(0.0)
  }

  /** What a holding is worth for profit and loss: a missing current price counts as the average cost. */
  function Worth(h: Holding): real
  {
    Quantity(h) * h.currentPrice.GetOr(h.avgPrice.GetOr(0.0))
  }

  function Costs(hs: seq<Holding>): (r: seq<real>)
    ensures |r| == |hs| && forall i :: 0 <= i < |hs| ==> r[i] == CostBasis(hs[i])
  {
    seq(|hs|, i requires 0 <= i < |hs| => CostBasis(hs[i]))
  }

  function Worths(hs: seq<Holding>): (r: seq<real>)
    ensures |r| == |hs| && forall i :: 0 <= i < |hs| ==> r[i] == Worth(hs[i])
  {
    seq(|hs|, i requires 0 <= i < |hs| => Worth(hs[i]))
  }

  /**
   * Profit and loss over all holdings: the invested and current totals are the sums over the
   * holdings, the unrealized profit accumulated holding by holding is their difference, and the
   * percentage is that profit over a positive invested total (0 otherwise).
   */
  method CalculatePnl(hs: seq<Holding>) returns (r: Pnl)
    ensures r.totalInvested == Sums.Sum(Costs(hs))
    ensures r.currentValue == Sums.Sum(Worths(hs))
    ensures r.unrealized == r.currentValue - r.totalInvested
    ensures r.totalInvested > 0.0 ==> r.currentValue == Sums.Level(r.totalInvested, r.unrealizedPct)
    ensures r.totalInvested <= 0.0 ==> r.unrealizedPct == 0.0
  {
    var unrealized, invested, current := 0.0, 0.0, 0.0;
    ghost var costs, worths := Costs(hs), Worths(hs);
    var i := 0;
    while i < |hs|
      invariant 0 <= i <= |hs|
      invariant invested == Sums.Sum(costs[..i])
      invariant current == Sums.Sum(worths[..i])
      invariant unrealized == current - invested
    {
      var quantity := hs[i].quantity.GetOr(0.0);
      var avg := hs[i].avgPrice.GetOr(0.0);
      var price := hs[i].currentPrice.GetOr(avg);
      var cost := quantity * avg;
      var worth := quantity * price;
      assert costs[..i + 1][..i] == costs[..i];
      assert worths[..i + 1][..i] == worths[..i];
      invested := invested + cost;
      current := current + worth;
      unrealized := unrealized + (worth - cost);
      i := i + 1;
    }
    assert costs[..|hs|] == costs;
    assert worths[..|hs|] == worths;
    var pct := if invested > 0.0 then unrealized / invested * 100.0 else 0.0;
    if invested > 0.0 {
      assert pct == Sums.Change(invested, current);
    }
    r := Pnl(unrealized, invested, current, pct);
  }

  // ---------------------------------------------------------------------------------------
  // Exposure

  const UnknownSector: string := "Unknown"
  const DefaultAssetType: string := "equity"

  datatype Dimension = BySector | ByAssetType

  function KeyOf(d: Dimension, h: Holding): string
  {
    match d
    case BySector => h.sector.GetOr(UnknownSector)
    case ByAssetType => h.assetType.GetOr(DefaultAssetType)
  }

  /** Market value for exposure: quantity times current price, a missing current price counting as 0. */
  function MarketValue(h: Holding): real
  {
    Quantity(h) * h.currentPrice.GetOr(0.0)
  }

  function MarketValues(hs: seq<Holding>): (r: seq<real>)
    ensures |r| == |hs| && forall i :: 0 <= i < |hs| ==> r[i] == MarketValue(hs[i])
  {
    seq(|hs|, i requires 0 <= i < |hs| => MarketValue(hs[i]))
  }

  /** Total market value of the holdings. */
  function TotalValue(hs: seq<Holding>): real
  {
    Sums.Sum(MarketValues(hs))
  }

  /** A dictionary entry; a bucket list plays the role of an insertion-ordered dictionary. */
  datatype Bucket = Bucket(key: string, value: real)

  function KeyList(bs: seq<Bucket>): (r: seq<string>)
    ensures |r| == |bs| && forall i :: 0 <= i < |bs| ==> r[i] == bs[i].key
  {
    seq(|bs|, i requires 0 <= i < |bs| => bs[i].key)
  }

  predicate DistinctKeys(bs: seq<Bucket>)
  {
    Reconstruction.Distinct(KeyList(bs))
  }

  /** The value stored under `key`, 0 when the key is absent (the first entry wins if keys repeat). */
  function ValueAt(bs: seq<Bucket>, key: string): real
  {
    if |bs| == 0 then 0.0
    else if bs[0].key == key then bs[0].value
    else ValueAt(bs[1..], key)
  }

  function BucketSum(bs: seq<Bucket>): real
  {
    if |bs| == 0 then 0.0 else bs[0].value + BucketSum(bs[1..])
  }

  /**
   * `d[key] = d.get(key, 0) + v`: add to the entry for `key`; a key not yet present gets a new
   * entry at the end, so the keys keep the order in which they were first added.
   */
  function AddTo(bs: seq<Bucket>, key: string, v: real): seq<Bucket>
  {
    if |bs| == 0 then [Bucket(key, v)]
    else if bs[0].key == key then [Bucket(key, bs[0].value + v)] + bs[1..]
    else [bs[0]] + AddTo(bs[1..], key, v)
  }

  lemma KeyListCons(b: Bucket, bs: seq<Bucket>)
    ensures KeyList([b] + bs) == [b.key] + KeyList(bs)
  {
  }

  /** An existing key keeps its place; a new key is appended at the end. */
  lemma {:induction false} AddToKeys(bs: seq<Bucket>, key: string, v: real)
    ensures KeyList(AddTo(bs, key, v)) == if key in KeyList(bs) then KeyList(bs) else KeyList(bs) + [key]
  {
    if |bs| > 0 {
      var ks := KeyList(bs);
      assert bs == [bs[0]] + bs[1..];
      KeyListCons(bs[0], bs[1..]);
      if bs[0].key == key {
        KeyListCons(Bucket(key, bs[0].value + v), bs[1..]);
        assert key in ks;
      } else {
        var rest := AddTo(bs[1..], key, v);
        AddToKeys(bs[1..], key, v);
        KeyListCons(bs[0], rest);
        assert key in ks <==> key in KeyList(bs[1..]);
      }
    }
  }

  /** Adding changes the value under `key` by `v` and no other value. */
  lemma {:induction false} AddToValue(bs: seq<Bucket>, key: string, v: real, k: string)
    ensures ValueAt(AddTo(bs, key, v), k) == ValueAt(bs, k) + (if k == key then v else 0.0)
  {
    if |bs| == 0 {
      assert AddTo(bs, key, v)[1..] == [];
    } else if bs[0].key == key {
      assert AddTo(bs, key, v)[1..] == bs[1..];
    } else {
      AddToValue(bs[1..], key, v, k);
      assert AddTo(bs, key, v)[1..] == AddTo(bs[1..], key, v);
    }
  }

  /** Adding `v` adds `v` to the sum of all entries. */
  lemma {:induction false} AddToSum(bs: seq<Bucket>, key: string, v: real)
    ensures BucketSum(AddTo(bs, key, v)) == BucketSum(bs) + v
  {
    if |bs| == 0 {
      assert AddTo(bs, key, v)[1..] == [];
    } else if bs[0].key == key {
      assert AddTo(bs, key, v)[1..] == bs[1..];
    } else {
      AddToSum(bs[1..], key, v);
      assert AddTo(bs, key, v)[1..] == AddTo(bs[1..], key, v);
    }
  }

  lemma DistinctSnoc(xs: seq<string>, x: string)
    requires Reconstruction.Distinct(xs) && x !in xs
    ensures Reconstruction.Distinct(xs + [x])
  {
    var ys := xs + [x];
    forall i, j | 0 <= i < j < |ys| ensures ys[i] != ys[j] {
      if j == |xs| {
        assert ys[i] == xs[i];
      }
    }
  }

  /** The sum of market values per key, in the order each key first occurs among the holdings. */
  function Group(hs: seq<Holding>, d: Dimension): seq<Bucket>
  {
    if |hs| == 0 then []
    else AddTo(Group(hs[..|hs| - 1], d), KeyOf(d, hs[|hs| - 1]), MarketValue(hs[|hs| - 1]))
  }

  /** Reference: the market value of the holdings whose key is `key`. */
  function KeyedTotal(hs: seq<Holding>, d: Dimension, key: string): real
  {
    if |hs| == 0 then 0.0
    else KeyedTotal(hs[..|hs| - 1], d, key) + (if KeyOf(d, hs[|hs| - 1]) == key then MarketValue(hs[|hs| - 1]) else 0.0)
  }

  function Keys(hs: seq<Holding>, d: Dimension): (r: seq<string>)
    ensures |r| == |hs| && forall i :: 0 <= i < |hs| ==> r[i] == KeyOf(d, hs[i])
  {
    seq(|hs|, i requires 0 <= i < |hs| => KeyOf(d, hs[i]))
  }

  /** The distinct elements of a list, in order of first occurrence. */
  function Unique(xs: seq<string>): seq<string>
  {
    if |xs| == 0 then []
    else
      var init := Unique(xs[..|xs| - 1]);
      if xs[|xs| - 1] in init then init else init + [xs[|xs| - 1]]
  }

  /** `Unique` keeps every element once and nothing else. */
  lemma {:induction false} UniqueFacts(xs: seq<string>)
    ensures Reconstruction.Distinct(Unique(xs))
    ensures forall k :: k in Unique(xs) <==> k in xs
  {
    if |xs| > 0 {
      var init := xs[..|xs| - 1];
      UniqueFacts(init);
      assert xs == init + [xs[|xs| - 1]];
      if xs[|xs| - 1] !in Unique(init) {
        DistinctSnoc(Unique(init), xs[|xs| - 1]);
      }
    }
  }

  /** The grouping has one entry per key, in the order each key first occurs among the holdings. */
  lemma {:induction false} GroupKeys(hs: seq<Holding>, d: Dimension)
    ensures KeyList(Group(hs, d)) == Unique(Keys(hs, d))
  {
    if |hs| > 0 {
      GroupKeys(hs[..|hs| - 1], d);
      AddToKeys(Group(hs[..|hs| - 1], d), KeyOf(d, hs[|hs| - 1]), MarketValue(hs[|hs| - 1]));
      assert Keys(hs, d)[..|hs| - 1] == Keys(hs[..|hs| - 1], d);
    }
  }

  /** The grouping stores under each key the market value of exactly the holdings with that key. */
  lemma {:induction false} GroupValues(hs: seq<Holding>, d: Dimension, k: string)
    ensures ValueAt(Group(hs, d), k) == KeyedTotal(hs, d, k)
  {
    if |hs| > 0 {
      GroupValues(hs[..|hs| - 1], d, k);
      AddToValue(Group(hs[..|hs| - 1], d), KeyOf(d, hs[|hs| - 1]), MarketValue(hs[|hs| - 1]), k);
    }
  }

  /** The grouping's entries add up to the total market value. */
  lemma {:induction false} GroupSum(hs: seq<Holding>, d: Dimension)
    ensures BucketSum(Group(hs, d)) == TotalValue(hs)
  {
    if |hs| > 0 {
      GroupSum(hs[..|hs| - 1], d);
      AddToSum(Group(hs[..|hs| - 1], d), KeyOf(d, hs[|hs| - 1]), MarketValue(hs[|hs| - 1]));
      assert MarketValues(hs)[..|hs| - 1] == MarketValues(hs[..|hs| - 1]);
    }
  }

  /**
   * Grouping keeps one entry per key that occurs among the holdings and no other, stores under
   * each key the market value of exactly the holdings with that key, and so adds up to the total.
   */
  lemma GroupFacts(hs: seq<Holding>, d: Dimension)
    ensures DistinctKeys(Group(hs, d))
    ensures forall k :: k in KeyList(Group(hs, d)) <==> k in Keys(hs, d)
    ensures forall k :: ValueAt(Group(hs, d), k) == KeyedTotal(hs, d, k)
    ensures BucketSum(Group(hs, d)) == TotalValue(hs)
  {
    GroupKeys(hs, d);
    UniqueFacts(Keys(hs, d));
    forall k ensures ValueAt(Group(hs, d), k) == KeyedTotal(hs, d, k) {
      GroupValues(hs, d, k);
    }
    GroupSum(hs, d);
  }

  /** In a list with distinct keys every entry holds the value stored under its key. */
  lemma {:induction false} EntryIsValueAt(bs: seq<Bucket>, i: nat)
    requires DistinctKeys(bs) && i < |bs|
    ensures bs[i].value == ValueAt(bs, bs[i].key)
  {
    if i > 0 {
      assert KeyList(bs[1..]) == KeyList(bs)[1..];
      assert KeyList(bs)[0] != KeyList(bs)[i];
      EntryIsValueAt(bs[1..], i - 1);
    }
  }

  /** `part` as a percentage of `whole`. */
  function Percent(part: real, whole: real): (r: real)
    requires whole != 0.0
    ensures r * whole == part * 100.0
  {
    part / whole * 100.0
  }

  lemma PercentAdd(a: real, b: real, whole: real)
    requires whole != 0.0
    ensures Percent(a + b, whole) == Percent(a, whole) + Percent(b, whole)
  {
  }

  lemma PercentOfWhole(whole: real)
    requires whole != 0.0
    ensures Percent(whole, whole) == 100.0
  {
  }

  /** Each entry's value as a percentage of `total`, keys unchanged. */
  function Shares(bs: seq<Bucket>, total: real): (r: seq<Bucket>)
    requires total > 0.0
    ensures |r| == |bs|
    ensures forall i :: 0 <= i < |bs| ==> r[i].key == bs[i].key && r[i].value == Percent(bs[i].value, total)
  {
    seq(|bs|, i requires 0 <= i < |bs| => Bucket(bs[i].key, Percent(bs[i].value, total)))
  }

  lemma {:induction false} SharesSum(bs: seq<Bucket>, total: real)
    requires total > 0.0
    ensures BucketSum(Shares(bs, total)) == Percent(BucketSum(bs), total)
  {
    if |bs| > 0 {
      SharesSum(bs[1..], total);
      assert Shares(bs, total)[1..] == Shares(bs[1..], total);
      PercentAdd(bs[0].value, BucketSum(bs[1..]), total);
    }
  }

  /** In the grouping, every entry holds the market value of exactly the holdings with its key. */
  lemma GroupEntries(hs: seq<Holding>, d: Dimension)
    ensures forall i :: 0 <= i < |Group(hs, d)| ==> Group(hs, d)[i].value == KeyedTotal(hs, d, Group(hs, d)[i].key)
  {
    var g := Group(hs, d);
    GroupFacts(hs, d);
    forall i | 0 <= i < |g| ensures g[i].value == KeyedTotal(hs, d, g[i].key) {
      EntryIsValueAt(g, i);
    }
  }

  /** Exposure along one dimension: each key's market value as a percentage of a positive total. */
  function ExposureBy(hs: seq<Holding>, d: Dimension, total: real): (r: seq<Bucket>)
    requires total > 0.0
    ensures KeyList(r) == KeyList(Group(hs, d))
    ensures forall i :: 0 <= i < |r| ==> r[i].value == Percent(KeyedTotal(hs, d, r[i].key), total)
  {
    var g := Group(hs, d);
    GroupEntries(hs, d);
    Shares(g, total)
  }

  datatype Exposure = Exposure(sectors: seq<Bucket>, assets: seq<Bucket>, totalValue: real)

  /** Sector and asset-class exposure in percent of the total market value; both are empty unless that total is positive. */
  function CalculateExposure(hs: seq<Holding>): (r: Exposure)
    ensures r.totalValue == TotalValue(hs)
    ensures r.totalValue <= 0.0 ==> r.sectors == [] && r.assets == []
    ensures r.totalValue > 0.0 ==>
      KeyList(r.sectors) == Unique(Keys(hs, BySector)) && BucketSum(r.sectors) == 100.0 &&
      forall i :: 0 <= i < |r.sectors| ==>
        r.sectors[i].value == Percent(KeyedTotal(hs, BySector, r.sectors[i].key), r.totalValue)
    ensures r.totalValue > 0.0 ==>
      KeyList(r.assets) == Unique(Keys(hs, ByAssetType)) && BucketSum(r.assets) == 100.0 &&
      forall i :: 0 <= i < |r.assets| ==>
        r.assets[i].value == Percent(KeyedTotal(hs, ByAssetType, r.assets[i].key), r.totalValue)
  {
    var total := TotalValue(hs);
    if total > 0.0 then
      GroupKeys(hs, BySector);
      GroupKeys(hs, ByAssetType);
      ExposureAddsUpTo100(hs, BySector);
      ExposureAddsUpTo100(hs, ByAssetType);
      Exposure(ExposureBy(hs, BySector, total), ExposureBy(hs, ByAssetType, total), total)
    else Exposure([], [], total)
  }

  /** With a positive total, the percentages along either dimension add up to 100. */
  lemma ExposureAddsUpTo100(hs: seq<Holding>, d: Dimension)
    requires TotalValue(hs) > 0.0
    ensures BucketSum(ExposureBy(hs, d, TotalValue(hs))) == 100.0
  {
    var total := TotalValue(hs);
    var g := Group(hs, d);
    GroupSum(hs, d);
    SharesSum(g, total);
    PercentOfWhole(total);
  }

  // ---------------------------------------------------------------------------------------
  // Rolling returns

  /** End positions `i` in `[window, n)` whose window start `prices[i - window]` is positive, ascending. */
  function RollingEnds(prices: seq<real>, window: nat, n: nat): (r: seq<nat>)
    requires n <= |prices|
    ensures forall k :: 0 <= k < |r| ==> window <= r[k] < n && prices[r[k] - window] > 0.0
    ensures forall i :: window <= i < n && prices[i - window] > 0.0 ==> i in r
    ensures forall j, k :: 0 <= j < k < |r| ==> r[j] < r[k]
  {
    if n <= window then []
    else
      var init := RollingEnds(prices, window, n - 1);
      if prices[n - 1 - window] > 0.0 then init + [n - 1] else init
  }

  /** `r` holds, for each end position in `ends`, the percentage taking that window's first price to its last. */
  predicate ReturnsAt(prices: seq<real>, window: nat, ends: seq<nat>, r: seq<real>)
  {
    |r| == |ends| &&
    forall k :: 0 <= k < |r| ==>
      window <= ends[k] < |prices| && prices[ends[k]] == Sums.Level(prices[ends[k] - window], r[k])
  }

  lemma ReturnsAtExtend(prices: seq<real>, window: nat, ends: seq<nat>, r: seq<real>, e: nat)
    requires ReturnsAt(prices, window, ends, r)
    requires window <= e < |prices| && prices[e - window] != 0.0
    ensures ReturnsAt(prices, window, ends + [e], r + [Sums.Change(prices[e - window], prices[e])])
  {
    var r' := r + [Sums.Change(prices[e - window], prices[e])];
    var ends' := ends + [e];
    forall k | 0 <= k < |r'|
      ensures window <= ends'[k] < |prices| && prices[ends'[k]] == Sums.Level(prices[ends'[k] - window], r'[k])
    {
      if k < |r| {
        assert ends'[k] == ends[k] && r'[k] == r[k];
      }
    }
  }

  /**
   * Returns over every window of `window` days whose starting price is positive, in order: each is
   * the percentage change from the window's first price to its last; too short a series gives none.
   */
  method RollingReturns(prices: seq<real>, window: nat) returns (r: seq<real>)
    ensures |prices| <= window ==> r == []
    ensures |r| == |RollingEnds(prices, window, |prices|)|
    ensures forall k :: 0 <= k < |r| ==>
      var e := RollingEnds(prices, window, |prices|)[k];
      prices[e] == Sums.Level(prices[e - window], r[k])
  {
    if |prices| < window {
      return [];
    }
    r := [];
    var i := window;
    while i < |prices|
      invariant window <= i <= |prices|
      invariant ReturnsAt(prices, window, RollingEnds(prices, window, i), r)
    {
      var start := prices[i - window];
      var end := prices[i];
      ghost var ends := RollingEnds(prices, window, i);
      if start > 0.0 {
        assert RollingEnds(prices, window, i + 1) == ends + [i];
        ReturnsAtExtend(prices, window, ends, r, i);
        r := r + [Sums.Change(start, end)];
      } else {
        assert RollingEnds(prices, window, i + 1) == ends;
      }
      i := i + 1;
    }
  }

  /** The tool's default window of 30 prices. */
  const DefaultWindow: nat := 30

  /** Rolling returns with the window left at its default. */
  method DefaultRollingReturns(prices: seq<real>) returns (r: seq<real>)
    ensures |prices| <= DefaultWindow ==> r == []
    ensures |r| == |RollingEnds(prices, DefaultWindow, |prices|)|
    ensures forall k :: 0 <= k < |r| ==>
      var e := RollingEnds(prices, DefaultWindow, |prices|)[k];
      prices[e] == Sums.Level(prices[e - DefaultWindow], r[k])
  {
    r := RollingReturns(prices, DefaultWindow);
  }

  /**
   * A series of n prices has at most n - window rolling returns, and exactly that many when every
   * window's starting price is positive.
   */
  lemma {:induction false} RollingCount(prices: seq<real>, window: nat, n: nat)
    requires window <= n <= |prices|
    ensures |RollingEnds(prices, window, n)| <= n - window
    ensures |RollingEnds(prices, window, n)| == n - window <==>
      forall i :: 0 <= i < n - window ==> prices[i] > 0.0
  {
    if n > window {
      RollingCount(prices, window, n - 1);
    }
  }

  // ---------------------------------------------------------------------------------------
  // P/E analysis

  const MarketPe: real := 22.0

  /** The positive P/E ratios of the holdings, in order (a missing ratio counts as 0 and is dropped). */
  function PositivePes(hs: seq<Holding>): (r: seq<real>)
    ensures |r| <= |hs|
    ensures forall k :: 0 <= k < |r| ==> r[k] > 0.0
    ensures forall h :: h in hs && h.peRatio.GetOr(0.0) > 0.0 ==> h.peRatio.GetOr(0.0) in r
  {
    if |hs| == 0 then []
    else
      var init := PositivePes(hs[..|hs| - 1]);
      var pe := hs[|hs| - 1].peRatio.GetOr(0.0);
      assert forall h :: h in hs ==> h in hs[..|hs| - 1] || h == hs[|hs| - 1];
      if pe > 0.0 then init + [pe] else init
  }

  /**
   * The ratios are taken holding by holding: one holding contributes its ratio exactly when it is
   * positive, and a concatenation contributes the ratios of each part, in order.
   */
  lemma {:induction false} PositivePesAppend(a: seq<Holding>, b: seq<Holding>)
    ensures PositivePes(a + b) == PositivePes(a) + PositivePes(b)
    ensures |a| == 1 ==>
      PositivePes(a) == if a[0].peRatio.GetOr(0.0) > 0.0 then [a[0].peRatio.GetOr(0.0)] else []
  {
    if |b| == 0 {
      assert a + b == a;
    } else {
      assert (a + b)[..|a + b| - 1] == a + b[..|b| - 1];
      PositivePesAppend(a, b[..|b| - 1]);
    }
    if |a| == 1 {
      assert a[..0] == [];
    }
  }

  datatype Verdict = Overvalued | Undervalued

  datatype PeReport = PeReport(averagePe: real, marketPe: real, verdict: Verdict, premiumPct: real)

  datatype PeError =
    | NoPeData       // no holding has a positive P/E ratio
    | ZeroMarketPe   // the premium divides by a market P/E of 0

  /**
   * The average of the positive P/E ratios compared with the market's: overvalued exactly when the
   * average is above the market P/E, with the premium as the percentage change from the market P/E.
   */
  function PeAnalysis(hs: seq<Holding>, marketPe: real): (r: Result<PeReport, PeError>)
    ensures r == Failure(NoPeData) <==> |PositivePes(hs)| == 0
    ensures r == Failure(ZeroMarketPe) <==> |PositivePes(hs)| > 0 && marketPe == 0.0
    ensures r.Success? ==>
      var pes := PositivePes(hs);
      r.value.averagePe == Sums.Mean(pes) &&
      Sums.Min(pes) <= r.value.averagePe <= Sums.Max(pes) &&
      r.value.marketPe == marketPe &&
      (r.value.verdict == Overvalued <==> r.value.averagePe > marketPe) &&
      r.value.averagePe == Sums.Level(marketPe, r.value.premiumPct)
  {
    var pes := PositivePes(hs);
    if |pes| == 0 then Failure(NoPeData)
    else
      var avg := Sums.Mean(pes);
      Sums.MeanBetweenExtremes(pes);
      if marketPe == 0.0 then Failure(ZeroMarketPe)
      else
        var verdict := if avg > marketPe then Overvalued else Undervalued;
        Success(PeReport(avg, marketPe, verdict, Sums.Change(marketPe, avg)))
  }

  /**
   * The analysis with the market P/E left at its default of 22: it fails only when no holding has
   * a positive ratio.
   */
  function DefaultPeAnalysis(hs: seq<Holding>): (r: Result<PeReport, PeError>)
    ensures r.Failure? <==> |PositivePes(hs)| == 0
    ensures r.Failure? ==> r.error == NoPeData
    ensures r.Success? ==>
      r.value.marketPe == MarketPe && (r.value.verdict == Overvalued <==> r.value.averagePe > MarketPe)
  {
    PeAnalysis(hs, MarketPe)
  }

  /** The average of positive ratios is positive. */
  lemma AveragePeIsPositive(hs: seq<Holding>, marketPe: real)
    requires PeAnalysis(hs, marketPe).Success?
    ensures PeAnalysis(hs, marketPe).value.averagePe > 0.0
  {
    var pes := PositivePes(hs);
    assert Sums.Min(pes) in pes;
  }

  // ---------------------------------------------------------------------------------------
  // XIRR and CAGR argument checks, and the tool's XIRR cash flows

  datatype CalcError =
    | LengthMismatch      // cash flows and dates differ in length
    | NonPositiveInputs   // CAGR needs a positive initial value and a positive period

  /** Pair each cash flow with its date; only equally long lists can be paired. */
  function PairFlows(amounts: seq<real>, dates: seq<int>): (r: Result<seq<Reconstruction.Flow>, CalcError>)
    ensures r.Failure? <==> |amounts| != |dates|
    ensures r.Failure? ==> r.error == LengthMismatch
    ensures r.Success? ==>
      |r.value| == |amounts| &&
      forall i :: 0 <= i < |amounts| ==> r.value[i].amount == amounts[i] && r.value[i].date == dates[i]
  {
    if |amounts| != |dates| then Failure(LengthMismatch)
    else Success(seq(|amounts|, i requires 0 <= i < |amounts| => Reconstruction.Flow(dates[i], amounts[i])))
  }

  /** The growth ratio final / initial whose `1 / years`-th power CAGR takes, once the arguments are accepted. */
  function GrowthRatio(initial: real, final: real, years: real): (r: Result<real, CalcError>)
    ensures r.Success? <==> initial > 0.0 && years > 0.0
    ensures r.Failure? ==> r.error == NonPositiveInputs
    ensures r.Success? ==> final == initial * r.value && (r.value >= 1.0 <==> final >= initial)
  {
    if initial <= 0.0 || years <= 0.0 then Failure(NonPositiveInputs)
    else
      var ratio := final / initial;
      assert final == initial * ratio;
      Success(ratio)
  }

  /** The buy transactions, in log order. */
  function Buys(txs: seq<Transaction>): (r: seq<Transaction>)
    ensures |r| <= |txs|
    ensures forall t :: t in r <==> t in txs && t.kind.Buy?
  {
    if |txs| == 0 then []
    else
      var init := Buys(txs[..|txs| - 1]);
      assert forall t :: t in txs <==> t in txs[..|txs| - 1] || t == txs[|txs| - 1];
      if txs[|txs| - 1].kind.Buy? then init + [txs[|txs| - 1]] else init
  }

  /**
   * The buys are picked transaction by transaction: one transaction is kept exactly when it is a
   * buy, and the buys of a concatenation are those of each part, in order.
   */
  lemma {:induction false} BuysAppend(a: seq<Transaction>, b: seq<Transaction>)
    ensures Buys(a + b) == Buys(a) + Buys(b)
    ensures |a| == 1 ==> Buys(a) == if a[0].kind.Buy? then a else []
  {
    if |b| == 0 {
      assert a + b == a;
    } else {
      assert (a + b)[..|a + b| - 1] == a + b[..|b| - 1];
      BuysAppend(a, b[..|b| - 1]);
    }
    if |a| == 1 {
      assert a[..0] == [];
    }
  }

  datatype XirrCall = XirrCall(amounts: seq<real>, dates: seq<int>)

  /**
   * The tool's XIRR request: one outflow `-quantity * price` per buy (charges are not included),
   * then the holdings' total market value dated today. It is made only when there are transactions,
   * a start date, and at least one buy.
   */
  function PlanXirr(txs: seq<Transaction>, hs: seq<Holding>, hasStartDate: bool, today: int): (r: Option<XirrCall>)
    ensures r.Some? <==> |txs| > 0 && hasStartDate && exists t :: t in txs && t.kind.Buy?
    ensures r.Some? ==>
      var buys := Buys(txs);
      |r.value.amounts| == |buys| + 1 && |r.value.dates| == |buys| + 1 &&
      (forall i :: 0 <= i < |buys| ==>
         r.value.amounts[i] == -(buys[i].quantity * buys[i].price) && r.value.dates[i] == buys[i].date) &&
      r.value.amounts[|buys|] == TotalValue(hs) && r.value.dates[|buys|] == today
  {
    if |txs| == 0 || !hasStartDate then None
    else
      var buys := Buys(txs);
      var amounts := seq(|buys|, i requires 0 <= i < |buys| => -(buys[i].quantity * buys[i].price)) + [TotalValue(hs)];
      var dates := seq(|buys|, i requires 0 <= i < |buys| => buys[i].date) + [today];
      if |amounts| > 1 then
        assert buys[0] in buys;
        Some(XirrCall(amounts, dates))
      else
        assert forall t :: t in txs && t.kind.Buy? ==> t in buys;
        None
  }

  /** The tool's own request always passes the XIRR length check, and its final amount is the exposure total. */
  lemma ToolRequestIsWellFormed(txs: seq<Transaction>, hs: seq<Holding>, hasStartDate: bool, today: int)
    requires PlanXirr(txs, hs, hasStartDate, today).Some?
    ensures var call := PlanXirr(txs, hs, hasStartDate, today).value;
      PairFlows(call.amounts, call.dates).Success? &&
      call.amounts[|call.amounts| - 1] == CalculateExposure(hs).totalValue
  {
  }

  /** With every current price present, profit and loss and exposure value the holdings alike. */
  lemma WorthAgreesWithMarketValue(hs: seq<Holding>)
    requires forall i :: 0 <= i < |hs| ==> hs[i].currentPrice.Some?
    ensures Sums.Sum(Worths(hs)) == TotalValue(hs)
  {
    forall i | 0 <= i < |hs| ensures Worths(hs)[i] == MarketValues(hs)[i] {
      assert hs[i].currentPrice.GetOr(0.0) == hs[i].currentPrice.value;
    }
    assert Worths(hs) == MarketValues(hs);
  }
}
