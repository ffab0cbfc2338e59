/**
 * Allocation rows for the holdings in the current selection: each kept holding's market value at
 * the latest known price (falling back to its average cost) and its return over that cost.
 *
 * The source reads `avg_price` before it looks the price up (the default argument of the price
 * lookup is evaluated eagerly), then `quantity`, then divides by the average cost; a missing field
 * or a zero cost aborts the whole call, so the model returns the first such error.
 */
module Allocation {
  import opened Results
  import opened Ledger
  import Sums

  const DefaultSector: string := "Other"

  datatype AllocError =
    | MissingAvgPrice(symbol: string)  // KeyError on `avg_price`
    | MissingQuantity(symbol: string)  // KeyError on `quantity`
    | ZeroAvgPrice(symbol: string)     // ZeroDivisionError in the return

  datatype Slice = Slice(symbol: string, sector: string, value: real, returnPct: real)

  /** A holding the allocation can value: it has a quantity and a non-zero average cost. */
  predicate Priceable(h: Holding)
  {
    h.avgPrice.Some? && h.quantity.Some? && h.avgPrice.value != 0.0
  }

  /** The holdings the selection keeps, in order. */
  function Kept(hs: seq<Holding>, sel: Selection): (r: seq<Holding>)
    ensures |r| <= |hs|
    ensures forall h :: h in r <==> h in hs && Selected(sel, h.symbol)
  {
    if |hs| == 0 then []
    else
      var rest := Kept(hs[1..], sel);
      assert forall h :: h in hs <==> h == hs[0] || h in hs[1..];
      if Selected(sel, hs[0].symbol) then [hs[0]] + rest else rest
  }

  /** A single holding is kept exactly when it is selected. */
  lemma KeptOne(h: Holding, sel: Selection)
    ensures Kept([h], sel) == if Selected(sel, h.symbol) then [h] else []
  {
    assert [h][1..] == [];
  }

  /** The kept holdings of a concatenation are those of each part, in order. */
  lemma {:induction false} KeptAppend(a: seq<Holding>, b: seq<Holding>, sel: Selection)
    ensures Kept(a + b, sel) == Kept(a, sel) + Kept(b, sel)
  {
    if |a| > 0 {
      var rest := Kept(a[1..] + b, sel);
      assert (a + b)[1..] == a[1..] + b;
      assert (a + b)[0] == a[0];
      assert Kept(a + b, sel) == (if Selected(sel, a[0].symbol) then [a[0]] else []) + rest;
      assert Kept(a, sel) == (if Selected(sel, a[0].symbol) then [a[0]] else []) + Kept(a[1..], sel);
      KeptAppend(a[1..], b, sel);
    } else {
      assert a + b == b;
    }
  }

  /** The price a holding is valued at: the latest price when one is known, else its average cost. */
  function Quote(h: Holding, prices: map<string, real>): real
    requires h.avgPrice.Some?
  {
    if h.symbol in prices then prices[h.symbol] else h.avgPrice.value
  }

  /** One allocation row, or the error the source raises for this holding. */
  function SliceOf(h: Holding, prices: map<string, real>): (r: Result<Slice, AllocError>)
    ensures r.Success? <==> Priceable(h)
    ensures h.avgPrice.None? ==> r == Failure(MissingAvgPrice(h.symbol))
    ensures h.avgPrice.Some? && h.quantity.None? ==> r == Failure(MissingQuantity(h.symbol))
    ensures h.avgPrice.Some? && h.quantity.Some? && h.avgPrice.value == 0.0 ==>
      r == Failure(ZeroAvgPrice(h.symbol))
    ensures r.Success? ==>
      r.value.symbol == h.symbol &&
      r.value.sector == h.sector.GetOr(DefaultSector) &&
      r.value.value == h.quantity.value * Quote(h, prices) &&
      Quote(h, prices) == Sums.Level(h.avgPrice.value, r.value.returnPct)
  {
    if h.avgPrice.None? then Failure(MissingAvgPrice(h.symbol))
    else if h.quantity.None? then Failure(MissingQuantity(h.symbol))
    else
      var avg := h.avgPrice.value;
      var price := Quote(h, prices);
      if avg == 0.0 then Failure(ZeroAvgPrice(h.symbol))
      else Success(Slice(h.symbol, h.sector.GetOr(DefaultSector), h.quantity.value * price, Sums.Change(avg, price)))
  }

  /** Position of the first holding that cannot be valued, or the length when there is none. */
  function FirstUnpriceable(hs: seq<Holding>): (k: nat)
    ensures k <= |hs|
    ensures forall j :: 0 <= j < k ==> Priceable(hs[j])
    ensures k < |hs| ==> !Priceable(hs[k])
  {
    if |hs| == 0 || !Priceable(hs[0]) then 0 else 1 + FirstUnpriceable(hs[1..])
  }

  /**
   * The allocation table: one row per kept holding, in order, or the error raised by the first kept
   * holding that cannot be valued.
   */
  function Allocate(hs: seq<Holding>, prices: map<string, real>, sel: Selection): (r: Result<seq<Slice>, AllocError>)
  {
    if |hs| == 0 then Success([])
    else if !Selected(sel, hs[0].symbol) then Allocate(hs[1..], prices, sel)
    else
      match SliceOf(hs[0], prices)
      case Failure(e) => Failure(e)
      case Success(row) =>
        match Allocate(hs[1..], prices, sel)
        case Failure(e) => Failure(e)
        case Success(rows) => Success([row] + rows)
  }

  /** The allocation succeeds exactly when no kept holding fails. */
  lemma {:induction false} AllocateSucceeds(hs: seq<Holding>, prices: map<string, real>, sel: Selection)
    ensures Allocate(hs, prices, sel).Success? <==> FirstUnpriceable(Kept(hs, sel)) == |Kept(hs, sel)|
  {
    if |hs| > 0 {
      AllocateSucceeds(hs[1..], prices, sel);
      var rest := Kept(hs[1..], sel);
      if Selected(sel, hs[0].symbol) {
        var kept := Kept(hs, sel);
        assert kept == [hs[0]] + rest;
        assert kept[1..] == rest;
      }
    }
  }

  /** A successful allocation holds each kept holding's row, in order. */
  lemma {:induction false} AllocateRows(hs: seq<Holding>, prices: map<string, real>, sel: Selection)
    requires Allocate(hs, prices, sel).Success?
    ensures var kept := Kept(hs, sel);
      var rows := Allocate(hs, prices, sel).value;
      |rows| == |kept| && forall k :: 0 <= k < |kept| ==> SliceOf(kept[k], prices) == Success(rows[k])
  {
    if |hs| > 0 {
      AllocateRows(hs[1..], prices, sel);
      var rest := Kept(hs[1..], sel);
      if Selected(sel, hs[0].symbol) {
        var kept := Kept(hs, sel);
        var rows := Allocate(hs, prices, sel).value;
        var later := Allocate(hs[1..], prices, sel).value;
        assert kept == [hs[0]] + rest;
        assert rows == [SliceOf(hs[0], prices).value] + later;
        forall k | 0 <= k < |kept| ensures SliceOf(kept[k], prices) == Success(rows[k]) {
          if k > 0 {
            assert kept[k] == rest[k - 1] && rows[k] == later[k - 1];
          }
        }
      } else {
        assert Kept(hs, sel) == rest;
      }
    }
  }

  /** A failed allocation reports the error of the first kept holding that cannot be valued. */
  lemma {:induction false} AllocateError(hs: seq<Holding>, prices: map<string, real>, sel: Selection)
    requires Allocate(hs, prices, sel).Failure?
    ensures var kept := Kept(hs, sel);
      FirstUnpriceable(kept) < |kept| &&
      SliceOf(kept[FirstUnpriceable(kept)], prices) == Failure(Allocate(hs, prices, sel).error)
  {
    AllocateSucceeds(hs, prices, sel);
    var rest := Kept(hs[1..], sel);
    if !Selected(sel, hs[0].symbol) {
      AllocateError(hs[1..], prices, sel);
    } else {
      var kept := Kept(hs, sel);
      assert kept == [hs[0]] + rest;
      assert kept[1..] == rest;
      if Priceable(hs[0]) {
        AllocateError(hs[1..], prices, sel);
        assert FirstUnpriceable(kept) == 1 + FirstUnpriceable(rest);
      }
    }
  }

  /** The allocation succeeds exactly when every kept holding has a quantity and a non-zero average cost. */
  lemma AllocateSucceedsIff(hs: seq<Holding>, prices: map<string, real>, sel: Selection)
    ensures Allocate(hs, prices, sel).Success? <==> forall h :: h in hs && Selected(sel, h.symbol) ==> Priceable(h)
  {
    AllocateSucceeds(hs, prices, sel);
    var kept := Kept(hs, sel);
    var k := FirstUnpriceable(kept);
    if k < |kept| {
      assert kept[k] in kept;
    } else {
      forall h | h in hs && Selected(sel, h.symbol) ensures Priceable(h) {
        assert h in kept;
        var j :| 0 <= j < |kept| && kept[j] == h;
      }
    }
  }

  /**
   * A holding without a latest price is valued at its average cost and shows a 0 return; a holding
   * with one shows a non-negative return exactly when that price is at least a positive cost.
   */
  lemma SliceReturn(h: Holding, prices: map<string, real>)
    requires Priceable(h)
    ensures h.symbol !in prices ==>
      SliceOf(h, prices).value.returnPct == 0.0 &&
      SliceOf(h, prices).value.value == h.quantity.value * h.avgPrice.value
    ensures h.avgPrice.value > 0.0 ==>
      (SliceOf(h, prices).value.returnPct >= 0.0 <==> Quote(h, prices) >= h.avgPrice.value)
  {
    Sums.ChangeSign(h.avgPrice.value, Quote(h, prices));
  }
}
